/** `xserverInit`: take a display number, create the two socket pairs and the
    two listeners, fork, and let each side close the descriptors it does not
    own. The operating system is a descriptor table per process. */
module Bootstrap {
  import opened Decimal
  import opened Numbering
  import opened Naming
  import opened DisplayLock
  import opened Xwayland

  /** A connected socket pair as Socketpair returns it: `end0` is index 0,
      `end1` index 1. */
  datatype SocketPair = SocketPair(end0: nat, end1: nat)

  /** The process image exec installs: its argument vector, its environment
      and the descriptors it inherits. */
  datatype Image = Image(argv: seq<string>, env: map<string, string>, fds: set<nat>)

  /** What one run of xserverInit set up: the display number, both socket
      pairs, both listeners, and the descriptors handed to the window-manager
      handler (initXwm) and to the compositor's client registry
      (wl_client_create). */
  datatype Session = Session(
    display: nat,
    wls: SocketPair,
    wms: SocketPair,
    unixFd: nat,
    abstractFd: nat,
    xwmFd: nat,
    clientFd: nat)

  /** One process: its open descriptors, the ones marked close-on-exec, the
      listening sockets among them with their addresses, and its environment. */
  class Process {
    var open: set<nat>
    var cloexec: set<nat>
    var listeners: map<nat, string>
    var env: map<string, string>

    ghost predicate Valid()
      reads this
    {
      cloexec <= open && listeners.Keys <= open
    }

    constructor (open: set<nat>, cloexec: set<nat>, listeners: map<nat, string>, env: map<string, string>)
      requires cloexec <= open && listeners.Keys <= open
      ensures Valid()
      ensures this.open == open && this.cloexec == cloexec
      ensures this.listeners == listeners && this.env == env
    {
      this.open := open;
      this.cloexec := cloexec;
      this.listeners := listeners;
      this.env := env;
    }

    /** fork: the child starts with a copy of the parent's descriptor table
        and environment. */
    constructor Fork(parent: Process)
      requires parent.Valid()
      ensures Valid()
      ensures open == parent.open && cloexec == parent.cloexec
      ensures listeners == parent.listeners && env == parent.env
    {
      open := parent.open;
      cloexec := parent.cloexec;
      listeners := parent.listeners;
      env := parent.env;
    }

    /** The execution image exec would start with `argv`: the environment as
        it stands and every open descriptor not marked close-on-exec. */
    function ExecImage(argv: seq<string>): Image
      reads this
    {
      Image(argv, env, open - cloexec)
    }

    /** os.Setenv. */
    method Setenv(key: string, value: string)
      modifies this`env
      ensures env == old(env)[key := value]
    {
      env := env[key := value];
    }

    /** Socketpair(AF_UNIX, SOCK_STREAM): two new descriptors, neither
        close-on-exec. */
    method Socketpair() returns (p: SocketPair)
      requires Valid()
      modifies this`open
      ensures Valid()
      ensures p.end0 !in old(open) && p.end1 !in old(open) && p.end0 != p.end1
      ensures open == old(open) + {p.end0, p.end1}
    {
      var a := LeastFree(open);
      open := open + {a};
      var b := LeastFree(open);
      open := open + {b};
      p := SocketPair(a, b);
    }

    /** listen2: a new stream socket created close-on-exec, bound to `path`
        and listening. */
    method Listen2(path: string) returns (fd: nat)
      requires Valid()
      modifies this`open, this`cloexec, this`listeners
      ensures Valid()
      ensures fd !in old(open)
      ensures open == old(open) + {fd}
      ensures cloexec == old(cloexec) + {fd}
      ensures listeners == old(listeners)[fd := path]
    {
      fd := LeastFree(open);
      open := open + {fd};
      cloexec := cloexec + {fd};
      listeners := listeners[fd := path];
    }

    /** unsetCloseOnExec: fcntl(F_SETFD, 0) clears the flag of an open
        descriptor; on a descriptor that is not open it fails, and the
        source panics. */
    method UnsetCloseOnExec(fd: nat) returns (ok: bool)
      requires Valid()
      modifies this`cloexec
      ensures Valid()
      ensures ok <==> fd in open
      ensures cloexec == if ok then old(cloexec) - {fd} else old(cloexec)
    {
      ok := fd in open;
      if ok {
        cloexec := cloexec - {fd};
      }
    }

    /** unix.Close: the descriptor leaves the table (an error is ignored). */
    method Close(fd: nat)
      requires Valid()
      modifies this`open, this`cloexec, this`listeners
      ensures Valid()
      ensures open == old(open) - {fd}
      ensures cloexec == old(cloexec) - {fd}
      ensures listeners == old(listeners) - {fd}
    {
      open := open - {fd};
      cloexec := cloexec - {fd};
      listeners := listeners - {fd};
    }
  }

  /** The child branch of the fork: close the parent's ends of both pairs,
      point WAYLAND_SOCKET at the child's end of the Wayland pair, and exec
      Xwayland with the argument vector. The listeners stay open. */
  method ChildSide(c: Process, displayName: string, wls: SocketPair, wms: SocketPair, unixFd: nat, abstractFd: nat)
    returns (img: Image)
    requires c.Valid()
    modifies c`open, c`cloexec, c`listeners, c`env
    ensures c.Valid()
    ensures c.open == old(c.open) - {wls.end0, wms.end0}
    ensures c.cloexec == old(c.cloexec) - {wls.end0, wms.end0}
    ensures c.listeners == old(c.listeners) - {wls.end0, wms.end0}
    ensures c.env == old(c.env)[WaylandSocketVar := Itoa(wls.end1)]
    ensures img == Image(XwaylandArgs(displayName, unixFd, abstractFd, wms.end1), c.env, c.open - c.cloexec)
  {
    c.Close(wls.end0);
    c.Close(wms.end0);
    c.Setenv(WaylandSocketVar, Itoa(wls.end1));
    var args := XwaylandArgs(displayName, unixFd, abstractFd, wms.end1);
    img := c.ExecImage(args);
  }

  /** The parent branch of the fork: close the child's ends of both pairs;
      the listeners stay open. */
  method ParentSide(p: Process, wls: SocketPair, wms: SocketPair)
    requires p.Valid()
    modifies p`open, p`cloexec, p`listeners
    ensures p.Valid()
    ensures p.open == old(p.open) - {wls.end1, wms.end1}
    ensures p.cloexec == old(p.cloexec) - {wls.end1, wms.end1}
    ensures p.listeners == old(p.listeners) - {wls.end1, wms.end1}
  {
    p.Close(wls.end1);
    p.Close(wms.end1);
  }

  /** The six descriptors one session creates, in creation order. */
  function CreatedFds(s: Session): seq<nat>
  {
    [s.wls.end0, s.wls.end1, s.wms.end0, s.wms.end1, s.unixFd, s.abstractFd]
  }

  /** The socket set-up of xserverInit for display `displayNum`: both socket
      pairs, the handler and client-registry choice of index 0, both
      listeners, and clearing the listeners' close-on-exec flags so that
      Xwayland inherits them. */
  method CreateSockets(host: Process, displayNum: nat) returns (s: Session)
    requires host.Valid()
    modifies host`open, host`cloexec, host`listeners
    ensures host.Valid()
    ensures s.display == displayNum
    ensures forall i, j :: 0 <= i < j < 6 ==> CreatedFds(s)[i] != CreatedFds(s)[j]
    ensures forall i :: 0 <= i < 6 ==> CreatedFds(s)[i] !in old(host.open)
    ensures s.xwmFd == s.wms.end0 && s.clientFd == s.wls.end0
    ensures host.open == old(host.open) + {s.wls.end0, s.wls.end1, s.wms.end0, s.wms.end1, s.unixFd, s.abstractFd}
    ensures host.cloexec == old(host.cloexec)
    ensures host.listeners ==
      old(host.listeners)[s.unixFd := SocketPath(displayNum)][s.abstractFd := AbstractSocketPath(displayNum)]
  {
    var numStr := Itoa(displayNum);
    var wls := host.Socketpair();
    var wms := host.Socketpair();
    var xwmFd := wms.end0;    // initXwm: the handler will pass this to xwmInit
    var clientFd := wls.end0; // wl_client_create

    var unixFd := host.Listen2(SocketFmt + numStr);
    var abstractFd := host.Listen2("@" + SocketFmt + numStr);
    var ok1 := host.UnsetCloseOnExec(unixFd);
    var ok2 := host.UnsetCloseOnExec(abstractFd);
    // both listeners are open, so neither fcntl fails and the panic is never reached
    assert ok1 && ok2;
    s := Session(displayNum, wls, wms, unixFd, abstractFd, xwmFd, clientFd);
  }

  /** The part of xserverInit before the fork: take a display number, set
      DISPLAY, then create the sockets. */
  method Provision(locks: LockTable, host: Process) returns (s: Session)
    requires host.Valid()
    modifies locks, host
    ensures host.Valid()
    ensures s.display == LeastFree(old(locks.Blocked()))
    ensures locks.held == old(locks.held) + {s.display}
    ensures forall i, j :: 0 <= i < j < 6 ==> CreatedFds(s)[i] != CreatedFds(s)[j]
    ensures forall i :: 0 <= i < 6 ==> CreatedFds(s)[i] !in old(host.open)
    ensures s.xwmFd == s.wms.end0 && s.clientFd == s.wls.end0
    ensures host.open == old(host.open) + {s.wls.end0, s.wls.end1, s.wms.end0, s.wms.end1, s.unixFd, s.abstractFd}
    ensures host.cloexec == old(host.cloexec)
    ensures host.listeners ==
      old(host.listeners)[s.unixFd := SocketPath(s.display)][s.abstractFd := AbstractSocketPath(s.display)]
    ensures host.env == old(host.env)[DisplayVar := DisplayName(s.display)]
  {
    var displayNum, lockFile := TryLock(locks);
    var displayName := ":" + Itoa(displayNum);
    host.Setenv(DisplayVar, displayName);
    s := CreateSockets(host, displayNum);
  }

  /** After the six descriptors are created and the listeners' flags are
      cleared, the child, having closed index 0 of both pairs, inherits
      through exec exactly what the compositor already passed on plus index 1
      of both pairs and both listeners. */
  lemma ChildInherits(open0: set<nat>, cloexec0: set<nat>, s: Session)
    requires cloexec0 <= open0
    requires forall i, j :: 0 <= i < j < 6 ==> CreatedFds(s)[i] != CreatedFds(s)[j]
    requires forall i :: 0 <= i < 6 ==> CreatedFds(s)[i] !in open0
    ensures ((open0 + {s.wls.end0, s.wls.end1, s.wms.end0, s.wms.end1, s.unixFd, s.abstractFd})
              - {s.wls.end0, s.wms.end0}) - cloexec0
         == (open0 - cloexec0) + {s.wls.end1, s.wms.end1, s.unixFd, s.abstractFd}
  {
    var fds := CreatedFds(s);
    assert fds[0] == s.wls.end0 && fds[1] == s.wls.end1 && fds[2] == s.wms.end0;
    assert fds[3] == s.wms.end1 && fds[4] == s.unixFd && fds[5] == s.abstractFd;
  }

  /** fork, then the child branch in the new process: the child's image is
      the parent's table without index 0 of either pair, its environment with
      WAYLAND_SOCKET added, and the Xwayland command line. The parent is not
      changed. */
  method ForkChild(host: Process, s: Session) returns (img: Image)
    requires host.Valid()
    ensures img.argv == XwaylandArgs(DisplayName(s.display), s.unixFd, s.abstractFd, s.wms.end1)
    ensures img.env == host.env[WaylandSocketVar := Itoa(s.wls.end1)]
    ensures img.fds == (host.open - {s.wls.end0, s.wms.end0}) - host.cloexec
  {
    var c := new Process.Fork(host);
    img := ChildSide(c, DisplayName(s.display), s.wls, s.wms, s.unixFd, s.abstractFd);
  }

  /** xserverInit on `host`. When the fork fails the raw syscall's result is
      not zero, so only the parent branch runs and there is no child image. */
  method XserverInit(locks: LockTable, host: Process, forkSucceeds: bool)
    returns (s: Session, child: Option<Image>)
    requires host.Valid()
    modifies locks, host
    ensures host.Valid()
    // the display number is the least one whose lock could be taken, and it is now held
    ensures s.display == LeastFree(old(locks.Blocked()))
    ensures locks.held == old(locks.held) + {s.display}
    // six new, distinct descriptors
    ensures forall i, j :: 0 <= i < j < 6 ==> CreatedFds(s)[i] != CreatedFds(s)[j]
    ensures forall i :: 0 <= i < 6 ==> CreatedFds(s)[i] !in old(host.open)
    // the window-manager handler and the client registry get the parent's ends
    ensures s.xwmFd == s.wms.end0 && s.clientFd == s.wls.end0
    // the parent keeps its two ends and both listeners, nothing else new
    ensures host.open == old(host.open) + {s.wls.end0, s.wms.end0, s.unixFd, s.abstractFd}
    ensures host.cloexec == old(host.cloexec)
    ensures host.listeners ==
      old(host.listeners)[s.unixFd := SocketPath(s.display)][s.abstractFd := AbstractSocketPath(s.display)]
    ensures host.env == old(host.env)[DisplayVar := DisplayName(s.display)]
    // the child execs Xwayland holding its two ends and both listeners
    ensures child.Some? <==> forkSucceeds
    ensures child.Some? ==>
      child.value == Image(
        XwaylandArgs(DisplayName(s.display), s.unixFd, s.abstractFd, s.wms.end1),
        ChildEnv(old(host.env), DisplayName(s.display), s.wls.end1),
        (old(host.open) - old(host.cloexec)) + {s.wls.end1, s.wms.end1, s.unixFd, s.abstractFd})
    // each end of a pair stays open on exactly one side; the listeners on both
    ensures s.wls.end0 in host.open && s.wms.end0 in host.open
    ensures s.wls.end1 !in host.open && s.wms.end1 !in host.open
    ensures child.Some? ==>
      && s.wls.end1 in child.value.fds && s.wms.end1 in child.value.fds
      && s.wls.end0 !in child.value.fds && s.wms.end0 !in child.value.fds
      && s.unixFd in child.value.fds && s.abstractFd in child.value.fds
  {
    ghost var open0, cloexec0, env0 := host.open, host.cloexec, host.env;
    s := Provision(locks, host);
    ghost var fds := CreatedFds(s);
    assert fds[0] == s.wls.end0 && fds[1] == s.wls.end1 && fds[2] == s.wms.end0;
    assert fds[3] == s.wms.end1 && fds[4] == s.unixFd && fds[5] == s.abstractFd;

    child := None;
    if forkSucceeds {
      var img := ForkChild(host, s);
      ChildInherits(open0, cloexec0, s);
      child := Some(img);
    }
    ParentSide(host, s.wls, s.wms);
  }
}
