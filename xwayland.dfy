/** The command line and environment the child hands to Xwayland, and a
    reader of that command line that recovers what it asks Xwayland to do. */
module Xwayland {
  import opened Decimal

  const Binary: string := "Xwayland"
  const DisplayVar: string := "DISPLAY"
  const WaylandSocketVar: string := "WAYLAND_SOCKET"

  /** The argument vector passed to exec: the display name, then the flags,
      the two listening descriptors and the window-manager descriptor. */
  function XwaylandArgs(displayName: string, unixFd: int, abstractFd: int, wmFd: int): (args: seq<string>)
    ensures |args| == 10 && args[0] == Binary && args[1] == displayName
    ensures args[2] == "-rootless" && args[3] == "-terminate"
    ensures args[4] == "-listen" && Atoi(args[5]) == Some(unixFd)
    ensures args[6] == "-listen" && Atoi(args[7]) == Some(abstractFd)
    ensures args[8] == "-wm" && Atoi(args[9]) == Some(wmFd)
  {
    AtoiItoa(unixFd);
    AtoiItoa(abstractFd);
    AtoiItoa(wmFd);
    [Binary, displayName, "-rootless", "-terminate",
     "-listen", Itoa(unixFd),
     "-listen", Itoa(abstractFd),
     "-wm", Itoa(wmFd)]
  }

  /** What a command line asks of the server. */
  datatype ServerConfig = ServerConfig(
    display: string,
    rootless: bool,
    terminate: bool,
    listenFds: seq<int>,
    wmFd: Option<int>)

  datatype Invocation = Invocation(binary: string, config: ServerConfig)

  const NoOptions: ServerConfig := ServerConfig("", false, false, [], None)

  /** Reads the options in order: a `:N` display, the two flags, and the
      `-listen FD` and `-wm FD` pairs; an unknown token or a missing or
      non-numeric descriptor rejects the line. */
  function ParseOptions(opts: seq<string>, acc: ServerConfig): Option<ServerConfig>
    decreases |opts|
  {
    if opts == [] then Some(acc)
    else if |opts[0]| >= 1 && opts[0][0] == ':' then
      ParseOptions(opts[1..], acc.(display := opts[0]))
    else if opts[0] == "-rootless" then
      ParseOptions(opts[1..], acc.(rootless := true))
    else if opts[0] == "-terminate" then
      ParseOptions(opts[1..], acc.(terminate := true))
    else if opts[0] == "-listen" && |opts| >= 2 && Atoi(opts[1]).Some? then
      ParseOptions(opts[2..], acc.(listenFds := acc.listenFds + [Atoi(opts[1]).value]))
    else if opts[0] == "-wm" && |opts| >= 2 && Atoi(opts[1]).Some? then
      ParseOptions(opts[2..], acc.(wmFd := Some(Atoi(opts[1]).value)))
    else None
  }

  /** Reads a whole argument vector: the program name, then its options. */
  function ParseArgs(args: seq<string>): Option<Invocation>
  {
    if args == [] then None
    else
      match ParseOptions(args[1..], NoOptions)
      case None => None
      case Some(c) => Some(Invocation(args[0], c))
  }

  /** Reading the constructed command line back gives the Xwayland binary
      asked to serve `displayName`, rootless, terminating with its last
      client, listening on the two listeners in order (filesystem first,
      abstract second) and running its window manager on `wmFd`. */
  lemma ArgsRoundTrip(displayName: string, unixFd: int, abstractFd: int, wmFd: int)
    requires |displayName| >= 1 && displayName[0] == ':'
    ensures ParseArgs(XwaylandArgs(displayName, unixFd, abstractFd, wmFd))
         == Some(Invocation(Binary, ServerConfig(displayName, true, true, [unixFd, abstractFd], Some(wmFd))))
  {
    var args := XwaylandArgs(displayName, unixFd, abstractFd, wmFd);
    AtoiItoa(unixFd);
    AtoiItoa(abstractFd);
    AtoiItoa(wmFd);
    var c1 := NoOptions.(display := displayName);
    var c2 := c1.(rootless := true);
    var c3 := c2.(terminate := true);
    var c4 := c3.(listenFds := [unixFd]);
    var c5 := c4.(listenFds := [unixFd, abstractFd]);
    var c6 := c5.(wmFd := Some(wmFd));
    assert ParseOptions(args[10..], c6) == Some(c6);
    assert ParseOptions(args[8..], c5) == ParseOptions(args[10..], c6);
    assert args[6..][2..] == args[8..] && args[4..][2..] == args[6..];
    assert c4.listenFds + [abstractFd] == [unixFd, abstractFd];
    assert ParseOptions(args[6..], c4) == ParseOptions(args[8..], c5) by {
      assert args[6..][0] == "-listen" && args[6..][1] == Itoa(abstractFd);
      assert "-listen"[0] == '-' && "-listen" != "-rootless" && "-listen" != "-terminate";
    }
    assert c3.listenFds + [unixFd] == [unixFd];
    assert ParseOptions(args[4..], c3) == ParseOptions(args[6..], c4) by {
      assert args[4..][0] == "-listen" && args[4..][1] == Itoa(unixFd);
      assert "-listen"[0] == '-' && "-listen" != "-rootless" && "-listen" != "-terminate";
    }
    assert ParseOptions(args[3..], c2) == ParseOptions(args[4..], c3);
    assert ParseOptions(args[2..], c1) == ParseOptions(args[3..], c2);
    assert ParseOptions(args[1..], NoOptions) == ParseOptions(args[2..], c1);
  }

  /** A rendered descriptor is never mistaken for an option name. */
  lemma ItoaIsNotOption(fd: int)
    ensures Itoa(fd) != "-listen" && Itoa(fd) != "-wm"
    ensures Itoa(fd) != "-rootless" && Itoa(fd) != "-terminate"
  {
    var s := Itoa(fd);
    if |s| >= 2 {
      assert IsDigit(s[1]);
    }
  }

  /** How many times `tok` occurs in `args`. */
  function Count(args: seq<string>, tok: string): nat
  {
    if args == [] then 0 else (if args[0] == tok then 1 else 0) + Count(args[1..], tok)
  }

  /** The command line holds `-listen` exactly twice and `-wm` exactly once. */
  lemma ArgsOptionCounts(displayName: string, unixFd: int, abstractFd: int, wmFd: int)
    requires |displayName| >= 1 && displayName[0] == ':'
    ensures var args := XwaylandArgs(displayName, unixFd, abstractFd, wmFd);
      Count(args, "-listen") == 2 && Count(args, "-wm") == 1
  {
    var args := XwaylandArgs(displayName, unixFd, abstractFd, wmFd);
    ItoaIsNotOption(unixFd);
    ItoaIsNotOption(abstractFd);
    ItoaIsNotOption(wmFd);
    assert displayName != "-listen" && displayName != "-wm" by {
      assert "-listen"[0] == '-' && "-wm"[0] == '-';
    }
    assert Count(args[10..], "-listen") == 0 && Count(args[10..], "-wm") == 0;
    assert Count(args[9..], "-listen") == 0 && Count(args[9..], "-wm") == 0;
    assert Count(args[8..], "-listen") == 0 && Count(args[8..], "-wm") == 1;
    assert Count(args[7..], "-listen") == 0 && Count(args[7..], "-wm") == 1;
    assert Count(args[6..], "-listen") == 1 && Count(args[6..], "-wm") == 1;
    assert Count(args[5..], "-listen") == 1 && Count(args[5..], "-wm") == 1;
    assert Count(args[4..], "-listen") == 2 && Count(args[4..], "-wm") == 1;
    assert Count(args[3..], "-listen") == 2 && Count(args[3..], "-wm") == 1;
    assert Count(args[2..], "-listen") == 2 && Count(args[2..], "-wm") == 1;
    assert Count(args[1..], "-listen") == 2 && Count(args[1..], "-wm") == 1;
  }

  /** The environment exec hands to Xwayland: the inherited one with DISPLAY
      set by the parent before the fork and WAYLAND_SOCKET set by the child.
      Xwayland finds its display name there and, read back as a number, its
      compositor descriptor; no other variable changes. */
  function ChildEnv(inherited: map<string, string>, displayName: string, waylandFd: int): (env: map<string, string>)
    ensures DisplayVar in env && env[DisplayVar] == displayName
    ensures WaylandSocketVar in env && Atoi(env[WaylandSocketVar]) == Some(waylandFd)
    ensures env.Keys == inherited.Keys + {DisplayVar, WaylandSocketVar}
    ensures forall k :: k in inherited && k != DisplayVar && k != WaylandSocketVar ==> env[k] == inherited[k]
  {
    AtoiItoa(waylandFd);
    inherited[DisplayVar := displayName][WaylandSocketVar := Itoa(waylandFd)]
  }
}
