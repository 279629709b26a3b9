# Xwayland bootstrap: a Dafny model

This project models the deterministic core of `xserver.go`, which starts an
Xwayland server for a Wayland compositor:

- **display-number allocation**: `lock(num)` creates the lock-file handle for
  `/tmp/.X<num>-lock` and tries to take it; `TryLock` tries 0, 1, 2, … and
  returns the first number it can lock, treating every error as "try the next
  number";
- **naming**: the lock path (`fmt.Sprintf(LOCK_FMT, num)`), the `DISPLAY`
  value `":" + Itoa(n)`, the filesystem socket `/tmp/.X11-unix/X<n>` and the
  abstract socket `@/tmp/.X11-unix/X<n>`;
- **the Xwayland command line and environment**: the fixed ten-element argv
  and `WAYLAND_SOCKET`;
- **descriptor ownership across the fork**: both socket pairs and both
  listeners are created in the compositor process, which then forks; the
  child closes index 0 of each pair and execs Xwayland, the parent closes
  index 1 of each pair, and nobody closes the listeners.

The operating system is abstract. The host's lock files are a `LockTable`
(the numbers already held, plus the numbers for which the lock library
reports an error). A process is a `Process` object holding its open
descriptors, the ones marked close-on-exec, the listening sockets with the
addresses they are bound to, and its environment. `fork` copies a process,
`exec` yields an `Image` (argv, environment, inherited descriptors).

Modules, leaves first: `Numbering` (least unused number), `Decimal`
(`strconv.Itoa` and a reader that inverts it), `Naming`, `DisplayLock`,
`Xwayland` (argv, an argv reader, the child's environment) and `Bootstrap`
(the descriptor table, the two sides of the fork, `xserverInit`).

Facts about the code that shape the model:

- The parent never closes the two listeners, so it keeps four new
  descriptors: its two channel ends and both listeners
  (`Bootstrap.XserverInit`). The child's exec image inherits them too
  (`Bootstrap.ChildInherits`), because the listeners' close-on-exec flags are
  cleared and the socket pairs are created without that flag.
- `listen2` discards every error; nothing is retried or reported.
- The search has no upper bound. The model assumes the set of failing
  numbers is finite, which makes the search terminate; a host on which every
  attempt fails is outside the model (see "## Left out").
- `xserverInit` returns nothing; the model returns a `Session` record of what
  was created and which descriptors `initXwm` and `wl_client_create` received.
- `DISPLAY` is set in the compositor's own environment before the fork. The
  child inherits it.

## Model

| member | source | states |
|---|---|---|
| `Numbering.LeastFreeFrom` | xserver.go:40-47 | the result is at or above the start, is free, and every number from the start up to it is taken: the search loop's outcome |
| `Numbering.LeastFree` | xserver.go:39-48 | the least natural number not in the set: free, and every smaller natural is taken |
| `Numbering.LeastFreeUnique` | xserver.go:39-48 | any free number with only taken numbers below it is the least free one |
| `Numbering.LeastFreeAfterTaking` | xserver.go:39-48 | once the least free number is taken, the next least free number is strictly larger |
| `Decimal.NatToDecimal` | xserver.go:110 | at least one character, all decimal digits, no leading zero |
| `Decimal.Itoa` | xserver.go:110 | non-empty; starts with '-' exactly for negatives and with a digit otherwise; every later character is a digit |
| `Decimal.DigitsValueOfDecimal` | xserver.go:110 | the digit string of n denotes n |
| `Decimal.AtoiItoa` | xserver.go:110 | reading back the rendering of any integer gives that integer |
| `Decimal.ItoaInjective` | xserver.go:110 | distinct integers render as distinct strings |
| `Naming.Sprintf1` | xserver.go:23 | a format without any '%' is copied unchanged (the verb case is `Naming.Sprintf1Substitutes`) |
| `Naming.Sprintf1Substitutes` | xserver.go:20-23 | a one-verb format puts the argument where "%d" stands and keeps the text on both sides |
| `Naming.LockPath` | xserver.go:20-23 | the lock path of num is "/tmp/.X" + decimal(num) + "-lock" |
| `Naming.LockPathInjective` | xserver.go:20-23 | distinct display numbers have distinct lock paths |
| `Naming.DisplayName` | xserver.go:110-112 | the DISPLAY value is ':' followed by a string that reads back as the display number; for a display number that string is all digits with no leading zero |
| `Naming.SocketPath` | xserver.go:128 | the filesystem path is SOCKET_FMT (line 90) followed by a string that reads back as the display number; for a display number that string is all digits with no leading zero |
| `Naming.AbstractSocketPath` | xserver.go:129 | the abstract address is '@' followed by exactly the filesystem path |
| `Naming.NamesShareDigits` | xserver.go:110-129 | the socket path is SOCKET_FMT followed by exactly the digits of the DISPLAY value, and the lock path is "/tmp/.X" + those same digits + "-lock" |
| `Naming.NamesInjective` | xserver.go:110-129 | distinct display numbers have distinct DISPLAY values, filesystem paths and abstract addresses |
| `Naming.SocketAddressesDisjoint` | xserver.go:128-129 | no filesystem path equals any abstract address, for the same or another display |
| `DisplayLock.LockTable.Lock` | xserver.go:22-36 | succeeds exactly when num is not blocked; a New failure returns an empty handle, otherwise the handle is the lock path; the error says which step failed; on success num becomes held and no other number changes, on failure nothing changes |
| `DisplayLock.TryLock` | xserver.go:39-48 | returns the least number whose attempt succeeds; every smaller number's attempt failed, whatever the error; that number is now held and nothing else is; the handle is its lock path |
| `DisplayLock.TwoSessions` | xserver.go:39-48 | two searches one after the other on the same host, by two different processes, return different numbers, the second larger |
| `Xwayland.ArgsRoundTrip` | xserver.go:153-161 | reading the argv back gives binary Xwayland, the display name, rootless, terminate, listeners [filesystem, abstract] in that order, and the window-manager descriptor |
| `Xwayland.XwaylandArgs` | xserver.go:153-161 | ten elements: the binary, the display name, "-rootless" and "-terminate" at positions 2 and 3, and "-listen", "-listen", "-wm" at positions 4, 6, 8, each followed by a string that reads back as the filesystem listener, the abstract listener and the window-manager descriptor |
| `Xwayland.ItoaIsNotOption` | xserver.go:158-160 | a rendered descriptor is never one of the option names |
| `Xwayland.ArgsOptionCounts` | xserver.go:153-161 | exactly two "-listen" and exactly one "-wm" in the argv |
| `Xwayland.ChildEnv` | xserver.go:152-170 | the exec environment has DISPLAY (set at line 113) as given and WAYLAND_SOCKET reading back as the child's Wayland end; it has exactly the inherited variables plus these two, and every other variable keeps its value |
| `Bootstrap.Process.Fork` | xserver.go:92-98 | the child starts with the parent's descriptor table and environment |
| `Bootstrap.Process.Setenv` | xserver.go:113 | the environment gains or overwrites one variable |
| `Bootstrap.Process.Socketpair` | xserver.go:117-121 | two distinct new descriptors, not close-on-exec, are added |
| `Bootstrap.Process.Listen2` | xserver.go:77-88 | one new descriptor, close-on-exec, listening on the given path |
| `Bootstrap.Process.UnsetCloseOnExec` | xserver.go:100-105 | succeeds exactly on an open descriptor and then clears its close-on-exec flag |
| `Bootstrap.Process.Close` | xserver.go:137-138 | the descriptor leaves the table, its flag and the listener map |
| `Bootstrap.ChildSide` | xserver.go:135-173 | the child closes index 0 of each pair, sets WAYLAND_SOCKET to index 1 of the Wayland pair, and execs the ten-element argv with the window-manager pair's index 1 |
| `Bootstrap.ParentSide` | xserver.go:175-178 | the parent closes index 1 of each pair and nothing else |
| `Bootstrap.CreateSockets` | xserver.go:117-132 | six new distinct descriptors; listeners bound to the filesystem and abstract paths of the number, with close-on-exec cleared; the handler and the client registry get index 0 of their pairs; nothing else in the table changes |
| `Bootstrap.Provision` | xserver.go:107-132 | least lockable display number, now held; DISPLAY set to its name; then the sockets as `Bootstrap.CreateSockets` states them |
| `Bootstrap.ChildInherits` | xserver.go:131-170 | after the six descriptors are created and the listeners' flags cleared, the child without index 0 of both pairs inherits through exec exactly what the compositor already passed on, plus index 1 of both pairs and both listeners |
| `Bootstrap.ForkChild` | xserver.go:134-173 | the forked child's exec image: the Xwayland argv, the parent's environment plus WAYLAND_SOCKET, and the parent's descriptors without index 0 of either pair and without close-on-exec ones; the parent is unchanged |
| `Bootstrap.XserverInit` | xserver.go:107-179 | the whole bootstrap: the parent keeps index 0 of both pairs and both listeners; the child, when the fork succeeds, execs Xwayland holding index 1 of both pairs and both listeners and neither index 0; the env carries DISPLAY and WAYLAND_SOCKET; a failed fork runs the parent branch only |

## Left out

- The `lockfile` library is not part of this model. `LockTable` gives, per number, only whether New fails, whether the lock is held and whether taking it fails with an I/O error. Its file contents, PID checks and its rule that a lock already held by the calling process is granted again are not modelled.
- `DisplayLock.LockTable.Lock`: the handle that New returns alongside an error comes from the library; the model returns the empty string there.
- `DisplayLock.LockTable.Lock`: each number's outcome is fixed by the table, so an error that would go away on a second attempt is not modelled. `TryLock` never tries a number twice, so this does not change its result.
- Errors of `Socket`, `Bind`, `Listen` and `Socketpair` are discarded by the code. The model lets all four succeed. A new descriptor is the least unused number; only its freshness is relied on.
- The stat-and-remove of a stale socket file in `listen` and `listen2` is filesystem I/O and is left out. `listen` itself is unused.
- `exec.LookPath`, `syscall.Exec` and the two panics after them are process replacement and are left out. The second panic reports `lookErr` instead of `execErr`; that is a quirk with no effect on the model. The child branch ends with the `Image` that exec would start with.
- Signal handling is concurrency and OS signals and is left out: `signal.Notify`, the goroutine in `initXwm` and `signal_ignore` in the child. Of `initXwm` only the descriptor the handler will pass on is modelled (`Session.xwmFd`).
- `wl_client_create` and `xwmInit` are foreign calls. Only the descriptor each receives is modelled. `println` output is left out.
- The process environment is a map. The ordered `KEY=value` list that `os.Environ` returns is not modelled.
- `Decimal.Atoi` is a reader of the model's own, used to state round trips. It accepts an optional '-' followed by digits. A leading '+' and Go's 64-bit range are not modelled.
- `Naming.Sprintf1` supports only the single `%d` verb that `LOCK_FMT` contains. A format with no verb is copied unchanged, where Go's `fmt.Sprintf` appends `%!(EXTRA int=N)` for the unused argument; `LOCK_FMT` has its verb, so `lock` never meets that case.
- Display numbers and descriptors are unbounded integers. Go's 64-bit `int` cannot be exhausted in practice, so wrap-around is not modelled.
- `DisplayLock.TryLock`: the failing numbers of a `LockTable` are finite sets, so the model cannot describe a host where every attempt fails (for example a full or read-only `/tmp`). On such a host the loop at xserver.go:41-47 never exits; the model proves termination only under finiteness.
- The foreign calls `wl_client_create` and `xwmInit` are modelled as opening no descriptors. "Nothing else new" in the parent's table (`Bootstrap.XserverInit`) holds under that assumption; a descriptor the compositor library opens for its own use (such as a duplicate of the client descriptor) is not modelled.
