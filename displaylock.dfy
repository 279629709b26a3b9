/** Display-number allocation: `lock` tries to take the lock file of one
    number and `TryLock` searches 0, 1, 2, ... for the first number it can
    take. The host's lock files are an abstract table. */
module DisplayLock {
  import opened Decimal
  import opened Naming
  import opened Numbering

  /** Why one attempt failed: lockfile.New refused the path, another holder
      has the lock, or the lock file could not be read or written. */
  datatype LockError = NewFailed | Busy | IoFailure

  /** The host's display lock files. `held` are the numbers whose lock is
      taken by some process; `newFailures` and `ioFailures` are the numbers for
      which the lock library reports an error from New or from TryLock. */
  class LockTable {
    var held: set<int>
    const newFailures: set<int>
    const ioFailures: set<int>

    constructor (held: set<int>, newFailures: set<int>, ioFailures: set<int>)
      ensures this.held == held
      ensures this.newFailures == newFailures && this.ioFailures == ioFailures
    {
      this.held := held;
      this.newFailures := newFailures;
      this.ioFailures := ioFailures;
    }

    /** The numbers whose lock attempt fails, for whatever reason. */
    function Blocked(): set<int>
      reads this
    {
      held + newFailures + ioFailures
    }

    /** `lock(num)`: create the lock-file handle for LockPath(num), then try
        to take it. Either step's error is returned as it is. */
    method Lock(num: int) returns (lf: string, err: Option<LockError>)
      modifies this
      ensures err.None? <==> num !in old(Blocked())
      ensures num in newFailures ==> err == Some(NewFailed) && lf == ""
      ensures num !in newFailures ==> lf == LockPath(num)
      ensures num !in newFailures && num in old(held) ==> err == Some(Busy)
      ensures num !in newFailures && num !in old(held) && num in ioFailures ==> err == Some(IoFailure)
      ensures held == if err.None? then old(held) + {num} else old(held)
    {
      var fileName := LockPath(num);
      if num in newFailures {
        return "", Some(NewFailed);
      }
      lf := fileName;
      if num in held {
        return lf, Some(Busy);
      }
      if num in ioFailures {
        return lf, Some(IoFailure);
      }
      held := held + {num};
      err := None;
    }
  }

  /** `TryLock`: the first number from 0 upwards whose attempt succeeds. Every
      failed attempt, whatever its error, moves on to the next number and is
      never reported. */
  method TryLock(t: LockTable) returns (n: nat, lf: string)
    modifies t
    ensures n !in old(t.Blocked())
    ensures forall j :: 0 <= j < n ==> j in old(t.Blocked())
    ensures n == LeastFree(old(t.Blocked()))
    ensures t.held == old(t.held) + {n}
    ensures lf == LockPath(n)
  {
    var i: nat := 0;
    // the blocked numbers not tried yet; it shrinks with every failure
    ghost var untried := set j | j in t.Blocked() && j >= 0;
    while true
      invariant t.held == old(t.held)
      invariant forall j :: 0 <= j < i ==> j in t.Blocked()
      invariant untried <= t.Blocked()
      invariant forall j :: j in t.Blocked() && j >= i ==> j in untried
      invariant forall j :: j in untried ==> j >= i
      decreases |untried|
    {
      var lockFile, err := t.Lock(i);
      if err.None? {
        LeastFreeUnique(old(t.Blocked()), i);
        return i, lockFile;
      }
      untried := untried - {i};
      i := i + 1;
    }
  }

  /** Two sessions started one after the other on the same host, by two
      different processes, get different display numbers, the later one the
      larger. (The lock library grants a lock again to the process that
      already holds it, so a second search from the same process is not
      covered.) */
  method TwoSessions(t: LockTable) returns (first: nat, second: nat)
    modifies t
    ensures first == LeastFree(old(t.Blocked()))
    ensures first < second
    ensures t.held == old(t.held) + {first, second}
  {
    var lockFile;
    first, lockFile := TryLock(t);
    second, lockFile := TryLock(t);
    LeastFreeAfterTaking(old(t.Blocked()));
  }
}
