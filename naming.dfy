/** The names derived from a display number: the lock file, the DISPLAY
    value and the two listening-socket addresses. */
module Naming {
  import opened Decimal

  /** Template of the per-display lock file (LOCK_FMT). */
  const LockFmt: string := "/tmp/.X%d-lock"

  /** Prefix of the filesystem listening socket (SOCKET_FMT). */
  const SocketFmt: string := "/tmp/.X11-unix/X"

  /** fmt.Sprintf for a format with one `%d` verb, given the argument
      already rendered: the first "%d" is replaced, every other character is
      copied. */
  function Sprintf1(format: string, arg: string): (r: string)
    ensures (forall k :: 0 <= k < |format| ==> format[k] != '%') ==> r == format
  {
    if |format| < 2 then format
    else if format[0] == '%' && format[1] == 'd' then arg + format[2..]
    else [format[0]] + Sprintf1(format[1..], arg)
  }

  /** A format whose text before the verb has no '%' gets the argument at
      that spot and keeps the text on both sides unchanged. */
  lemma {:induction false} Sprintf1Substitutes(pre: string, post: string, arg: string)
    requires forall k :: 0 <= k < |pre| ==> pre[k] != '%'
    ensures Sprintf1(pre + "%d" + post, arg) == pre + arg + post
    decreases |pre|
  {
    var f := pre + "%d" + post;
    if pre == [] {
      assert f == "%d" + post;
      assert f[2..] == post;
    } else {
      assert f[1..] == pre[1..] + "%d" + post;
      Sprintf1Substitutes(pre[1..], post, arg);
      assert [pre[0]] + (pre[1..] + arg + post) == pre + arg + post;
    }
  }

  /** The lock-file path of display `num` (fmt.Sprintf(LOCK_FMT, num)). */
  function LockPath(num: int): (p: string)
    ensures p == "/tmp/.X" + Itoa(num) + "-lock"
  {
    assert LockFmt == "/tmp/.X" + "%d" + "-lock";
    Sprintf1Substitutes("/tmp/.X", "-lock", Itoa(num));
    Sprintf1(LockFmt, Itoa(num))
  }

  /** The DISPLAY value of display `num`: ':' followed by a string that
      reads back as `num`; for a display number, that string is its
      canonical digits (no leading zero). */
  function DisplayName(num: int): (d: string)
    ensures |d| >= 2 && d[0] == ':'
    ensures Atoi(d[1..]) == Some(num)
    ensures num >= 0 ==> AllDigits(d[1..]) && (d[1] == '0' ==> d == ":0")
  {
    var d := ":" + Itoa(num);
    assert d[1..] == Itoa(num);
    AtoiItoa(num);
    d
  }

  /** The filesystem listening-socket path of display `num`: SOCKET_FMT
      followed by a string that reads back as `num`; for a display number,
      that string is its canonical digits (no leading zero). */
  function SocketPath(num: int): (p: string)
    ensures |p| > |SocketFmt| && p[..|SocketFmt|] == SocketFmt
    ensures Atoi(p[|SocketFmt|..]) == Some(num)
    ensures num >= 0 ==>
              AllDigits(p[|SocketFmt|..]) && (p[|SocketFmt|] == '0' ==> p == SocketFmt + "0")
  {
    var p := SocketFmt + Itoa(num);
    assert p[|SocketFmt|..] == Itoa(num);
    AtoiItoa(num);
    p
  }

  /** The abstract-namespace listening-socket address of display `num`
      (Go's SockaddrUnix maps the leading '@' to the abstract namespace):
      '@' followed by exactly the filesystem path. */
  function AbstractSocketPath(num: int): (p: string)
    ensures |p| >= 1 && p[0] == '@'
    ensures p[1..] == SocketPath(num)
  {
    var p := "@" + SocketFmt + Itoa(num);
    assert p[1..] == SocketFmt + Itoa(num);
    p
  }

  /** The DISPLAY value, the socket path and the lock path of one display
      carry the very same digits, as the source reuses one rendering. */
  lemma NamesShareDigits(num: int)
    ensures SocketPath(num) == SocketFmt + DisplayName(num)[1..]
    ensures LockPath(num) == "/tmp/.X" + DisplayName(num)[1..] + "-lock"
  {
  }

  /** What is left of `s` once a known prefix and suffix are stripped. */
  lemma StripAffixes(pre: string, a: string, b: string, post: string)
    requires pre + a + post == pre + b + post
    ensures a == b
  {
    var s := pre + a + post;
    assert a == s[|pre|..|s| - |post|];
    assert b == (pre + b + post)[|pre|..|s| - |post|];
  }

  /** Distinct display numbers never share a lock file. */
  lemma LockPathInjective(a: int, b: int)
    ensures LockPath(a) == LockPath(b) ==> a == b
  {
    if LockPath(a) == LockPath(b) {
      StripAffixes("/tmp/.X", Itoa(a), Itoa(b), "-lock");
      ItoaInjective(a, b);
    }
  }

  /** Distinct display numbers never share a DISPLAY value or a socket
      address: each name reads back as its number, by the contracts above. */
  lemma NamesInjective(a: int, b: int)
    ensures DisplayName(a) == DisplayName(b) ==> a == b
    ensures SocketPath(a) == SocketPath(b) ==> a == b
    ensures AbstractSocketPath(a) == AbstractSocketPath(b) ==> a == b
  {
  }

  /** No filesystem socket path equals any abstract address, so the two
      listeners of one display never collide, nor do those of two displays. */
  lemma SocketAddressesDisjoint(a: int, b: int)
    ensures SocketPath(a) != AbstractSocketPath(b)
  {
  }
}
