/** `search_and_replace`: the in-place rewrite of one byte value into another over the
    first `l` bytes of a buffer. */
module SearchReplace {
  import opened Bytes

  /** The buffer `s` after its first `l` bytes have been scanned: every byte equal to
      `from` becomes `to`. The buffer must hold at least `l` bytes; a count of zero or
      less leaves it as it is. */
  function SearchAndReplace(s: seq<byte>, l: int, from: byte, to: byte): (r: seq<byte>)
    requires l <= |s|
    ensures |r| == |s|
    ensures forall i :: 0 <= i < |s| ==> r[i] == (if i < l && s[i] == from then to else s[i])
    decreases l
  {
    if l <= 0 then s
    else [if s[0] == from then to else s[0]] + SearchAndReplace(s[1..], l - 1, from, to)
  }

  /** The pointer loop of the C code: `p` walks the buffer while the count `n` runs
      down, and each byte equal to `from` is overwritten with `to` as it is passed. */
  method SearchAndReplaceLoop(s: seq<byte>, l: int, from: byte, to: byte) returns (buf: seq<byte>)
    requires l <= |s|
    ensures buf == SearchAndReplace(s, l, from, to)
  {
    buf := s;
    var p := 0;
    var n := l;
    while n > 0
      invariant p + n == l
      invariant 0 <= p <= |s| && |buf| == |s|
      invariant l > 0 ==> n >= 0
      invariant l <= 0 ==> p == 0
      invariant forall i :: 0 <= i < |s| ==> buf[i] == (if i < p && s[i] == from then to else s[i])
    {
      var c := buf[p];
      p, n := p + 1, n - 1;
      if from == c {
        buf := buf[p - 1 := to];
      }
    }
    ghost var want := SearchAndReplace(s, l, from, to);
    assert forall i :: 0 <= i < |s| ==> buf[i] == want[i];
  }

  /** A second rewrite with the same pair of bytes changes nothing. */
  lemma RewriteIdempotent(s: seq<byte>, l: int, from: byte, to: byte)
    requires l <= |s|
    ensures SearchAndReplace(SearchAndReplace(s, l, from, to), l, from, to)
         == SearchAndReplace(s, l, from, to)
  {
  }
}
