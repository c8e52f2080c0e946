/** Bytes, optional values, and writing into a file at a position. */
module Prelude {

  datatype Option<+T> = None | Some(value: T)

  newtype byte = x: int | 0 <= x < 256
  type Bytes = seq<byte>

  function Min(a: nat, b: nat): nat {
    if a < b then a else b
  }

  function Zeros(n: nat): (z: Bytes)
    ensures |z| == n
  {
    seq(n, _ => 0 as byte)
  }

  /** The bytes `p` are what `s` holds from position `at` on. */
  predicate SliceAt(s: Bytes, at: nat, p: Bytes) {
    at + |p| <= |s| && s[at..at + |p|] == p
  }

  /** `c` after writing `p` at position `at`; a gap beyond the end reads as zeros. */
  function WriteAt(c: Bytes, at: nat, p: Bytes): Bytes {
    if at <= |c| then
      c[..at] + p + (if at + |p| < |c| then c[at + |p|..] else [])
    else
      c + Zeros(at - |c|) + p
  }

  /** `c` filled up with zeros to length `n`, if it is shorter. */
  function Padded(c: Bytes, n: nat): Bytes {
    if n <= |c| then c else c + Zeros(n - |c|)
  }

  /** Writing a piece of `s` where it belongs, without a gap, keeps a prefix of `s` a prefix of `s`. */
  lemma PlainWrite(s: Bytes, c: Bytes, at: nat, p: Bytes)
    requires c <= s && at <= |c| && SliceAt(s, at, p)
    ensures c <= WriteAt(c, at, p) <= s
    ensures |WriteAt(c, at, p)| == if at + |p| < |c| then |c| else at + |p|
  {
    var r := WriteAt(c, at, p);
    assert forall i | 0 <= i < |p| :: p[i] == s[at..at + |p|][i];
    forall i | 0 <= i < |r| ensures r[i] == s[i] {
      if i < at {
      } else if i < at + |p| {
        assert r[i] == p[i - at];
      } else {
        assert r[i] == c[i];
      }
    }
    assert r == s[..|r|];
    assert c == r[..|c|];
  }

  /** The same when a gap is left over zeros of `s`. */
  lemma WriteKeepsPrefix(s: Bytes, c: Bytes, at: nat, p: Bytes)
    requires Padded(c, at) <= s && SliceAt(s, at, p)
    ensures c <= WriteAt(c, at, p) <= s
    ensures |WriteAt(c, at, p)| == if at + |p| < |c| then |c| else at + |p|
  {
    var d := Padded(c, at);
    assert c <= d;
    PlainWrite(s, d, at, p);
    assert WriteAt(c, at, p) == WriteAt(d, at, p);
  }

  /** What fits behind a prefix still fits when the prefix gets longer. */
  lemma PaddedGrows(s: Bytes, c: Bytes, d: Bytes, at: nat)
    requires c <= d <= s && Padded(c, at) <= s
    ensures Padded(d, at) <= s
  {
    if |d| < at {
      assert Padded(d, at) == Padded(c, at);
    }
  }

  lemma SliceGrows(s: Bytes, t: Bytes, at: nat, p: Bytes)
    requires s <= t && SliceAt(s, at, p)
    ensures SliceAt(t, at, p)
  {
    assert t[at..at + |p|] == s[at..at + |p|];
  }
}
