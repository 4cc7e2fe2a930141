/**
 * The two Go string primitives the settings code relies on, on strings whose
 * characters each stand for one byte (Go's `len` counts bytes):
 * `strings.Replace(s, old, new, -1)` for single-byte `old`, with a single-byte
 * or an empty `new`, and the slice expression `s[lo:hi]` with its bounds check.
 */
module Strings {
  import opened Wrappers

  /** strings.Replace(s, [from], [to], -1): every byte equal to `from` becomes `to`. */
  function Replace(s: string, from: char, to: char): (r: string)
    ensures |r| == |s|
    ensures forall i :: 0 <= i < |s| ==> r[i] == if s[i] == from then to else s[i]
  {
    if s == [] then [] else [if s[0] == from then to else s[0]] + Replace(s[1..], from, to)
  }

  /** strings.Replace(s, [c], "", -1): every byte equal to `c` is dropped, the others keep their order. */
  function Remove(s: string, c: char): (r: string)
    ensures |r| <= |s|
    ensures forall x :: x in r <==> x in s && x != c
  {
    if s == [] then [] else (if s[0] == c then [] else [s[0]]) + Remove(s[1..], c)
  }

  /** Removal works piecewise: it distributes over concatenation. */
  lemma {:induction false} RemoveAppend(a: string, b: string, c: char)
    ensures Remove(a + b, c) == Remove(a, c) + Remove(b, c)
  {
    if a == [] {
      assert a + b == b;
    } else {
      assert (a + b)[0] == a[0];
      assert (a + b)[1..] == a[1..] + b;
      RemoveAppend(a[1..], b, c);
    }
  }

  /** A string without the byte is left as it is. */
  lemma {:induction false} RemoveAbsent(s: string, c: char)
    requires c !in s
    ensures Remove(s, c) == s
  {
    if s != [] {
      assert c !in s[1..] by {
        forall x | x in s[1..] ensures x in s { }
      }
      RemoveAbsent(s[1..], c);
      assert [s[0]] + s[1..] == s;
    }
  }

  /** Removing a separator byte that follows a run without it keeps that run and goes on with the rest. */
  lemma RemoveAfterRun(a: string, b: string, c: char)
    requires c !in a
    ensures Remove(a + [c] + b, c) == a + Remove(b, c)
  {
    var cb := [c] + b;
    assert cb[0] == c && cb[1..] == b;
    assert Remove(cb, c) == Remove(b, c);
    RemoveAppend(a, cb, c);
    RemoveAbsent(a, c);
    assert a + [c] + b == a + cb;
  }

  /** The slice expression s[lo:hi]: the bytes lo..hi when 0 <= lo <= hi <= len(s), a run-time panic otherwise. */
  function Slice(s: string, lo: int, hi: int): (r: Option<string>)
  {
    if 0 <= lo <= hi <= |s| then Some(s[lo..hi]) else None
  }
}
