/**
 * The canonical 8-4-4-4-12 text form of a UUID as `uuid.UUID.String()`
 * renders it (the version and variant digits are not constrained), and what
 * removing its dashes leaves. The random generation itself is not part of
 * this model: a UUID enters as an input string in this form.
 */
module Uuid {
  import opened Strings

  predicate IsLowerHex(c: char) {
    '0' <= c <= '9' || 'a' <= c <= 'f'
  }

  predicate IsDashPosition(i: int) {
    i == 8 || i == 13 || i == 18 || i == 23
  }

  /** 36 bytes: five groups of 8, 4, 4, 4 and 12 lower-case hex digits separated by dashes. */
  predicate IsCanonical(u: string) {
    |u| == 36 &&
    forall i :: 0 <= i < 36 ==> if IsDashPosition(i) then u[i] == '-' else IsLowerHex(u[i])
  }

  /** The 32 hex digits of a canonical UUID, group after group. */
  function Digits(u: string): (r: string)
    requires IsCanonical(u)
  {
    u[..8] + (u[9..13] + (u[14..18] + (u[19..23] + u[24..])))
  }

  /** A group of a canonical UUID holds no dash. */
  lemma GroupHasNoDash(u: string, lo: int, hi: int)
    requires IsCanonical(u)
    requires 0 <= lo <= hi <= 36
    requires forall i :: lo <= i < hi ==> !IsDashPosition(i)
    ensures '-' !in u[lo..hi]
  {
  }

  /** Dropping the dash that ends the group u[lo..hi] leaves that group followed by the rest stripped. */
  lemma StripGroup(u: string, lo: int, hi: int)
    requires IsCanonical(u)
    requires 0 <= lo <= hi < 36 && IsDashPosition(hi)
    requires forall i :: lo <= i < hi ==> !IsDashPosition(i)
    ensures Remove(u[lo..], '-') == u[lo..hi] + Remove(u[hi + 1..], '-')
  {
    GroupHasNoDash(u, lo, hi);
    assert u[lo..] == u[lo..hi] + [u[hi]] + u[hi + 1..];
    RemoveAfterRun(u[lo..hi], u[hi + 1..], '-');
  }

  /** strings.Replace(u, "-", "", -1) on a canonical UUID leaves exactly its 32 hex digits. */
  lemma StripDashes(u: string)
    requires IsCanonical(u)
    ensures Remove(u, '-') == Digits(u)
    ensures |Digits(u)| == 32
    ensures forall c :: c in Digits(u) ==> IsLowerHex(c)
  {
    GroupHasNoDash(u, 24, 36);
    RemoveAbsent(u[24..], '-');
    StripGroup(u, 19, 23);
    var t4 := u[19..23] + u[24..];
    assert Remove(u[19..], '-') == t4;
    StripGroup(u, 14, 18);
    var t3 := u[14..18] + t4;
    assert Remove(u[14..], '-') == t3;
    StripGroup(u, 9, 13);
    var t2 := u[9..13] + t3;
    assert Remove(u[9..], '-') == t2;
    StripGroup(u, 0, 8);
    assert u[0..] == u;
    assert Remove(u, '-') == u[..8] + t2;
    RemovedAreHex(u);
  }

  /** Every byte of a canonical UUID other than a dash is a hex digit. */
  lemma RemovedAreHex(u: string)
    requires IsCanonical(u)
    ensures forall c :: c in Remove(u, '-') ==> IsLowerHex(c)
  {
    forall c | c in Remove(u, '-') ensures IsLowerHex(c) {
      var i :| 0 <= i < 36 && u[i] == c;
    }
  }
}
