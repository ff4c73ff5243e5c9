/** Text helpers shared by the buffer, the HTTP code and the connection registry:
    the forward search of `std::search` and the decimal printer of `std::to_string`.
    A `char` stands for one byte. */
module Strings {

  datatype Option<+T> = None | Some(value: T)

  predicate OccursAt(s: string, p: string, i: nat) {
    i + |p| <= |s| && s[i..i + |p|] == p
  }

  ghost predicate Contains(s: string, p: string) {
    exists i: nat :: OccursAt(s, p, i)
  }

  /** `std::search` from position i: the first match, or |s| when there is none. */
  function FindFrom(s: string, p: string, i: nat): (k: nat)
    requires i <= |s|
    ensures i <= k <= |s|
    ensures k < |s| ==> OccursAt(s, p, k)
    ensures forall j: nat :: i <= j < k ==> !OccursAt(s, p, j)
    decreases |s| - i
  {
    if i == |s| || OccursAt(s, p, i) then i else FindFrom(s, p, i + 1)
  }

  /** The empty text occurs everywhere, but at the end of `s` a match is no different from none. */
  function Find(s: string, p: string): (k: nat)
    ensures k <= |s|
    ensures k < |s| <==> Contains(s, p) && s != ""
    ensures k < |s| ==> OccursAt(s, p, k)
    ensures forall j: nat :: j < k ==> !OccursAt(s, p, j)
  {
    FindFrom(s, p, 0)
  }

  /** A delimiter that cannot overlap a shifted copy of itself. */
  predicate Borderless(p: string) {
    |p| == 1 || (|p| == 2 && p[0] != p[1])
  }

  /** The first match is the delimiter that was printed, whatever follows it. */
  lemma FindPrinted(a: string, p: string, rest: string)
    requires Borderless(p) && !Contains(a, p)
    ensures Find(a + p + rest, p) == |a|
  {
    var s := a + p + rest;
    assert OccursAt(s, p, |a|);
    forall j: nat | j < |a|
      ensures !OccursAt(s, p, j)
    {
      if j + |p| <= |a| {
        assert s[j..j + |p|] == a[j..j + |p|];
        assert !OccursAt(a, p, j);
      } else {
        assert s[j..j + 2][1] == s[|a|] == p[0];
      }
    }
  }

  /** Text cut off before its first match contains no match. */
  lemma PrefixBeforeMatch(s: string, p: string, k: nat)
    requires p != "" && k <= Find(s, p)
    ensures !Contains(s[..k], p)
  {
    forall i: nat
      ensures !OccursAt(s[..k], p, i)
    {
      if i + |p| <= k {
        assert s[..k][i..i + |p|] == s[i..i + |p|];
        assert !OccursAt(s, p, i);
      }
    }
  }

  /** A part of a text without a match has no match. */
  lemma PartHasNone(s: string, p: string, i: nat, j: nat)
    requires i <= j <= |s| && !Contains(s, p)
    ensures !Contains(s[i..j], p)
  {
    forall k: nat
      ensures !OccursAt(s[i..j], p, k)
    {
      if k + |p| <= j - i {
        var u, w := s[i..j][k..k + |p|], s[i + k..i + k + |p|];
        assert forall x :: 0 <= x < |p| ==> u[x] == w[x];
        assert u == w;
        assert !OccursAt(s, p, i + k);
      }
    }
  }

  lemma FirstCharMissing(s: string, p: string)
    requires p != "" && p[0] !in s
    ensures !Contains(s, p)
  {
  }

  // Decimal numbers

  function Digit(d: nat): (c: char)
    requires d < 10
    ensures c as int == '0' as int + d
  {
    "0123456789"[d]
  }

  function DigitValue(c: char): nat {
    if '0' <= c <= '9' then (c - '0') as nat else 0
  }

  predicate IsDigit(c: char) { '0' <= c <= '9' }

  /** `std::to_string`: digits only, without a leading zero. */
  function ToDecimal(n: nat): (s: string)
    ensures s != "" && forall c :: c in s ==> IsDigit(c)
    ensures s[0] == '0' <==> n == 0
    ensures n == 0 ==> s == "0"
  {
    if n < 10 then [Digit(n)] else ToDecimal(n / 10) + [Digit(n % 10)]
  }

  function FromDecimal(s: string): nat {
    if s == "" then 0 else FromDecimal(s[..|s| - 1]) * 10 + DigitValue(s[|s| - 1])
  }

  lemma {:induction false} DecimalRoundTrip(n: nat)
    ensures FromDecimal(ToDecimal(n)) == n
  {
    var s := ToDecimal(n);
    if n < 10 {
      assert s[..0] == "";
      assert FromDecimal(s) == FromDecimal("") * 10 + DigitValue(s[0]);
    } else {
      assert s[..|s| - 1] == ToDecimal(n / 10);
      DecimalRoundTrip(n / 10);
    }
  }
}
