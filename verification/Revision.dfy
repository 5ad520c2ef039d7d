/** The canonical decimal form of a `u64` snapshot revision and its two parsers: the
    Rust command boundary and the TypeScript frontend. */
module Revision {
  import opened CoreNotifications

  predicate IsDigit(c: char) { '0' <= c <= '9' }

  predicate AllDigits(s: string) {
    forall i :: 0 <= i < |s| ==> IsDigit(s[i])
  }

  /** The number a run of decimal digits denotes. */
  function Value(s: string): nat
    requires AllDigits(s)
  {
    if s == "" then 0 else Value(s[..|s| - 1]) * 10 + (s[|s| - 1] as int - '0' as int)
  }

  function DigitChar(d: nat): (c: char)
    requires d < 10
    ensures IsDigit(c) && c as int - '0' as int == d
  {
    ('0' as int + d) as char
  }

  /** Decimal printing of a revision, as the desktop DTO does it. */
  function Print(n: nat): (s: string)
    ensures s != "" && AllDigits(s)
  {
    if n < 10 then [DigitChar(n)] else Print(n / 10) + [DigitChar(n % 10)]
  }

  /** `parse_snapshot_revision` of the Rust host commands. */
  function ParseRust(s: string): Option<u64> {
    if s == "" || (|s| > 1 && s[0] == '0') || !AllDigits(s) then None
    else if Value(s) <= U64_MAX then Some(Value(s))
    else None
  }

  /** The pattern `^(0|[1-9]\d*)$`. */
  predicate MatchesDecimalRevision(s: string) {
    s == "0" || (s != "" && '1' <= s[0] <= '9' && forall i :: 1 <= i < |s| ==> IsDigit(s[i]))
  }

  /** `parseSnapshotRevision` of the frontend core slice. */
  function ParseTs(s: string): Option<u64> {
    if !MatchesDecimalRevision(s) || |s| > 20 then None
    else if Value(s) <= U64_MAX then Some(Value(s))
    else None
  }

  function Pow10(k: nat): nat { if k == 0 then 1 else 10 * Pow10(k - 1) }

  lemma {:induction false} LeadingDigitBound(s: string)
    requires s != "" && AllDigits(s) && s[0] != '0'
    ensures Value(s) >= Pow10(|s| - 1)
  {
    if |s| == 1 {
      assert s[..0] == "";
    } else {
      LeadingDigitBound(s[..|s| - 1]);
    }
  }

  lemma {:induction false} Pow10Monotone(j: nat, k: nat)
    requires j <= k
    ensures Pow10(j) <= Pow10(k)
  {
    if j < k { Pow10Monotone(j, k - 1); }
  }

  lemma TwentyDigits()
    ensures Pow10(20) > U64_MAX
  {
    assert Pow10(5) == 100_000;
    assert Pow10(10) == 10_000_000_000;
    assert Pow10(15) == 1_000_000_000_000_000;
  }

  /** No canonical decimal of more than 20 digits fits in a `u64`. */
  lemma LongCanonicalTooBig(s: string)
    requires MatchesDecimalRevision(s) && |s| > 20
    ensures Value(s) > U64_MAX
  {
    LeadingDigitBound(s);
    Pow10Monotone(20, |s| - 1);
    TwentyDigits();
  }

  /** The two parsers accept the same strings with the same value. */
  lemma ParsersAgree(s: string)
    ensures ParseRust(s) == ParseTs(s)
  {
    if MatchesDecimalRevision(s) && |s| > 20 { LongCanonicalTooBig(s); }
  }

  lemma {:induction false} ValueOfPrint(n: nat)
    ensures Value(Print(n)) == n && MatchesDecimalRevision(Print(n))
    ensures n > 0 ==> Print(n)[0] != '0'
  {
    if n >= 10 {
      ValueOfPrint(n / 10);
      var front, last := Print(n / 10), DigitChar(n % 10);
      assert (front + [last])[..|front|] == front;
    } else {
      assert [DigitChar(n)][..0] == "";
    }
  }

  lemma {:induction false} PrintOfValue(s: string)
    requires MatchesDecimalRevision(s)
    ensures Print(Value(s)) == s
  {
    if |s| == 1 {
      assert s[..0] == "" && s == [s[0]];
    } else {
      var front := s[..|s| - 1];
      PrintOfValue(front);
      LeadingDigitBound(front);
      Pow10Monotone(0, |front| - 1);
      assert Value(s) / 10 == Value(front);
      assert s == front + [s[|s| - 1]];
    }
  }

  /** Printing then parsing gives the revision back, and a string parses only if it is
      the printed form of the result. */
  lemma ParseInvertsPrint(s: string, n: u64)
    ensures ParseTs(Print(n)) == Some(n) && ParseRust(Print(n)) == Some(n)
    ensures ParseTs(s) == Some(n) <==> s == Print(n)
  {
    ValueOfPrint(n);
    if |Print(n)| > 20 { LongCanonicalTooBig(Print(n)); }
    ParsersAgree(Print(n));
    if ParseTs(s) == Some(n) { PrintOfValue(s); }
  }
}
