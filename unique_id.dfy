/**
 * Expense identifiers. An id is the text `<now>-<counter>-<suffix>`: the
 * clock reading in milliseconds, the process-wide counter after its
 * increment, and a random base-36 fragment. The clock and the fragment are
 * arbitrary inputs here, so every uniqueness fact below rests on the
 * counter alone: the counter can be read back from the id.
 */
module UniqueId {

  predicate IsDigit(c: char) {
    '0' <= c <= '9'
  }

  /** The character of one decimal digit. */
  function DigitChar(d: nat): (c: char)
    requires d < 10
    ensures IsDigit(c)
  {
    ('0' as int + d) as char
  }

  /** The base-10 text of a natural number, as a template literal renders it. */
  function Decimal(n: nat): (r: string)
    ensures |r| > 0
    ensures forall i :: 0 <= i < |r| ==> IsDigit(r[i])
    ensures n < 10 <==> |r| == 1
    ensures '-' !in r
    decreases n
  {
    if n < 10 then [DigitChar(n)] else Decimal(n / 10) + [DigitChar(n % 10)]
  }

  /** Distinct numbers have distinct decimal texts. */
  lemma {:induction false} DecimalInjective(a: nat, b: nat)
    requires Decimal(a) == Decimal(b)
    ensures a == b
  {
    if a >= 10 {
      var da, db := Decimal(a), Decimal(b);
      assert da[..|da| - 1] == Decimal(a / 10);
      assert db[..|db| - 1] == Decimal(b / 10);
      DecimalInjective(a / 10, b / 10);
      assert DigitChar(a % 10) == da[|da| - 1] == db[|db| - 1] == DigitChar(b % 10);
    }
  }

  /** The text before the first dash (all of it when there is none). */
  function UpToDash(s: string): (r: string)
    ensures r <= s && '-' !in r
  {
    if s == [] || s[0] == '-' then [] else [s[0]] + UpToDash(s[1..])
  }

  /** The text after the first dash (nothing when there is none). */
  function PastDash(s: string): (r: string)
    ensures '-' in s ==> s == UpToDash(s) + "-" + r
    ensures '-' !in s ==> r == []
  {
    if s == [] then []
    else if s[0] == '-' then s[1..]
    else
      assert '-' in s ==> '-' in s[1..];
      PastDash(s[1..])
  }

  /** Splitting at the first dash undoes a join around a dash-free head. */
  lemma {:induction false} SplitAtFirstDash(a: string, b: string)
    requires '-' !in a
    ensures UpToDash(a + "-" + b) == a
    ensures PastDash(a + "-" + b) == b
  {
    if a != [] {
      assert (a + "-" + b)[1..] == a[1..] + "-" + b;
      SplitAtFirstDash(a[1..], b);
    }
  }

  /** The id text minted from a clock reading, a counter value and a random fragment. */
  function GeneratedId(now: nat, counter: nat, suffix: string): (r: string)
    ensures UpToDash(r) == Decimal(now)
    ensures |r| >= |suffix| && r[|r| - |suffix|..] == suffix
  {
    var rest := Decimal(counter) + "-" + suffix;
    assert Decimal(now) + "-" + Decimal(counter) + "-" + suffix == Decimal(now) + "-" + rest;
    SplitAtFirstDash(Decimal(now), rest);
    Decimal(now) + "-" + Decimal(counter) + "-" + suffix
  }

  /** The second dash-separated field of an id. */
  function CounterField(id: string): string {
    UpToDash(PastDash(id))
  }

  /** The counter can be read back from every generated id, whatever the clock and fragment. */
  lemma CounterOfGeneratedId(now: nat, counter: nat, suffix: string)
    ensures CounterField(GeneratedId(now, counter, suffix)) == Decimal(counter)
  {
    var rest := Decimal(counter) + "-" + suffix;
    assert GeneratedId(now, counter, suffix) == Decimal(now) + "-" + rest;
    SplitAtFirstDash(Decimal(now), rest);
    SplitAtFirstDash(Decimal(counter), suffix);
  }

  /** Two ids minted with different counter values differ, even in the same millisecond
      and with the same random fragment. */
  lemma GeneratedIdsDiffer(now1: nat, c1: nat, suffix1: string, now2: nat, c2: nat, suffix2: string)
    requires c1 != c2
    ensures GeneratedId(now1, c1, suffix1) != GeneratedId(now2, c2, suffix2)
  {
    CounterOfGeneratedId(now1, c1, suffix1);
    CounterOfGeneratedId(now2, c2, suffix2);
    if GeneratedId(now1, c1, suffix1) == GeneratedId(now2, c2, suffix2) {
      DecimalInjective(c1, c2);
    }
  }

  /** The ids issued so far: the i-th one carries counter value i + 1. */
  ghost predicate IssuedInOrder(issued: seq<string>) {
    forall i :: 0 <= i < |issued| ==> CounterField(issued[i]) == Decimal(i + 1)
  }

  /** Ids issued by successive increments are pairwise distinct. */
  lemma IssuedIdsDistinct(issued: seq<string>)
    requires IssuedInOrder(issued)
    ensures forall i, j :: 0 <= i < j < |issued| ==> issued[i] != issued[j]
  {
    forall i, j | 0 <= i < j < |issued|
      ensures issued[i] != issued[j]
    {
      if issued[i] == issued[j] {
        DecimalInjective(i + 1, j + 1);
      }
    }
  }
}
