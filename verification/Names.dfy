/**
 File names of the pending directory. Segments are stored as `<meeting>_<uuid>.json`/`.wav`
 and `/leave` markers as `finalizing/<meeting>`, so the completion test of the drainer is a
 test on strings: it compares `str(meeting_id)` with what precedes the first underscore.
 */
module Names {

  predicate IsDigit(c: char) { '0' <= c <= '9' }

  predicate AllDigits(s: string) { forall i | 0 <= i < |s| :: IsDigit(s[i]) }

  /** Python's `str.isdigit()`, restricted to ASCII. */
  predicate IsNumeral(s: string) { s != "" && AllDigits(s) }

  function DigitChar(d: nat): char
    requires d < 10
  {
    d as char + '0'
  }

  /** Python's `str(n)` for a non-negative integer. */
  function Decimal(n: nat): string {
    if n < 10 then [DigitChar(n)] else Decimal(n / 10) + [DigitChar(n % 10)]
  }

  /** Python's `int(s)` for an ASCII numeral. */
  function ParseNumeral(s: string): nat
    requires AllDigits(s)
  {
    if s == "" then 0
    else ParseNumeral(s[..|s| - 1]) * 10 + (s[|s| - 1] as int - '0' as int)
  }

  lemma {:induction false} DecimalRoundTrip(n: nat)
    ensures IsNumeral(Decimal(n)) && ParseNumeral(Decimal(n)) == n
  {
    if n >= 10 {
      DecimalRoundTrip(n / 10);
      var s := Decimal(n);
      assert s[..|s| - 1] == Decimal(n / 10);
    }
  }

  /** Names as they are on disk. */
  lemma KnownNames()
    ensures Decimal(0) == "0" && Decimal(1205) == "1205"
    ensures SidecarName(1205, "3f_a") == "1205_3f_a.json"
  {
    assert Decimal(12) == "12" && Decimal(120) == "120" && Decimal(1205) == "1205";
  }

  lemma DecimalInjective(m: nat, n: nat)
    ensures Decimal(m) == Decimal(n) <==> m == n
  {
    DecimalRoundTrip(m);
    DecimalRoundTrip(n);
  }

  /** Name of a sidecar, `f"{meeting_id}_{uuid}"` with the suffix `.json`. */
  function SidecarName(meeting: nat, uuid: string): string {
    Decimal(meeting) + "_" + uuid + ".json"
  }

  /** Python's `s.split("_", 1)[0]`. */
  function BeforeUnderscore(s: string): string {
    if s == "" || s[0] == '_' then "" else [s[0]] + BeforeUnderscore(s[1..])
  }

  lemma {:induction false} BeforeUnderscoreOfNumeral(digits: string, rest: string)
    requires AllDigits(digits)
    ensures BeforeUnderscore(digits + "_" + rest) == digits
  {
    var s := digits + "_" + rest;
    if digits == "" {
      assert s[0] == '_';
    } else {
      assert s[1..] == digits[1..] + "_" + rest;
      BeforeUnderscoreOfNumeral(digits[1..], rest);
    }
  }

  /** The name round trip behind the completion test: the prefix of a sidecar identifies its meeting,
      whatever the uuid is made of. */
  lemma PrefixIdentifiesMeeting(meeting: nat, uuid: string, m: nat)
    ensures BeforeUnderscore(SidecarName(meeting, uuid)) == Decimal(m) <==> meeting == m
  {
    DecimalRoundTrip(meeting);
    assert SidecarName(meeting, uuid) == Decimal(meeting) + "_" + (uuid + ".json");
    BeforeUnderscoreOfNumeral(Decimal(meeting), uuid + ".json");
    DecimalInjective(meeting, m);
  }

  lemma {:induction false} MinExists(s: set<nat>)
    requires s != {}
    ensures exists m :: m in s && forall x :: x in s ==> m <= x
  {
    var m :| m in s;
    if exists x :: x in s && x < m {
      var t := set x | x in s && x < m;
      var y :| y in s && y < m;
      assert y in t && m !in t && t < s;
      MinExists(t);
      var k :| k in t && forall x :: x in t ==> k <= x;
      assert forall x :: x in s ==> x in t || m <= x;
      assert k in s && forall x :: x in s ==> k <= x;
    }
  }

  /** Python's `sorted` on a set of integers. */
  function Ascending(s: set<nat>): seq<nat> {
    if s == {} then []
    else
      MinExists(s);
      var m :| m in s && forall x :: x in s ==> m <= x;
      [m] + Ascending(s - {m})
  }

  /** A sequence lists a set in ascending order. */
  ghost predicate Lists(r: seq<nat>, s: set<nat>) {
    && (forall x :: x in r <==> x in s)
    && (forall i, j :: 0 <= i < j < |r| ==> r[i] < r[j])
  }

  lemma LeastFirst(m: nat, rest: seq<nat>, s: set<nat>)
    requires m in s && (forall x :: x in s ==> m <= x) && Lists(rest, s - {m})
    ensures Lists([m] + rest, s)
  {
    forall i | 0 <= i < |rest| ensures m < rest[i] {
      assert rest[i] in rest;
    }
    forall x ensures x in [m] + rest <==> x in s {
      assert x in [m] + rest <==> x == m || x in rest;
    }
  }

  lemma {:induction false} AscendingSorts(s: set<nat>)
    ensures Lists(Ascending(s), s)
  {
    if s != {} {
      MinExists(s);
      var m :| m in s && (forall x :: x in s ==> m <= x) && Ascending(s) == [m] + Ascending(s - {m});
      AscendingSorts(s - {m});
      LeastFirst(m, Ascending(s - {m}), s);
    }
  }

  /** `finalizing_meetings`: the marker names that are numerals, as integers, ascending. */
  function FinalizingMeetings(names: set<string>): seq<nat> {
    Ascending(set name | name in names && IsNumeral(name) :: ParseNumeral(name))
  }

  /** The names of the markers touched for a set of meetings. */
  function MarkerNames(marks: set<nat>): set<string> {
    set m | m in marks :: Decimal(m)
  }

  /** Writing markers and listing them back yields exactly the marked ids, once each, in ascending order. */
  lemma FinalizingRoundTrip(marks: set<nat>)
    ensures var ids := FinalizingMeetings(MarkerNames(marks));
      && (forall m :: m in ids <==> m in marks)
      && (forall i, j :: 0 <= i < j < |ids| ==> ids[i] < ids[j])
  {
    var names := MarkerNames(marks);
    var parsed := set name | name in names && IsNumeral(name) :: ParseNumeral(name);
    forall m | m in marks
      ensures m in parsed
    {
      DecimalRoundTrip(m);
      assert Decimal(m) in names;
    }
    forall m | m in parsed
      ensures m in marks
    {
      var name :| name in names && IsNumeral(name) && ParseNumeral(name) == m;
      var k :| k in marks && Decimal(k) == name;
      DecimalRoundTrip(k);
    }
    assert parsed == marks;
    AscendingSorts(marks);
  }
}
