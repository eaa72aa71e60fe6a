/** The real-time clock's date-time snapshot and the text the sketch keeps in its
    20-byte `formatted_timestamp` buffer. */
module Timestamp {
  import opened Wrappers
  import opened Decimal

  /** What `rtc.now()` returns, one field per accessor the sketch prints. */
  datatype DateTime = DateTime(year: nat, month: nat, day: nat, hour: nat, minute: nat, second: nat)

  /** `DateTime now;` before the first `rtc.now()`: a placeholder. The sketch never reads `now`
      before `rtc.now()` assigns it, so the value is not observable. */
  const Epoch := DateTime(2000, 1, 1, 0, 0, 0)

  /** Size of `char formatted_timestamp[]`, including the terminating NUL. */
  const BufferSize := 20

  /** The buffer's text before the first update. */
  const Initial: string := "0000-00-00T00:00:00"

  /** The separators of the format "%u-%u-%uT%u:%u:%u", in order. */
  const Separators: string := "--T::"

  /** A year of at most four digits and five fields of at most two digits each: the bound
      under which the text fits the 20-byte buffer (FormatFits). It admits every calendar
      date and time of day, and out-of-range fields up to 99 as well. */
  predicate Fits(d: DateTime) {
    d.year < 10000 && d.month < 100 && d.day < 100 &&
    d.hour < 100 && d.minute < 100 && d.second < 100
  }

  function Fields(d: DateTime): (f: seq<nat>)
    ensures |f| == |Separators| + 1
  {
    [d.year, d.month, d.day, d.hour, d.minute, d.second]
  }

  /** `sprintf(buf, "%u-%u-%uT%u:%u:%u", year, month, day, hour, minute, second)`. */
  function Format(d: DateTime): (r: string)
    ensures |r| >= 11
  {
    Text(d.year) + "-" + Text(d.month) + "-" + Text(d.day) + "T" +
    Text(d.hour) + ":" + Text(d.minute) + ":" + Text(d.second)
  }

  /** Decimal fields joined by the given separators. */
  function Joined(fields: seq<nat>, seps: string): (r: string)
    requires |fields| == |seps| + 1
    decreases |seps|
  {
    if seps == [] then Text(fields[0])
    else Text(fields[0]) + [seps[0]] + Joined(fields[1..], seps[1..])
  }

  /** Length of the longest all-digit prefix of s. */
  function DigitRun(s: string): (n: nat)
    ensures n <= |s| && AllDigits(s[..n])
    ensures n < |s| ==> !IsDigit(s[n])
  {
    if s == [] || !IsDigit(s[0]) then 0
    else
      var n := 1 + DigitRun(s[1..]);
      assert s[..n] == [s[0]] + s[1..][..n - 1];
      n
  }

  /** Reads non-empty digit runs separated by exactly `seps`, up to the end of s. */
  function ParseFields(s: string, seps: string): (r: Option<seq<nat>>)
    ensures r.Some? ==> |r.value| == |seps| + 1
    decreases |seps|
  {
    var n := DigitRun(s);
    if n == 0 then None
    else if seps == [] then (if n == |s| then Some([Value(s[..n])]) else None)
    else if n < |s| && s[n] == seps[0] then
      match ParseFields(s[n + 1..], seps[1..])
      case None => None
      case Some(rest) => Some([Value(s[..n])] + rest)
    else None
  }

  /** Reads a timestamp back from the buffer's text. */
  function Parse(s: string): Option<DateTime> {
    match ParseFields(s, Separators)
    case None => None
    case Some(f) => Some(DateTime(f[0], f[1], f[2], f[3], f[4], f[5]))
  }

  lemma {:induction false} DigitRunOfDigits(a: string, b: string)
    requires AllDigits(a)
    requires b == [] || !IsDigit(b[0])
    ensures DigitRun(a + b) == |a|
  {
    if a != [] {
      assert (a + b)[1..] == a[1..] + b;
      DigitRunOfDigits(a[1..], b);
    }
  }

  lemma {:induction false} ParseJoined(fields: seq<nat>, seps: string)
    requires |fields| == |seps| + 1
    requires forall k :: 0 <= k < |seps| ==> !IsDigit(seps[k])
    ensures ParseFields(Joined(fields, seps), seps) == Some(fields)
  {
    var t := Text(fields[0]);
    ValueOfText(fields[0]);
    if seps == [] {
      DigitRunOfDigits(t, []);
      assert t + [] == t;
      assert Joined(fields, seps) == t;
      assert t[..|t|] == t;
      assert fields == [fields[0]];
    } else {
      var rest := Joined(fields[1..], seps[1..]);
      var s := t + ([seps[0]] + rest);
      assert Joined(fields, seps) == s;
      DigitRunOfDigits(t, [seps[0]] + rest);
      assert s[..|t|] == t;
      assert s[|t| + 1..] == rest;
      ParseJoined(fields[1..], seps[1..]);
      assert [fields[0]] + fields[1..] == fields;
    }
  }

  lemma FormatIsJoined(d: DateTime)
    ensures Format(d) == Joined(Fields(d), Separators)
  {
    var f := Fields(d);
    assert f[1..][1..][1..][1..][1..] == [d.second];
    assert Separators[1..][1..][1..][1..][1..] == [];
  }

  /** The timestamp text determines the date-time it was printed from: each of the six
      fields is recovered, in the order year, month, day, hour, minute, second. */
  lemma ParseFormat(d: DateTime)
    ensures Parse(Format(d)) == Some(d)
  {
    FormatIsJoined(d);
    ParseJoined(Fields(d), Separators);
  }

  /** Within those bounds the text is at most 19 characters, so it and its NUL fit the
      buffer. */
  lemma FormatFits(d: DateTime)
    requires Fits(d)
    ensures |Format(d)| < BufferSize
  {
    assert Pow10(2) == 100 && Pow10(4) == 10000;
    TextLength(d.year, 4);
    TextLength(d.month, 2);
    TextLength(d.day, 2);
    TextLength(d.hour, 2);
    TextLength(d.minute, 2);
    TextLength(d.second, 2);
  }

  /** The text holds only digits and the separators "-", "T" and ":" (in particular no comma). */
  lemma FormatAlphabet(d: DateTime)
    ensures forall k :: 0 <= k < |Format(d)| ==> IsDigit(Format(d)[k]) || Format(d)[k] in Separators
  {
    var s := Format(d);
    forall k | 0 <= k < |s|
      ensures IsDigit(s[k]) || s[k] in Separators
    {
      assert s[k] in multiset(s);
    }
  }
}
