/** The lines `setup()` and `save_reading_to_card()` write to the data file. */
module Record {
  import opened Wrappers
  import Timestamp

  /** The column header printed once into a fresh data file. */
  const Header: string := "Timestamp,Temperature"

  /** `sprintf(buf, "%.2f,%s", temperature, formatted_timestamp)`: temperature text first,
      then a comma, then the timestamp. */
  function Line(temperature: string, stamp: string): (r: string)
    ensures |r| == |temperature| + 1 + |stamp| && r[|temperature|] == ','
  {
    temperature + "," + stamp
  }

  /** The text after the last comma of a line (all of it when there is none). */
  function LastField(s: string): (r: string)
    ensures ',' !in r && |r| <= |s| && r == s[|s| - |r|..]
  {
    if s == [] || s[|s| - 1] == ',' then []
    else
      var r := LastField(s[..|s| - 1]) + [s[|s| - 1]];
      assert s[..|s| - 1][|s| - |r|..] + [s[|s| - 1]] == s[|s| - |r|..];
      r
  }

  lemma {:induction false} LastFieldOfLine(temperature: string, stamp: string)
    requires ',' !in stamp
    ensures LastField(Line(temperature, stamp)) == stamp
    decreases |stamp|
  {
    var s := Line(temperature, stamp);
    if stamp != [] {
      var last := stamp[|stamp| - 1];
      assert s[|s| - 1] == last;
      assert s[..|s| - 1] == Line(temperature, stamp[..|stamp| - 1]);
      LastFieldOfLine(temperature, stamp[..|stamp| - 1]);
    }
  }

  /** Whatever the temperature text is, the date-time of a data line is recovered from the
      text after its last comma: the timestamp is the line's last column. */
  lemma LineTimestamp(temperature: string, d: Timestamp.DateTime)
    ensures Timestamp.Parse(LastField(Line(temperature, Timestamp.Format(d)))) == Some(d)
  {
    Timestamp.FormatAlphabet(d);
    Timestamp.ParseFormat(d);
    LastFieldOfLine(temperature, Timestamp.Format(d));
  }
}
