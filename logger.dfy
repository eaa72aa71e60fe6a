/** The sketch's global state and its procedures: the diagnostic sink, the file-slot
    allocation of `setup()`, the sampling loop of `take_reading()`, the record append of
    `save_reading_to_card()` and the seconds counter of `loop()`.

    Hardware calls are stand-ins. The SD card maps each file name to the writes made to that
    file, one `Write` per `print`/`println` call, in order; the serial port is the same kind
    of write sequence. The outcomes of `SD.begin`, `rtc.begin` and `SD.open` are boolean
    inputs, `rtc.now()` is a date-time input, and `analogRead` consumes the next code of the
    stream `adc`. */
module FakeFrog {
  import opened Timestamp
  import Naming
  import Sampling
  import Cadence
  import Record
  import opened Wrappers

  /** `VERSION` */
  const Version: string := "0.1.0"
  /** The messages `setup()` logs. `log_error` is given `Failed` on every failure path. */
  const InitSd: string := "Initializing SD card... "
  const CreatingLog: string := "Creating log file... "
  const InitRtc: string := "Initializing RTC..."
  const CreatingData: string := "Creating data file..."
  const StartedAt: string := "Data logger started at "
  const VersionIs: string := ". Software version: "
  const Done: string := "Done."
  const Failed: string := "Failed."

  /** A `File` object: `if (f)` holds exactly for `Open`. */
  datatype Handle = Closed | Open(name: string)

  /** One `print(msg)` (without newline) or `println(msg)` (with newline) call. */
  datatype Write = Printed(msg: string, withNewline: bool)

  /** The last write to a sink was `w`. */
  predicate LastWrite(writes: seq<Write>, w: Write) {
    writes != [] && writes[|writes| - 1] == w
  }

  /** What the first `log` call adds before its message: `Serial.begin` and `Serial.println()`. */
  function Begun(started: bool): seq<Write> {
    if started then [] else [Printed("", true)]
  }

  /** The writes of one checked step of `setup()`: its opening message, then `Done.` when the
      step succeeded and `Failed.` (from `log_error`) when it did not. */
  function StepWrites(opening: string, withNewline: bool, ok: bool): seq<Write> {
    [Printed(opening, withNewline), Printed(if ok then Done else Failed, true)]
  }

  /** The SD-card and log-file steps; the second runs only once the first succeeded. */
  function StorageWrites(sdBegins: bool, logOpen: bool): seq<Write> {
    StepWrites(InitSd, false, sdBegins) + (if sdBegins then StepWrites(CreatingLog, false, logOpen) else [])
  }

  /** The clock and data-file steps; the second runs only once the first succeeded. */
  function DataSetupWrites(rtcBegins: bool, dataOpen: bool): seq<Write> {
    StepWrites(InitRtc, false, rtcBegins) + (if rtcBegins then StepWrites(CreatingData, true, dataOpen) else [])
  }

  /** The closing messages of `setup()`: start time and software version. */
  function StartWrites(start: DateTime): seq<Write> {
    [Printed(StartedAt, false), Printed(Format(start), false), Printed(VersionIs, false), Printed(Version, true)]
  }

  /** Everything `setup()` logs after the `Done.` of the log-file step: the clock and
      data-file steps, then the start message once both succeeded. */
  function LoggingWrites(rtcBegins: bool, dataOpen: bool, start: DateTime): seq<Write> {
    DataSetupWrites(rtcBegins, dataOpen) + (if rtcBegins && dataOpen then StartWrites(start) else [])
  }

  /** Everything `setup()` sends over serial after `Serial.begin`, up to the step that fails. */
  function SetupTranscript(sdBegins: bool, logOpen: bool, rtcBegins: bool, dataOpen: bool, start: DateTime): seq<Write> {
    StorageWrites(sdBegins, logOpen) + (if sdBegins && logOpen then LoggingWrites(rtcBegins, dataOpen, start) else [])
  }

  /** What the log file receives during `setup()`: every message logged once it is open,
      starting with the `Done.` of its own step. */
  function LogFileWrites(rtcBegins: bool, dataOpen: bool, start: DateTime): seq<Write> {
    [Printed(Done, true)] + LoggingWrites(rtcBegins, dataOpen, start)
  }

  /** From the moment the log file opens, it receives exactly what serial receives. */
  lemma LogFileMirrorsSerial(rtcBegins: bool, dataOpen: bool, start: DateTime)
    ensures SetupTranscript(true, true, rtcBegins, dataOpen, start) ==
      StepWrites(InitSd, false, true) + [Printed(CreatingLog, false)] + LogFileWrites(rtcBegins, dataOpen, start)
  {
    var tail := LoggingWrites(rtcBegins, dataOpen, start);
    assert StorageWrites(true, true) == StepWrites(InitSd, false, true) + [Printed(CreatingLog, false)] + [Printed(Done, true)];
    assert LogFileWrites(rtcBegins, dataOpen, start) == [Printed(Done, true)] + tail;
  }

  /** The transcript ends in `Failed.` exactly when some step of `setup()` failed. */
  lemma SetupTranscriptFails(sdBegins: bool, logOpen: bool, rtcBegins: bool, dataOpen: bool, start: DateTime)
    ensures LastWrite(SetupTranscript(sdBegins, logOpen, rtcBegins, dataOpen, start), Printed(Failed, true)) <==>
      !(sdBegins && logOpen && rtcBegins && dataOpen)
  {
    var t := SetupTranscript(sdBegins, logOpen, rtcBegins, dataOpen, start);
    if sdBegins && logOpen && rtcBegins && dataOpen {
      assert t[|t| - 1] == Printed(Version, true);
      assert |Version| != |Failed|;
    }
  }

  /** How `setup()` leaves the card once the log file is open: the log file holds its
      `Done.` and everything logged after it, a data file that was opened holds only the
      header, and every file already there is untouched. */
  lemma SetupCard(c0: map<string, seq<Write>>, c: map<string, seq<Write>>, logName: string, dataFile: Handle,
                  rtcBegins: bool, start: DateTime)
    requires logName !in c0 && (dataFile.Open? ==> dataFile.name !in c0 && dataFile.name != logName)
    requires c == (var c1 := c0[logName := [Printed(Done, true)] + LoggingWrites(rtcBegins, dataFile.Open?, start)];
                   if dataFile.Open? then c1[dataFile.name := [Printed(Record.Header, true)]] else c1)
    ensures c.Keys == c0.Keys + {logName} + (if dataFile.Open? then {dataFile.name} else {})
    ensures forall f :: f in c0 ==> c[f] == c0[f]
    ensures c[logName] == LogFileWrites(rtcBegins, dataFile.Open?, start)
    ensures dataFile.Open? ==> c[dataFile.name] == [Printed(Record.Header, true)]
  {
  }

  lemma Concat3<T>(a: seq<T>, b: seq<T>, c: seq<T>)
    ensures a + b + c == a + (b + c)
  {
  }

  /** Once serial has begun, a log call adds only its own write. */
  lemma Started(s: seq<Write>, x: seq<Write>)
    ensures s + Begun(true) + x == s + x
  {
    assert s + Begun(true) == s;
  }

  /** A further log call once serial has begun extends what was sent so far by its own write. */
  lemma Appended(s: seq<Write>, sent: seq<Write>, x: seq<Write>)
    ensures s + sent + Begun(true) + x == s + (sent + x)
  {
    assert s + sent + Begun(true) == s + sent;
  }

  /** Writing a file twice leaves only the second contents. */
  lemma UpdateTwice(m: map<string, seq<Write>>, k: string, a: seq<Write>, b: seq<Write>)
    ensures m[k := a][k := b] == m[k := b]
  {
  }

  /** Updates of two different files commute. */
  lemma UpdatesCommute(m: map<string, seq<Write>>, k: string, a: seq<Write>, l: string, b: seq<Write>)
    requires k != l
    ensures m[k := a][l := b] == m[l := b][k := a]
  {
  }

  /** `name[6] = i / 100 + 32; name[7] = i / 10 + 32; name[8] = i % 10 + 32;` on a buffer that
      holds the template outside positions 6..8: the buffer then holds slot i's candidate name. */
  method WriteSlot(name: array<char>, template: string, i: nat)
    requires Naming.IsTemplate(template) && i < Naming.MaxFiles && name.Length == |template|
    requires forall k :: 0 <= k < name.Length && (k < 6 || 8 < k) ==> name[k] == template[k]
    modifies name
    ensures forall k :: 0 <= k < name.Length && (k < 6 || 8 < k) ==> name[k] == template[k]
    ensures name[..] == Naming.CandidateName(template, i)
  {
    name[6] := (i / 100 + Naming.Offset) as char;
    name[7] := (i / 10 + Naming.Offset) as char;
    name[8] := (i % 10 + Naming.Offset) as char;
    Naming.CandidateNameShape(template, i);
  }

  /** The loop of `setup()` over a name buffer initialised to the template: write slot i into
      it for i = 0, 1, ..., 999 and stop at the first name `SD.exists` does not find. */
  method FindFreeSlot(present: set<string>, template: string) returns (slot: Option<nat>, name: string)
    requires Naming.IsTemplate(template)
    ensures slot == Naming.FirstFree(present, template)
    ensures slot.Some? ==> name == Naming.CandidateName(template, slot.value) && name !in present
  {
    var buffer := new char[|template|](k requires 0 <= k < |template| => template[k]);
    var i := 0;
    while i < Naming.MaxFiles
      invariant 0 <= i <= Naming.MaxFiles
      invariant Naming.FirstFreeFrom(present, template, i) == Naming.FirstFree(present, template)
      invariant buffer.Length == |template|
      invariant forall k :: 0 <= k < buffer.Length && (k < 6 || 8 < k) ==> buffer[k] == template[k]
    {
      WriteSlot(buffer, template, i);
      if buffer[..] !in present {
        return Some(i), buffer[..];
      }
      i := i + 1;
    }
    return None, template;
  }

  class DataLogger {
    /** The SD card: each file's name and the writes made to it. */
    var card: map<string, seq<Write>>
    var logFile: Handle
    var dataFile: Handle
    /** `serial_logging_started` */
    var serialStarted: bool
    /** Everything sent over the serial port. */
    var serialOut: seq<Write>
    /** How many times `Serial.begin` ran. */
    ghost var serialBegins: nat
    /** Set by `log_error`, which never returns. */
    var halted: bool
    /** The codes `analogRead(THERMISTOR_PIN)` will return, in order. */
    var adc: seq<Sampling.Code>
    /** `latest_resistance` as the sampling loop leaves it: the sum of the samples. */
    var sampleSum: int
    /** `now` */
    var now: DateTime
    /** The text in `formatted_timestamp`. */
    var formattedTimestamp: string
    /** `timer` */
    var timer: nat
    ghost var loopCalls: nat
    ghost var readingsTaken: nat
    /** The float pipeline (resistance formula, Beta equation, `%.2f`) applied to a sample sum. */
    const temperatureText: int -> string

    /** Both open handles name files on the card, and `Serial.begin` has run once if serial
        logging has started and never otherwise. */
    ghost predicate FilesConsistent()
      reads this`logFile, this`dataFile, this`card, this`serialStarted, this`serialBegins
    {
      (logFile.Open? ==> logFile.name in card) && (dataFile.Open? ==> dataFile.name in card) &&
      serialBegins == (if serialStarted then 1 else 0)
    }

    /** The accumulator holds a sum of ten 10-bit codes, the clock reading is within the
        bounds under which its text fits the 20-byte buffer, and so does the buffer's current
        text. */
    ghost predicate ReadingConsistent()
      reads this`sampleSum, this`now, this`formattedTimestamp
    {
      0 <= sampleSum <= Sampling.NumSamples * Sampling.AdcMax &&
      Fits(now) &&
      |formattedTimestamp| < BufferSize
    }

    ghost predicate Consistent()
      reads this
    {
      FilesConsistent() && ReadingConsistent()
    }

    /** The timer is where `loopCalls` calls from 0 leave it, and `readingsTaken` counts the
        readings those calls took. */
    ghost predicate OnSchedule()
      reads this`timer, this`loopCalls, this`readingsTaken
    {
      timer == Cadence.TimerAfter(loopCalls) && readingsTaken == Cadence.ReadingsAfter(loopCalls)
    }

    ghost predicate Valid()
      reads this
    {
      Consistent() && OnSchedule()
    }

    /** The globals at power-on, with the card's files and the ADC's future codes. */
    constructor (files: map<string, seq<Write>>, codes: seq<Sampling.Code>, temperatureText: int -> string)
      ensures Valid()
      ensures card == files && adc == codes && this.temperatureText == temperatureText
      ensures logFile == Closed && dataFile == Closed && !serialStarted && serialOut == [] && !halted
      ensures timer == 0 && loopCalls == 0 && now == Epoch && formattedTimestamp == Initial
      ensures sampleSum == 0
    {
      card := files;
      logFile, dataFile := Closed, Closed;
      serialStarted, serialOut, serialBegins := false, [], 0;
      halted := false;
      adc, sampleSum := codes, 0;
      now, formattedTimestamp := Epoch, Initial;
      timer, loopCalls, readingsTaken := 0, 0, 0;
      this.temperatureText := temperatureText;
    }

    /** `log(msg, with_newline)`: serial is begun (with an empty line) on first use only; the
        message goes to serial, and to the log file only while its handle is valid. */
    method Log(msg: string, withNewline: bool)
      requires FilesConsistent()
      modifies this`serialStarted, this`serialOut, this`serialBegins, this`card
      ensures FilesConsistent()
      ensures serialStarted && serialBegins == 1
      ensures serialOut == old(serialOut) + Begun(old(serialStarted)) + [Printed(msg, withNewline)]
      ensures card == if logFile.Open?
        then old(card)[logFile.name := old(card)[logFile.name] + [Printed(msg, withNewline)]]
        else old(card)
    {
      if !serialStarted {
        serialBegins := serialBegins + 1;
        serialOut := serialOut + [Printed("", true)];
        serialStarted := true;
      }
      serialOut := serialOut + [Printed(msg, withNewline)];
      if logFile.Open? {
        card := card[logFile.name := card[logFile.name] + [Printed(msg, withNewline)]];
      }
    }

    /** `log_error(msg, with_newline)`: logs, then hangs forever. */
    method LogError(msg: string, withNewline: bool)
      requires FilesConsistent()
      modifies this`serialStarted, this`serialOut, this`serialBegins, this`card, this`halted
      ensures FilesConsistent() && halted
      ensures serialStarted && serialBegins == 1
      ensures serialOut == old(serialOut) + Begun(old(serialStarted)) + [Printed(msg, withNewline)]
      ensures LastWrite(serialOut, Printed(msg, withNewline))
      ensures card == if logFile.Open?
        then old(card)[logFile.name := old(card)[logFile.name] + [Printed(msg, withNewline)]]
        else old(card)
    {
      Log(msg, withNewline);
      halted := true;
    }

    /** The scan of `setup()` followed by its `SD.open`: the first free slot's name is opened
        when there is one; `opens` is that open's outcome. */
    method OpenFirstFree(template: string, opens: bool) returns (h: Handle)
      requires Naming.IsTemplate(template)
      modifies this`card
      ensures h.Open? <==> Naming.FirstFree(old(card).Keys, template).Some? && opens
      ensures h.Open? ==>
        h.name == Naming.CandidateName(template, Naming.FirstFree(old(card).Keys, template).value) &&
        card == old(card)[h.name := []]
      ensures h.Closed? ==> card == old(card)
    {
      var slot, name := FindFreeSlot(card.Keys, template);
      h := Closed;
      if slot.Some? && opens {
        h := Open(name);
        card := card[name := []];
      }
    }

    /** `update_formatted_timestamp()` */
    method UpdateFormattedTimestamp()
      requires ReadingConsistent()
      modifies this`formattedTimestamp
      ensures ReadingConsistent() && formattedTimestamp == Format(now)
    {
      FormatFits(now);
      formattedTimestamp := Format(now);
    }

    /** `analogRead(THERMISTOR_PIN)`: the next code of the stream. */
    method AnalogRead() returns (code: Sampling.Code)
      requires |adc| > 0
      modifies this`adc
      ensures code == old(adc)[0] && adc == old(adc)[1..]
    {
      code := adc[0];
      adc := adc[1..];
    }

    /** `take_reading()` up to the float conversion: `now = rtc.now()`, then exactly
        `NUM_SAMPLES` reads added into the accumulator. */
    method TakeReading(clock: DateTime)
      requires ReadingConsistent() && Fits(clock) && |adc| >= Sampling.NumSamples
      modifies this`now, this`adc, this`sampleSum
      ensures ReadingConsistent() && now == clock
      ensures adc == old(adc)[Sampling.NumSamples..]
      ensures sampleSum == Sampling.Sum(old(adc)[..Sampling.NumSamples])
      ensures 0 <= sampleSum <= Sampling.NumSamples * Sampling.AdcMax
    {
      now := clock;
      ghost var codes := adc;
      var sum: int := 0;
      var i := 0;
      while i < Sampling.NumSamples
        invariant ReadingConsistent() && now == clock
        invariant 0 <= i <= Sampling.NumSamples
        invariant adc == codes[i..]
        invariant sum == Sampling.Sum(codes[..i])
      {
        var code := AnalogRead();
        assert codes[..i + 1] == codes[..i] + [code];
        Sampling.SumAppend(codes[..i], code);
        sum := sum + code;
        i := i + 1;
      }
      Sampling.SumBounds(codes[..Sampling.NumSamples]);
      sampleSum := sum;
    }

    /** `save_reading_to_card()`: with a valid data handle, refresh the timestamp text and
        append one line (temperature, comma, timestamp); otherwise change nothing. */
    method SaveReadingToCard()
      requires Consistent()
      modifies this`card, this`formattedTimestamp
      ensures Consistent()
      ensures dataFile.Open? ==>
        formattedTimestamp == Format(now) &&
        card == old(card)[dataFile.name :=
          old(card)[dataFile.name] + [Printed(Record.Line(temperatureText(sampleSum), Format(now)), true)]]
      ensures dataFile.Closed? ==> card == old(card) && formattedTimestamp == old(formattedTimestamp)
    {
      if dataFile.Open? {
        UpdateFormattedTimestamp();
        var entry := Record.Line(temperatureText(sampleSum), formattedTimestamp);
        card := card[dataFile.name := card[dataFile.name] + [Printed(entry, true)]];
      }
    }

    /** The SD-card block of `setup()`: log, then Done or `log_error` on `SD.begin`'s outcome. */
    method StartSdCard(begins: bool)
      requires FilesConsistent() && logFile == Closed
      modifies this`card, this`serialStarted, this`serialOut, this`serialBegins, this`halted
      ensures FilesConsistent() && serialStarted && card == old(card)
      ensures halted == (old(halted) || !begins)
      ensures !begins ==> LastWrite(serialOut, Printed(Failed, true))
      ensures serialOut == old(serialOut) + Begun(old(serialStarted)) + StepWrites(InitSd, false, begins)
    {
      Log(InitSd, false);
      if !begins {
        LogError(Failed, true);
        return;
      }
      Log(Done, true);
    }

    /** The log-file block of `setup()`: log, scan the slots, then Done when the handle is
        valid and `log_error` otherwise. */
    method CreateLogFile(opens: bool)
      requires FilesConsistent() && logFile == Closed
      modifies this`card, this`logFile, this`serialStarted, this`serialOut, this`serialBegins, this`halted
      ensures FilesConsistent() && serialStarted
      ensures logFile.Open? <==> Naming.FirstFree(old(card).Keys, Naming.LogTemplate).Some? && opens
      ensures serialOut == old(serialOut) + Begun(old(serialStarted)) + StepWrites(CreatingLog, false, logFile.Open?)
      ensures logFile.Open? ==>
        logFile.name == Naming.CandidateName(Naming.LogTemplate, Naming.FirstFree(old(card).Keys, Naming.LogTemplate).value) &&
        logFile.name !in old(card) &&
        card == old(card)[logFile.name := [Printed(Done, true)]] && halted == old(halted)
      ensures logFile.Closed? ==>
        halted && card == old(card) && LastWrite(serialOut, Printed(Failed, true))
    {
      Log(CreatingLog, false);
      logFile := OpenFirstFree(Naming.LogTemplate, opens);
      if logFile.Open? {
        Log(Done, true);
        assert [] + [Printed(Done, true)] == [Printed(Done, true)];
        UpdateTwice(old(card), logFile.name, [], [Printed(Done, true)]);
      } else {
        LogError(Failed, true);
      }
    }

    /** The clock block of `setup()`: log, then Done or `log_error` on `rtc.begin`'s outcome. */
    method StartRtc(begins: bool)
      requires FilesConsistent() && logFile.Open?
      modifies this`card, this`serialStarted, this`serialOut, this`serialBegins, this`halted
      ensures FilesConsistent() && serialStarted
      ensures halted == (old(halted) || !begins)
      ensures !begins ==> LastWrite(serialOut, Printed(Failed, true))
      ensures serialOut == old(serialOut) + Begun(old(serialStarted)) + StepWrites(InitRtc, false, begins)
      ensures card == old(card)[logFile.name := old(card)[logFile.name] + StepWrites(InitRtc, false, begins)]
    {
      ghost var logName, w := logFile.name, old(card)[logFile.name] + [Printed(InitRtc, false)];
      Log(InitRtc, false);
      if !begins {
        LogError(Failed, true);
        UpdateTwice(old(card), logName, w, w + [Printed(Failed, true)]);
        assert w + [Printed(Failed, true)] == old(card)[logName] + StepWrites(InitRtc, false, begins);
        return;
      }
      Log(Done, true);
      UpdateTwice(old(card), logName, w, w + [Printed(Done, true)]);
      assert w + [Printed(Done, true)] == old(card)[logName] + StepWrites(InitRtc, false, begins);
    }

    /** The data-file block of `setup()`: log, scan the slots, then Done when the handle is
        valid and `log_error` otherwise. */
    method CreateDataFile(opens: bool)
      requires FilesConsistent() && logFile.Open? && dataFile == Closed
      modifies this`card, this`dataFile, this`serialStarted, this`serialOut, this`serialBegins, this`halted
      ensures FilesConsistent() && serialStarted
      ensures dataFile.Open? <==> Naming.FirstFree(old(card).Keys, Naming.DataTemplate).Some? && opens
      ensures serialOut == old(serialOut) + Begun(old(serialStarted)) + StepWrites(CreatingData, true, dataFile.Open?)
      ensures dataFile.Open? ==>
        dataFile.name == Naming.CandidateName(Naming.DataTemplate, Naming.FirstFree(old(card).Keys, Naming.DataTemplate).value) &&
        dataFile.name !in old(card) && dataFile.name != logFile.name &&
        card == old(card)
          [logFile.name := old(card)[logFile.name] + StepWrites(CreatingData, true, true)]
          [dataFile.name := []] &&
        halted == old(halted)
      ensures dataFile.Closed? ==>
        halted && LastWrite(serialOut, Printed(Failed, true)) &&
        card == old(card)[logFile.name := old(card)[logFile.name] + StepWrites(CreatingData, true, false)]
    {
      ghost var logName := logFile.name;
      ghost var w := old(card)[logName] + [Printed(CreatingData, true)];
      ghost var s0 := old(serialOut) + Begun(old(serialStarted));
      Log(CreatingData, true);
      ghost var c1, s1 := card, serialOut;
      assert c1 == old(card)[logName := w] && c1.Keys == old(card).Keys;
      dataFile := OpenFirstFree(Naming.DataTemplate, opens);
      ghost var outcome := Printed(if dataFile.Open? then Done else Failed, true);
      ghost var steps := StepWrites(CreatingData, true, dataFile.Open?);
      assert [Printed(CreatingData, true)] + [outcome] == steps;
      Concat3(old(card)[logName], [Printed(CreatingData, true)], [outcome]);
      Concat3(s0, [Printed(CreatingData, true)], [outcome]);
      Started(s1, [outcome]);
      assert w + [outcome] == old(card)[logName] + steps;
      if dataFile.Closed? {
        LogError(Failed, true);
        assert serialOut == s1 + [outcome];
        UpdateTwice(old(card), logName, w, w + [outcome]);
        return;
      }
      ghost var dataName := dataFile.name;
      assert dataName != logName;
      Log(Done, true);
      assert card == c1[dataName := []][logName := w + [outcome]];
      UpdatesCommute(c1, dataName, [], logName, w + [outcome]);
      UpdateTwice(old(card), logName, w, w + [outcome]);
    }

    /** `data_file.println("Timestamp,Temperature")`: the header names the timestamp column
        first, although each record puts the temperature first. */
    method WriteHeader()
      requires FilesConsistent() && dataFile.Open?
      modifies this`card
      ensures FilesConsistent()
      ensures card == old(card)[dataFile.name := old(card)[dataFile.name] + [Printed(Record.Header, true)]]
    {
      card := card[dataFile.name := card[dataFile.name] + [Printed(Record.Header, true)]];
    }

    /** The last lines of `setup()`: read the clock, refresh the timestamp text and log the
        start message with the software version. */
    method LogStart(start: DateTime)
      requires Consistent() && logFile.Open? && Fits(start)
      modifies this`card, this`serialStarted, this`serialOut, this`serialBegins, this`now, this`formattedTimestamp
      ensures Consistent() && serialStarted
      ensures now == start && formattedTimestamp == Format(start)
      ensures serialOut == old(serialOut) + Begun(old(serialStarted)) + StartWrites(start)
      ensures card == old(card)[logFile.name := old(card)[logFile.name] + StartWrites(start)]
    {
      now := start;
      UpdateFormattedTimestamp();
      LogStartMessage();
    }

    /** The four `log` calls that end `setup()`: the start message, the timestamp text and the
        software version, each to serial and to the open log file. */
    method LogStartMessage()
      requires FilesConsistent() && logFile.Open? && formattedTimestamp == Format(now)
      modifies this`card, this`serialStarted, this`serialOut, this`serialBegins
      ensures FilesConsistent() && serialStarted
      ensures serialOut == old(serialOut) + Begun(old(serialStarted)) + StartWrites(now)
      ensures card == old(card)[logFile.name := old(card)[logFile.name] + StartWrites(now)]
    {
      ghost var s0, logName, w := old(serialOut) + Begun(old(serialStarted)), logFile.name, old(card)[logFile.name];
      ghost var m1, m2 := [Printed(StartedAt, false)], [Printed(Format(now), false)];
      ghost var m3, m4 := [Printed(VersionIs, false)], [Printed(Version, true)];
      Log(StartedAt, false);
      Log(formattedTimestamp, false);
      Appended(s0, m1, m2);
      UpdateTwice(old(card), logName, w + m1, w + m1 + m2);
      Log(VersionIs, false);
      Appended(s0, m1 + m2, m3);
      UpdateTwice(old(card), logName, w + m1 + m2, w + m1 + m2 + m3);
      Log(Version, true);
      Appended(s0, m1 + m2 + m3, m4);
      UpdateTwice(old(card), logName, w + m1 + m2 + m3, w + m1 + m2 + m3 + m4);
      assert m1 + m2 + m3 + m4 == StartWrites(now);
      assert w + m1 + m2 + m3 + m4 == w + StartWrites(now);
    }

    /** The first half of `setup()`: start the SD card and create the log file. */
    method SetupStorage(sdBegins: bool, logOpens: bool)
      requires FilesConsistent() && logFile == Closed
      modifies this`card, this`logFile, this`serialStarted, this`serialOut, this`serialBegins, this`halted
      ensures FilesConsistent() && serialStarted
      ensures logFile.Open? <==>
        sdBegins && Naming.FirstFree(old(card).Keys, Naming.LogTemplate).Some? && logOpens
      ensures serialOut == old(serialOut) + Begun(old(serialStarted)) + StorageWrites(sdBegins, logFile.Open?)
      ensures logFile.Open? ==>
        logFile.name == Naming.CandidateName(Naming.LogTemplate, Naming.FirstFree(old(card).Keys, Naming.LogTemplate).value) &&
        logFile.name !in old(card) &&
        card == old(card)[logFile.name := [Printed(Done, true)]] && halted == old(halted)
      ensures logFile.Closed? ==>
        halted && card == old(card) && LastWrite(serialOut, Printed(Failed, true))
    {
      StartSdCard(sdBegins);
      if !sdBegins {
        return;
      }
      CreateLogFile(logOpens);
    }

    /** The data-file part of `setup()`, once the log file is open: start the clock, create
        the data file and print its header. */
    method SetupData(rtcBegins: bool, dataOpens: bool)
      requires FilesConsistent() && logFile.Open? && dataFile == Closed
      modifies this`card, this`dataFile, this`serialStarted, this`serialOut, this`serialBegins, this`halted
      ensures FilesConsistent() && serialStarted
      ensures dataFile.Open? <==>
        rtcBegins && Naming.FirstFree(old(card).Keys, Naming.DataTemplate).Some? && dataOpens
      ensures halted == (old(halted) || dataFile.Closed?)
      ensures serialOut == old(serialOut) + Begun(old(serialStarted)) + DataSetupWrites(rtcBegins, dataFile.Open?)
      ensures dataFile.Open? ==>
        dataFile.name == Naming.CandidateName(Naming.DataTemplate, Naming.FirstFree(old(card).Keys, Naming.DataTemplate).value) &&
        dataFile.name !in old(card) && dataFile.name != logFile.name &&
        card == old(card)[logFile.name := old(card)[logFile.name] + DataSetupWrites(true, true)]
          [dataFile.name := [Printed(Record.Header, true)]]
      ensures dataFile.Closed? ==>
        LastWrite(serialOut, Printed(Failed, true)) &&
        card == old(card)[logFile.name := old(card)[logFile.name] + DataSetupWrites(rtcBegins, false)]
    {
      ghost var s0 := old(serialOut) + Begun(old(serialStarted));
      StartRtc(rtcBegins);
      if !rtcBegins {
        assert DataSetupWrites(rtcBegins, false) == StepWrites(InitRtc, false, rtcBegins);
        return;
      }
      ghost var logName := logFile.name;
      ghost var w1 := old(card)[logName] + StepWrites(InitRtc, false, true);
      assert card.Keys == old(card).Keys;
      ghost var s1 := serialOut;
      CreateDataFile(dataOpens);
      ghost var dataWrites := StepWrites(CreatingData, true, dataFile.Open?);
      Started(s1, dataWrites);
      Concat3(s0, StepWrites(InitRtc, false, true), dataWrites);
      Concat3(old(card)[logName], StepWrites(InitRtc, false, true), dataWrites);
      ghost var w2 := w1 + dataWrites;
      UpdateTwice(old(card), logName, w1, w2);
      if dataFile.Closed? {
        return;
      }
      ghost var dataName := dataFile.name;
      WriteHeader();
      assert [] + [Printed(Record.Header, true)] == [Printed(Record.Header, true)];
      UpdateTwice(old(card)[logName := w2], dataName, [], [Printed(Record.Header, true)]);
    }

    /** The rest of `setup()` once the log file is open: start the clock, create the data
        file and print its header, then log the start time. */
    method FinishSetup(rtcBegins: bool, dataOpens: bool, start: DateTime)
      requires FilesConsistent() && ReadingConsistent() && logFile.Open? && dataFile == Closed && Fits(start)
      modifies this`card, this`dataFile, this`serialStarted, this`serialOut, this`serialBegins, this`halted,
        this`now, this`formattedTimestamp
      ensures FilesConsistent() && ReadingConsistent() && serialStarted
      ensures dataFile.Open? <==>
        rtcBegins && Naming.FirstFree(old(card).Keys, Naming.DataTemplate).Some? && dataOpens
      ensures halted == (old(halted) || dataFile.Closed?)
      ensures serialOut == old(serialOut) + Begun(old(serialStarted)) + LoggingWrites(rtcBegins, dataFile.Open?, start)
      ensures dataFile.Open? ==>
        dataFile.name == Naming.CandidateName(Naming.DataTemplate, Naming.FirstFree(old(card).Keys, Naming.DataTemplate).value) &&
        dataFile.name !in old(card) && dataFile.name != logFile.name &&
        card == old(card)[logFile.name := old(card)[logFile.name] + LoggingWrites(true, true, start)]
          [dataFile.name := [Printed(Record.Header, true)]] &&
        now == start && formattedTimestamp == Format(start)
      ensures dataFile.Closed? ==>
        LastWrite(serialOut, Printed(Failed, true)) &&
        card == old(card)[logFile.name := old(card)[logFile.name] + LoggingWrites(rtcBegins, false, start)] &&
        now == old(now) && formattedTimestamp == old(formattedTimestamp)
    {
      ghost var s0 := old(serialOut) + Begun(old(serialStarted));
      SetupData(rtcBegins, dataOpens);
      ghost var dataSteps := DataSetupWrites(rtcBegins, dataFile.Open?);
      if dataFile.Closed? {
        assert dataSteps + [] == dataSteps;
        assert LoggingWrites(rtcBegins, false, start) == dataSteps;
        return;
      }
      ghost var c2, logName, dataName := card, logFile.name, dataFile.name;
      ghost var w := old(card)[logName];
      LogStart(start);
      Appended(s0, dataSteps, StartWrites(start));
      Concat3(w, dataSteps, StartWrites(start));
      UpdatesCommute(old(card)[logName := w + dataSteps], dataName, [Printed(Record.Header, true)],
        logName, w + dataSteps + StartWrites(start));
      UpdateTwice(old(card), logName, w + dataSteps, w + dataSteps + StartWrites(start));
    }

    /** `setup()`: start the SD card, create the log file in the first free slot, start the
        clock, create the data file in the first free slot and print the column header, then
        log the start time. Every failure ends in `log_error("Failed.")`. The outcomes of
        `SD.begin`, `rtc.begin` and the two `SD.open` calls are inputs, and so is the clock
        reading `start`. The timer fields are outside the frame, so a logger that was `Valid()`
        before is still `Valid()` afterwards. */
    method Setup(sdBegins: bool, logOpens: bool, rtcBegins: bool, dataOpens: bool, start: DateTime)
      requires FilesConsistent() && ReadingConsistent() && !halted && logFile == Closed && dataFile == Closed && Fits(start)
      modifies this`card, this`logFile, this`dataFile, this`serialStarted, this`serialOut,
        this`serialBegins, this`halted, this`now, this`formattedTimestamp
      ensures FilesConsistent() && ReadingConsistent() && serialStarted
      ensures logFile.Open? <==>
        sdBegins && Naming.FirstFree(old(card).Keys, Naming.LogTemplate).Some? && logOpens
      ensures logFile.Open? ==>
        logFile.name == Naming.CandidateName(Naming.LogTemplate, Naming.FirstFree(old(card).Keys, Naming.LogTemplate).value) &&
        logFile.name !in old(card)
      ensures dataFile.Open? <==>
        logFile.Open? && rtcBegins && Naming.FirstFree(old(card).Keys, Naming.DataTemplate).Some? && dataOpens
      ensures dataFile.Open? ==>
        dataFile.name == Naming.CandidateName(Naming.DataTemplate, Naming.FirstFree(old(card).Keys, Naming.DataTemplate).value) &&
        dataFile.name !in old(card)
      ensures halted <==> dataFile.Closed?
      ensures halted ==> LastWrite(serialOut, Printed(Failed, true))
      ensures halted ==> now == old(now) && formattedTimestamp == old(formattedTimestamp)
      ensures serialOut == old(serialOut) + Begun(old(serialStarted)) +
        SetupTranscript(sdBegins, logFile.Open?, rtcBegins, dataFile.Open?, start)
      ensures logFile.Open? ==> card[logFile.name] == LogFileWrites(rtcBegins, dataFile.Open?, start)
      ensures card.Keys == old(card).Keys + (if logFile.Open? then {logFile.name} else {}) +
        (if dataFile.Open? then {dataFile.name} else {})
      ensures forall f :: f in old(card) ==> card[f] == old(card)[f]
      ensures dataFile.Open? ==>
        card[dataFile.name] == [Printed(Record.Header, true)] &&
        now == start && formattedTimestamp == Format(start)
    {
      ghost var c0, s0 := card, old(serialOut) + Begun(old(serialStarted));
      SetupStorage(sdBegins, logOpens);
      if logFile.Closed? {
        assert SetupTranscript(sdBegins, false, rtcBegins, false, start) == StorageWrites(sdBegins, false);
        return;
      }
      ghost var logName := logFile.name;
      Naming.DataSlotIgnoresLogFile(c0.Keys, Naming.FirstFree(c0.Keys, Naming.LogTemplate).value);
      assert card.Keys == c0.Keys + {logName};
      FinishSetup(rtcBegins, dataOpens, start);
      ghost var logging := LoggingWrites(rtcBegins, dataFile.Open?, start);
      Appended(s0, StorageWrites(true, true), logging);
      UpdateTwice(c0, logName, [Printed(Done, true)], [Printed(Done, true)] + logging);
      SetupCard(c0, card, logName, dataFile, rtcBegins, start);
    }

    /** One `loop()` call. When the timer has reached `READING_INTERVAL` it is reset and a
        reading is taken and saved; then the timer is incremented. */
    method Loop(clock: DateTime)
      requires Valid() && !halted && Fits(clock)
      requires Cadence.Fires(timer) ==> |adc| >= Sampling.NumSamples
      modifies this`timer, this`loopCalls, this`readingsTaken, this`now, this`adc, this`sampleSum,
        this`card, this`formattedTimestamp
      ensures Valid() && loopCalls == old(loopCalls) + 1
      ensures timer <= Cadence.ReadingInterval
      ensures Cadence.Fires(old(timer)) ==>
        timer == 1 && readingsTaken == old(readingsTaken) + 1 &&
        now == clock && adc == old(adc)[Sampling.NumSamples..] &&
        sampleSum == Sampling.Sum(old(adc)[..Sampling.NumSamples]) &&
        (dataFile.Open? ==>
          formattedTimestamp == Format(clock) &&
          card == old(card)[dataFile.name :=
            old(card)[dataFile.name] + [Printed(Record.Line(temperatureText(sampleSum), Format(clock)), true)]]) &&
        (dataFile.Closed? ==> card == old(card) && formattedTimestamp == old(formattedTimestamp))
      ensures !Cadence.Fires(old(timer)) ==>
        timer == old(timer) + 1 && readingsTaken == old(readingsTaken) &&
        now == old(now) && adc == old(adc) && sampleSum == old(sampleSum) && card == old(card) &&
        formattedTimestamp == old(formattedTimestamp)
    {
      Cadence.TimerNeverWraps(loopCalls);
      Cadence.TickInRange(timer);
      if timer == Cadence.ReadingInterval {
        timer := 0;
        TakeReading(clock);
        SaveReadingToCard();
        readingsTaken := readingsTaken + 1;
      }
      timer := Cadence.Increment(timer);
      loopCalls := loopCalls + 1;
    }
  }
}
