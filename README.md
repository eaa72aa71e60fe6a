# Fake Frog temperature logger: a Dafny model

Fake Frog is an Arduino sketch (`src/main.cpp`) for a single-thermistor temperature
logger. At power-on, `setup()` does the following:
- starts the SD card;
- creates a log file in the first free slot of the name template `log_000.txt`;
- starts the real-time clock;
- creates a data file in the first free slot of the name template `data_000.csv` and prints a CSV header into it;
- logs the start time and the software version.

Any failure along the way goes through `log_error`, which logs "Failed." and hangs forever.
After that, `loop()` runs once per second. A `uint8_t timer` counts the calls. When it
reaches `READING_INTERVAL` (60), the timer is reset, ten ADC samples are summed into the
reading, and one line of temperature and timestamp is appended to the data file.

The model keeps the sketch's imperative form. The class `FakeFrog.DataLogger` holds the
sketch's globals as fields:
- the SD card, as a map from file name to the writes made to that file;
- the log and data `File` handles;
- `serial_logging_started` and the serial output;
- the ADC stream, the sample accumulator, `now`, `formatted_timestamp` and `timer`.

Each procedure of the sketch is a method with a `modifies` frame:
- `log`, `log_error`, `take_reading` and `save_reading_to_card`;
- the blocks of `setup()`, and `setup()` itself;
- `loop()`.

The file-name scan keeps its loop, which rewrites three characters of a name buffer in
place for each slot. The ten-sample read keeps its counting loop and its integer
accumulator. Each method is proved against pure specification functions in the modules
below, and those functions have their own lemmas.

| module | what it holds |
|---|---|
| `Decimal` | `%u` text of a natural number and its inverse |
| `Timestamp` | the `%u-%u-%uT%u:%u:%u` text of a date-time, a parser for it, and the 20-byte bound |
| `Naming` | candidate file names exactly as the sketch writes them, and the "first free slot" specification |
| `Cadence` | the `uint8_t` timer of `loop()`: closed forms for the timer and for the number of readings |
| `Sampling` | integer sum of the ADC codes and its bound |
| `Record` | the data-file header and record line, and reading the timestamp back from a line |
| `FakeFrog` | the `DataLogger` class: the sketch's globals and procedures |

Hardware is replaced by stand-ins:
- The outcomes of `SD.begin`, `rtc.begin` and each `SD.open` are boolean inputs.
- `rtc.now()` is a date-time input.
- `SD.exists` is membership in the card's key set.
- `analogRead` consumes the next code of the field `adc`.
- Every `print`/`println` call is one element of a write sequence. The element records
  the message and whether the call was `println`.
- `log_error`'s endless loop is the flag `halted`. `Setup` returns as soon as it is set.
  `Loop` requires it clear, because `loop()` never runs after `setup()` hangs.

### Notes on the code as written

- **File names.** The comments at src/main.cpp:224 and :257 say that 32 is added "to get
  ASCII number characters", and the templates `log_000.txt` and `data_000.csv` suggest
  zero-padded three-digit names. The code writes the character codes `i/100 + 32`,
  `i/10 + 32` and `i%10 + 32`:
  - 32 is the code of a space, not of `'0'`.
  - The middle term `i/10` is not reduced mod 10.
  - The three characters go at positions 6, 7 and 8.

  In `log_000.txt` those positions are the last zero, the dot and the `t`. Slot 0 therefore
  becomes `log_00   xt`, and slot 123 of `data_000.csv` becomes `data_0!,#csv`
  (`Naming.AsWrittenNames`). The model follows the code. An existing file is still never
  reused: the scan opens only a name that `SD.exists` does not find on the card
  (`FakeFrog.FindFreeSlot`, `FakeFrog.DataLogger.OpenFirstFree`). The 1000 slots give 1000
  different names (`Naming.CandidateNamesDistinct`), so there are 1000 candidates per template.
- **Record layout.** The header reads `Timestamp,Temperature`, but each record prints the
  temperature first and the timestamp second (`Record.Line`).
- **Scheduling.** The timer counts `loop()` calls, each followed by `delay(1000)`. There is
  no drift correction: the time spent taking and saving a reading is not accounted for.
- **Sensor.** There is one thermistor, read on one analog pin.
- **Header placement.** The header is printed once, right after the data file is created.

## Model

| member | source | states |
|---|---|---|
| Decimal.Text | src/main.cpp:158-159 | `%u` text is non-empty, all digits, and starts with '0' only for zero (no padding) |
| Decimal.ValueOfText | src/main.cpp:158-159 | reading the printed digits back gives the number printed |
| Decimal.TextInjective | src/main.cpp:158-159 | different numbers print different texts |
| Decimal.TextLength | src/main.cpp:158-159 | a number below 10^k prints in at most k characters |
| Timestamp.Format | src/main.cpp:158-159 | the `%u-%u-%uT%u:%u:%u` text: the six fields in `%u` text joined by `-`, `-`, `T`, `:`, `:` (`Timestamp.FormatIsJoined`); six fields of at least one digit and five separators make at least 11 characters |
| Timestamp.FormatIsJoined | src/main.cpp:157-160 | the timestamp is year, month, day, hour, minute, second in unpadded decimal joined by `-`, `-`, `T`, `:`, `:` in that order |
| Timestamp.ParseFormat | src/main.cpp:157-160 | the timestamp text determines its date-time: parsing it back returns every field |
| Timestamp.FormatFits | src/main.cpp:77 | for a year below 10000 and every other field below 100 (`Timestamp.Fits`) the text is at most 19 characters, so it fits the 20-byte buffer with its NUL |
| Timestamp.FormatAlphabet | src/main.cpp:158 | the timestamp holds only digits, `-`, `T` and `:`, so no comma |
| Naming.SlotChars | src/main.cpp:225-227 | read as tens and units, the last two of the three slot characters give back i: the unreduced `i/10` code carries the hundreds along with the tens |
| Naming.CandidateName | src/main.cpp:220-227 | a candidate name keeps the template's length; what it holds is stated by `Naming.SlotOfCandidate` and `Naming.CandidateNameShape` |
| Naming.CandidateNameShape | src/main.cpp:253-260 | a candidate name equals the template outside positions 6, 7 and 8, which hold the codes i/100 + 32, i/10 + 32 and i%10 + 32 |
| Naming.SlotOfCandidate | src/main.cpp:225-227 | the slot index can be read back from positions 7 and 8 of its name |
| Naming.CandidateNamesDistinct | src/main.cpp:221-227 | distinct slots give distinct names |
| Naming.LogAndDataNamesDiffer | src/main.cpp:253 | log names have length 11, data names length 12, so no log name is a data name |
| Naming.AsWrittenNames | src/main.cpp:220-227 | slot 0 of `log_000.txt` is `log_00   xt`; slot 123 of `data_000.csv` is `data_0!,#csv` |
| Naming.FirstFreeFrom | src/main.cpp:221-233 | a scan from i that finds a slot finds one in i..999 whose name is not on the card |
| Naming.FirstFree | src/main.cpp:254-266 | a slot found by the scan is below 1000 and its name is not on the card |
| Naming.FirstFreeFromSpec | src/main.cpp:229-232 | the scan from i stops at the first absent name at or after i, after seeing only present names, or finds nothing when all are present |
| Naming.FirstFreeIsLeast | src/main.cpp:221-233 | the scan picks slot k exactly when k < 1000, name k is absent and every lower slot's name is present |
| Naming.FirstFreeNone | src/main.cpp:262-271 | the scan finds nothing exactly when all 1000 candidate names exist |
| Naming.FirstFreeFromIgnores | src/main.cpp:262-263 | adding a name that is no candidate of the template does not move the scan's result |
| Naming.DataSlotIgnoresLogFile | src/main.cpp:229-230 | creating the log file does not change which data-file slot is chosen |
| Cadence.Increment | src/main.cpp:300 | `timer++` on a `uint8_t` stays below 256 and gives 0 exactly from 255 |
| Cadence.Tick | src/main.cpp:294-300 | the timer after one `loop()` call stays a `uint8_t` value, and a call that finds it at 60 leaves it at 1 |
| Cadence.TimerAfter | src/main.cpp:91 | the timer after n calls from 0 is a `uint8_t` value |
| Cadence.TickInRange | src/main.cpp:294-300 | from a timer in 0..60, a call leaves 1 when the timer was 60 and the timer plus one otherwise, never above 60 |
| Cadence.TimerAfterFirstInterval | src/main.cpp:294-300 | over the first 60 calls the timer equals the number of calls |
| Cadence.TimerAfterLater | src/main.cpp:294-300 | after call 61 the timer cycles through 1..60: after n calls it is (n-1) mod 60 + 1 |
| Cadence.TimerAfterClosedForm | src/main.cpp:294-300 | timer after n calls is n for n ≤ 60 and (n-1) mod 60 + 1 after that |
| Cadence.TimerNeverWraps | src/main.cpp:91 | at the start of every call the timer is in 0..60, so the `uint8_t` never wraps |
| Cadence.FiresAtCall | src/main.cpp:294-298 | call k takes a reading exactly when k is 61, 121, 181, … |
| Cadence.ReadingsAfterClosedForm | src/main.cpp:294-298 | after n calls, no readings for n ≤ 60, then (n-1) div 60 readings |
| Sampling.Sum | src/main.cpp:171-174 | the accumulator after the codes were added in reading order, starting from 0; its step is `Sampling.SumAppend` and its range `Sampling.SumBounds` |
| Sampling.SumAppend | src/main.cpp:173-174 | adding one more code to the accumulator adds it to the sum |
| Sampling.SumBounds | src/main.cpp:171-176 | 10-bit codes (`Sampling.Code`, 0..1023) sum to between 0 and 1023 per code |
| Record.Line | src/main.cpp:191-192 | the `%.2f,%s` entry is as long as the temperature text, one comma and the timestamp together, with the comma right after the temperature text; `Record.LastFieldOfLine` reads the timestamp back |
| Record.LastFieldOfLine | src/main.cpp:191-192 | the text after the last comma of a record line is the timestamp, when the timestamp has no comma |
| Record.LineTimestamp | src/main.cpp:191-192 | whatever the temperature text, the record line's date-time is recovered from its last column |
| FakeFrog.LogFileMirrorsSerial | src/main.cpp:97-122 | once the log file is open it receives exactly what serial receives, starting with the `Done.` of its own step |
| FakeFrog.SetupTranscriptFails | src/main.cpp:209-290 | the serial transcript of `setup()` ends in "Failed." exactly when one of its four steps failed |
| FakeFrog.SetupCard | src/main.cpp:219-290 | once the log file is open, it holds its `Done.` and everything logged after it, a data file that was opened holds only the header, and every file that was there is untouched |
| FakeFrog.WriteSlot | src/main.cpp:225-227 | the three assignments turn a buffer holding the template outside positions 6..8 into the candidate name of slot i, leaving the rest of the buffer alone |
| FakeFrog.FindFreeSlot | src/main.cpp:220-233 | the loop over the name buffer stops at the slot the scan specification picks, and the name it returns is that slot's candidate, not on the card |
| FakeFrog.DataLogger.constructor | src/main.cpp:64-91 | power-on state: both handles invalid, serial not started, timer 0, accumulator 0, `now` at a placeholder value that nothing reads before the first `rtc.now()`, timestamp buffer at its initial text |
| FakeFrog.DataLogger.Log | src/main.cpp:97-122 | serial begins (with an empty line) only on first use and the flag stays set; the message goes to serial, newline iff requested; the log file receives it only when its handle is valid |
| FakeFrog.DataLogger.LogError | src/main.cpp:125-128 | logs like `log`, then halts; the last serial write is the message |
| FakeFrog.DataLogger.OpenFirstFree | src/main.cpp:220-233 | the buffer loop opens the first free slot's name (created empty) when `SD.open` succeeds; otherwise, or when no slot is free, the handle is invalid and the card unchanged |
| FakeFrog.DataLogger.UpdateFormattedTimestamp | src/main.cpp:157-160 | the buffer holds the formatted `now` |
| FakeFrog.DataLogger.AnalogRead | src/main.cpp:174 | returns the next ADC code (a `Sampling.Code`, in 0..1023) and consumes it |
| FakeFrog.DataLogger.TakeReading | src/main.cpp:168-176 | `now` is the clock reading; exactly 10 codes are consumed and the accumulator is their integer sum, at most 10230 |
| FakeFrog.DataLogger.SaveReadingToCard | src/main.cpp:188-196 | with a valid data handle, exactly one line (temperature text, comma, timestamp) is appended and the timestamp refreshed; otherwise nothing changes |
| FakeFrog.DataLogger.StartSdCard | src/main.cpp:209-215 | serial receives "Initializing SD card... " and then "Done." or "Failed."; setup halts exactly when `SD.begin` fails; the card is unchanged |
| FakeFrog.DataLogger.CreateLogFile | src/main.cpp:217-239 | serial receives "Creating log file... " and the outcome; a log file is open exactly when a slot is free and its open succeeds, under the first free slot's name, holding "Done."; otherwise setup halts with "Failed." and the card is unchanged |
| FakeFrog.DataLogger.StartRtc | src/main.cpp:241-247 | serial and the log file both receive "Initializing RTC..." and then "Done." or "Failed."; setup halts exactly when `rtc.begin` fails |
| FakeFrog.DataLogger.CreateDataFile | src/main.cpp:251-271 | serial and the log file both receive "Creating data file..." and the outcome; a data file is open exactly when a slot is free and its open succeeds, under the first free slot's name, new on the card and distinct from the log file; otherwise setup halts with "Failed." |
| FakeFrog.DataLogger.WriteHeader | src/main.cpp:273-275 | the data file receives the header line `Timestamp,Temperature` |
| FakeFrog.DataLogger.LogStart | src/main.cpp:284-290 | `now` is the clock reading and the buffer its text; serial and the log file both receive the start message, the timestamp and the version |
| FakeFrog.DataLogger.LogStartMessage | src/main.cpp:287-290 | the four `log` calls append "Data logger started at ", the timestamp text, ". Software version: " and the version to serial and to the log file |
| FakeFrog.DataLogger.SetupStorage | src/main.cpp:209-239 | serial receives the SD-card and log-file steps up to the one that fails; the log file is open exactly when the SD card starts, a slot is free and its open succeeds, and then holds "Done."; otherwise setup has halted with "Failed." and the card is unchanged |
| FakeFrog.DataLogger.SetupData | src/main.cpp:241-275 | serial and the log file both receive the clock and data-file steps up to the one that fails; the data file is open exactly when the clock starts, a slot is free and its open succeeds, and then it holds only the header |
| FakeFrog.DataLogger.FinishSetup | src/main.cpp:241-290 | serial and the log file receive the clock and data-file steps and, when both succeed, the start message; on success the data file holds only the header and `now` is the clock reading; on failure the last serial write is "Failed." and `now` and the timestamp text are unchanged |
| FakeFrog.DataLogger.Setup | src/main.cpp:201-291 | serial receives the whole transcript of `setup()` up to the failing step, and the log file everything logged once it opened; each handle is open exactly when its steps succeed, under the first free slot's name; setup halts (last serial write "Failed.") exactly when no data file is open; files already on the card are untouched; a halted setup leaves `now` and the timestamp text unchanged; on success the data file holds only the header |
| FakeFrog.DataLogger.Loop | src/main.cpp:293-301 | keeps the timer on its schedule (in 0..60); a call starting at 60 takes and saves a reading (one record line appended and the timestamp text refreshed when the data handle is valid, card and timestamp text unchanged otherwise) and leaves the timer at 1; any other call only increments the timer |

## Left out

- The floating-point pipeline: the resistance formula (src/main.cpp:181-182), `resistance_to_temperature` (src/main.cpp:162-166) and `%.2f`. The record's temperature text is `temperatureText`, a function of the sample sum that the constructor is given. The sum is exact in the sketch too: it is at most 10230, well below 2^24, up to which the board's 32-bit `double` holds integers exactly.
- The LCD and display modes (`update_screen`, `switch_display_mode`, the LCD block of `setup()`). They are user interface with placeholder output.
- `delay`, `analogReference`, `pinMode`, `Wire.begin` and the serial baud rate. They have no effect on the modelled state beyond ordering.
- `flush`: every write is flushed at once in the sketch, so the card holds every write.
- The 50-byte entry buffer of `save_reading_to_card`. Its overflow depends on the length of the temperature text, which is not modelled.
- Clock readings outside `Timestamp.Fits` (a year of five digits, or another field of three digits). `TakeReading`, `Loop` and `Setup` require `Fits` of the reading, because beyond those bounds the text can overflow the 20-byte `formatted_timestamp` buffer, and the model does not represent that overflow. Every date and time of day up to the year 9999 fits.
- The compile-time switches `SERIAL_LOGGING`, `FILE_LOGGING` and `DISPLAY_ENABLED` are fixed at true, as in the sketch.
- The shared `uint16_t i` iterator: each loop has its own counter, which never exceeds 1000.
- Naming.CandidateName: its own contract gives only the name's length. The slot read-back and the characters it keeps from the template are the lemmas `Naming.SlotOfCandidate` and `Naming.CandidateNameShape`, which keeps the proofs of its many callers small.
- FakeFrog.DataLogger.Setup: states `FilesConsistent()` and `ReadingConsistent()`, not `Valid()`. The timer fields are outside its `modifies` frame, so the loop schedule that `Valid()` adds is unchanged by `setup()`.
