/** Candidate file names for the log and data files, exactly as `setup()` writes them into
    its name templates, and the "first free slot" specification of the allocation loops. */
module Naming {
  import opened Wrappers

  /** `char log_file_name[] = "log_000.txt"` */
  const LogTemplate: string := "log_000.txt"
  /** `char data_file_name[] = "data_000.csv"` */
  const DataTemplate: string := "data_000.csv"
  /** `MAX_LOG_FILES` and `MAX_DATA_FILES` */
  const MaxFiles := 1000
  /** The sketch adds 32 (the code of ' ') to each slot digit. */
  const Offset := 32

  predicate IsTemplate(t: string) {
    |t| >= 9
  }

  /** The three characters written at positions 6, 7 and 8 for slot i. The middle one is
      `i / 10`, not reduced mod 10, so it ranges up to 99 + 32; reading the last two back as
      tens and units still gives i. */
  function SlotChars(i: nat): (r: seq<char>)
    requires i < MaxFiles
    ensures |r| == 3 && (r[1] as int - Offset) * 10 + (r[2] as int - Offset) == i
  {
    [(i / 100 + Offset) as char, (i / 10 + Offset) as char, (i % 10 + Offset) as char]
  }

  /** Reads the slot back from positions 7 and 8 of a candidate name. */
  function SlotOf(name: string): int
    requires |name| >= 9
  {
    (name[7] as int - Offset) * 10 + (name[8] as int - Offset)
  }

  /** The template after `name[6] = i / 100 + 32; name[7] = i / 10 + 32; name[8] = i % 10 + 32;`.
      It keeps the template's length; SlotOfCandidate reads the slot back from it, and
      CandidateNameShape says that every other character is the template's. */
  function CandidateName(template: string, i: nat): (r: string)
    requires IsTemplate(template) && i < MaxFiles
    ensures |r| == |template|
  {
    template[..6] + SlotChars(i) + template[9..]
  }

  /** The slot is read back from positions 7 and 8 of its name, the unreduced `i / 10` in
      position 7 supplying the tens and hundreds together. */
  lemma SlotOfCandidate(template: string, i: nat)
    requires IsTemplate(template) && i < MaxFiles
    ensures SlotOf(CandidateName(template, i)) == i
  {
    var r := CandidateName(template, i);
    assert r[7] == SlotChars(i)[1] && r[8] == SlotChars(i)[2];
  }

  /** Positions 6, 7 and 8 of a candidate name hold the codes i/100 + 32, i/10 + 32 and
      i%10 + 32. */
  lemma CandidateNameShape(template: string, i: nat)
    requires IsTemplate(template) && i < MaxFiles
    ensures var r := CandidateName(template, i);
      |r| == |template| &&
      (forall k :: 0 <= k < |r| && (k < 6 || 8 < k) ==> r[k] == template[k]) &&
      r[6] as int == i / 100 + Offset && r[7] as int == i / 10 + Offset && r[8] as int == i % 10 + Offset
  {
    var r, c := CandidateName(template, i), SlotChars(i);
    assert r == template[..6] + c + template[9..];
    assert r[6] == c[0] && r[7] == c[1] && r[8] == c[2];
    forall k | 0 <= k < |r| && (k < 6 || 8 < k)
      ensures r[k] == template[k]
    {
      if k < 6 {
        assert r[k] == r[..6][k];
      } else {
        assert r[k] == r[9..][k - 9];
      }
    }
  }

  /** Distinct slots give distinct names, so the allocator never confuses two slots. */
  lemma CandidateNamesDistinct(template: string, i: nat, j: nat)
    requires IsTemplate(template) && i < MaxFiles && j < MaxFiles && i != j
    ensures CandidateName(template, i) != CandidateName(template, j)
  {
    SlotOfCandidate(template, i);
    SlotOfCandidate(template, j);
  }

  /** A log-file candidate is never a data-file candidate (they differ in length). */
  lemma LogAndDataNamesDiffer(i: nat, j: nat)
    requires i < MaxFiles && j < MaxFiles
    ensures CandidateName(LogTemplate, i) != CandidateName(DataTemplate, j)
    ensures |CandidateName(LogTemplate, i)| == 11 && |CandidateName(DataTemplate, j)| == 12
  {
  }

  /** As written, slot 0 overwrites the last zero, the dot and the 't' of "log_000.txt" with
      spaces, and slot 123 of "data_000.csv" yields `data_0!,#csv`. */
  lemma AsWrittenNames()
    ensures CandidateName(LogTemplate, 0) == "log_00   xt"
    ensures CandidateName(DataTemplate, 123) == "data_0!,#csv"
  {
    assert SlotChars(0) == "   ";
    assert SlotChars(123) == "!,#";
  }

  /** The slot the scan starting at i stops at: the first j in i..MaxFiles-1 whose name is not
      on the card, or None when every one of them is. */
  function FirstFreeFrom(present: set<string>, template: string, i: nat): (r: Option<nat>)
    requires IsTemplate(template) && i <= MaxFiles
    ensures r.Some? ==> i <= r.value < MaxFiles && CandidateName(template, r.value) !in present
    decreases MaxFiles - i
  {
    if i == MaxFiles then None
    else if CandidateName(template, i) !in present then Some(i)
    else FirstFreeFrom(present, template, i + 1)
  }

  function FirstFree(present: set<string>, template: string): (r: Option<nat>)
    requires IsTemplate(template)
    ensures r.Some? ==> r.value < MaxFiles && CandidateName(template, r.value) !in present
  {
    FirstFreeFrom(present, template, 0)
  }

  lemma {:induction false} FirstFreeFromSpec(present: set<string>, template: string, i: nat)
    requires IsTemplate(template) && i <= MaxFiles
    ensures match FirstFreeFrom(present, template, i)
      case Some(k) =>
        i <= k < MaxFiles && CandidateName(template, k) !in present &&
        forall j :: i <= j < k ==> CandidateName(template, j) in present
      case None =>
        forall j :: i <= j < MaxFiles ==> CandidateName(template, j) in present
    decreases MaxFiles - i
  {
    if i < MaxFiles && CandidateName(template, i) in present {
      FirstFreeFromSpec(present, template, i + 1);
      var r := FirstFreeFrom(present, template, i + 1);
      var bound := if r.Some? then r.value else MaxFiles;
      forall j | i <= j < bound
        ensures CandidateName(template, j) in present
      {
        if j > i {
          assert i + 1 <= j < bound;
        }
      }
    }
  }

  /** The allocator picks slot k exactly when k is the least slot whose name is absent. */
  lemma FirstFreeIsLeast(present: set<string>, template: string, k: nat)
    requires IsTemplate(template)
    ensures FirstFree(present, template) == Some(k) <==>
      k < MaxFiles && CandidateName(template, k) !in present &&
      forall j :: 0 <= j < k ==> CandidateName(template, j) in present
  {
    FirstFreeFromSpec(present, template, 0);
  }

  /** No slot is found exactly when all 1000 candidate names are present. */
  lemma FirstFreeNone(present: set<string>, template: string)
    requires IsTemplate(template)
    ensures FirstFree(present, template) == None <==>
      forall j :: 0 <= j < MaxFiles ==> CandidateName(template, j) in present
  {
    FirstFreeFromSpec(present, template, 0);
  }

  /** Adding a name that is no candidate of the template does not move the first free slot. */
  lemma {:induction false} FirstFreeFromIgnores(present: set<string>, template: string, other: string, i: nat)
    requires IsTemplate(template) && i <= MaxFiles
    requires forall j :: 0 <= j < MaxFiles ==> CandidateName(template, j) != other
    ensures FirstFreeFrom(present + {other}, template, i) == FirstFreeFrom(present, template, i)
    decreases MaxFiles - i
  {
    if i < MaxFiles {
      FirstFreeFromIgnores(present, template, other, i + 1);
    }
  }

  /** Creating the log file does not change which data-file slot is chosen. */
  lemma DataSlotIgnoresLogFile(present: set<string>, i: nat)
    requires i < MaxFiles
    ensures FirstFree(present + {CandidateName(LogTemplate, i)}, DataTemplate) == FirstFree(present, DataTemplate)
  {
    forall j | 0 <= j < MaxFiles
      ensures CandidateName(DataTemplate, j) != CandidateName(LogTemplate, i)
    {
      LogAndDataNamesDiffer(i, j);
    }
    FirstFreeFromIgnores(present, DataTemplate, CandidateName(LogTemplate, i), 0);
  }
}
