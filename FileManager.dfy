/** The file library: a fixed list of CAD files, narrowed by a search term and
    a discipline filter, with each file's age shown in hours or days. */
module FileManager {
  import opened Common
  import opened Text

  datatype CadStatus = Ready | Reviewing | Completed

  datatype CadFile = CadFile(
    id: string,
    name: string,
    size: real,
    uploadedAtMs: int,
    status: CadStatus,
    discipline: string,
    elements: int,
    compliance: int,
    totalChecks: int)

  /** `1000 * 60 * 60` milliseconds. */
  const HourMs: int := 3600000

  /** The three library entries, uploaded 2, 5 and 24 hours before `nowMs`. */
  function MockFiles(nowMs: int): seq<CadFile>
  {
    [ CadFile("1", "HVAC_Floor_Plan_L1.dxf", 2.4 * 1024.0 * 1024.0, nowMs - 2 * HourMs, Completed, "HVAC", 1247, 18, 22),
      CadFile("2", "Electrical_Schematic_Main.dxf", 1.8 * 1024.0 * 1024.0, nowMs - 5 * HourMs, Reviewing, "Electrical", 892, 12, 15),
      CadFile("3", "Mechanical_Layout_B1.dxf", 3.1 * 1024.0 * 1024.0, nowMs - 24 * HourMs, Ready, "Mechanical", 1456, 0, 0) ]
  }

  /** `Math.floor(diff / 3600000)`; Dafny's division by a positive number already floors. */
  function HoursAgo(nowMs: int, thenMs: int): (h: int)
    ensures h * HourMs <= nowMs - thenMs < (h + 1) * HourMs
  {
    (nowMs - thenMs) / HourMs
  }

  /** `formatTimeAgo`. */
  function FormatTimeAgo(nowMs: int, thenMs: int): string
  {
    var h := HoursAgo(nowMs, thenMs);
    if h < 1 then "Just now"
    else if h < 24 then NatToString(h) + "h ago"
    else NatToString(h / 24) + "d ago"
  }

  /** Under an hour (a date in the future included) the age reads "Just now". */
  lemma JustNow(nowMs: int, thenMs: int)
    requires nowMs - thenMs < HourMs
    ensures FormatTimeAgo(nowMs, thenMs) == "Just now"
  {
  }

  /** From one to 23 whole hours the age is the hour count in decimal, which
      reads back as the same number. */
  lemma HoursAgoText(nowMs: int, thenMs: int)
    requires HourMs <= nowMs - thenMs < 24 * HourMs
    ensures exists digits :: FormatTimeAgo(nowMs, thenMs) == digits + "h ago"
              && DigitsValue(digits) == HoursAgo(nowMs, thenMs) && 1 <= DigitsValue(digits) < 24
  {
    var h := HoursAgo(nowMs, thenMs);
    assert 1 <= h < 24;
    NatToStringValue(h);
    assert FormatTimeAgo(nowMs, thenMs) == NatToString(h) + "h ago";
  }

  /** From 24 whole hours on the age is the whole-day count in decimal: at
      least one, and read back it is the hours divided by 24, rounded down. */
  lemma DaysAgoText(nowMs: int, thenMs: int)
    requires 24 * HourMs <= nowMs - thenMs
    ensures exists digits :: FormatTimeAgo(nowMs, thenMs) == digits + "d ago"
              && DigitsValue(digits) == HoursAgo(nowMs, thenMs) / 24 && 1 <= DigitsValue(digits)
  {
    var h := HoursAgo(nowMs, thenMs);
    assert h >= 24;
    var d := h / 24;
    NatToStringValue(d);
    assert FormatTimeAgo(nowMs, thenMs) == NatToString(d) + "d ago";
  }

  /** The library shows the ages "2h ago", "5h ago" and "1d ago". */
  lemma MockAges(nowMs: int)
    ensures FormatTimeAgo(nowMs, MockFiles(nowMs)[0].uploadedAtMs) == "2h ago"
    ensures FormatTimeAgo(nowMs, MockFiles(nowMs)[1].uploadedAtMs) == "5h ago"
    ensures FormatTimeAgo(nowMs, MockFiles(nowMs)[2].uploadedAtMs) == "1d ago"
  {
    assert HoursAgo(nowMs, nowMs - 2 * HourMs) == 2;
    assert HoursAgo(nowMs, nowMs - 5 * HourMs) == 5;
    assert HoursAgo(nowMs, nowMs - 24 * HourMs) == 24;
  }

  /** The filter of a file: its lower-cased name contains the lower-cased term,
      and the selection is "all" or its lower-cased discipline. */
  predicate Shown(f: CadFile, searchTerm: string, selectedDiscipline: string)
  {
    Contains(ToLower(f.name), ToLower(searchTerm))
    && (selectedDiscipline == "all" || ToLower(f.discipline) == selectedDiscipline)
  }

  function FilteredFiles(files: seq<CadFile>, searchTerm: string, selectedDiscipline: string): seq<CadFile>
  {
    Filter(files, (f: CadFile) => Shown(f, searchTerm, selectedDiscipline))
  }

  /** The shown files are exactly the files that pass, in library order. */
  lemma FilteredFilesSpec(files: seq<CadFile>, searchTerm: string, selectedDiscipline: string)
    ensures IsSubsequence(FilteredFiles(files, searchTerm, selectedDiscipline), files)
    ensures forall f :: f in FilteredFiles(files, searchTerm, selectedDiscipline)
                        <==> f in files && Shown(f, searchTerm, selectedDiscipline)
  {
    var keep := (f: CadFile) => Shown(f, searchTerm, selectedDiscipline);
    FilterIsSubsequence(files, keep);
    forall f ensures f in FilteredFiles(files, searchTerm, selectedDiscipline)
                     <==> f in files && Shown(f, searchTerm, selectedDiscipline) {
      FilterMembership(files, keep, f);
    }
  }

  /** The empty term with "all" shows the whole library. */
  lemma FilteredFilesShowAll(files: seq<CadFile>)
    ensures FilteredFiles(files, "", "all") == files
  {
    var keep := (f: CadFile) => Shown(f, "", "all");
    forall k | 0 <= k < |files| ensures keep(files[k]) {
      assert StartsWith(ToLower(files[k].name), "");
    }
    FilterKeepsAll(files, keep);
  }

  /** The case of the search term does not matter. */
  lemma FilteredFilesIgnoreTermCase(files: seq<CadFile>, searchTerm: string, selectedDiscipline: string)
    ensures FilteredFiles(files, searchTerm, selectedDiscipline)
            == FilteredFiles(files, ToLower(searchTerm), selectedDiscipline)
  {
    ToLowerIdempotent(searchTerm);
    FilterSame(files, (f: CadFile) => Shown(f, searchTerm, selectedDiscipline),
               (f: CadFile) => Shown(f, ToLower(searchTerm), selectedDiscipline));
  }

  /** The selection is compared as given, so one that holds an upper-case
      letter (other than "all") shows nothing: lower-casing leaves none. The
      select offers only lower-case values, so such a selection can come only
      from a caller that sets the state some other way. */
  lemma UpperCaseSelectionShowsNothing(files: seq<CadFile>, searchTerm: string, selectedDiscipline: string, i: nat)
    requires i < |selectedDiscipline| && 'A' <= selectedDiscipline[i] <= 'Z'
    ensures FilteredFiles(files, searchTerm, selectedDiscipline) == []
  {
    var keep := (f: CadFile) => Shown(f, searchTerm, selectedDiscipline);
    forall k | 0 <= k < |files| ensures !keep(files[k]) {
      if ToLower(files[k].discipline) == selectedDiscipline {
        assert false;
      }
    }
    FilterDropsAll(files, keep);
  }

  /** Selecting "electrical" with an empty term shows only the schematic. */
  lemma FilteredFilesExample(nowMs: int)
    ensures FilteredFiles(MockFiles(nowMs), "", "electrical") == [MockFiles(nowMs)[1]]
  {
    var fs := MockFiles(nowMs);
    var keep := (f: CadFile) => Shown(f, "", "electrical");
    assert StartsWith(ToLower(fs[1].name), "");
    assert ToLower("Electrical") == "electrical";
    assert ToLower("HVAC")[0] == 'h';
    assert ToLower("Mechanical")[0] == 'm';
    assert fs == [fs[0]] + ([fs[1]] + [fs[2]]);
    FilterAppend([fs[0]], [fs[1]] + [fs[2]], keep);
    FilterAppend([fs[1]], [fs[2]], keep);
  }
}
