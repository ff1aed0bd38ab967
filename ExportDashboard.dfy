/** The export dashboard: a project, a set of formats and a set of report
    sections chosen by checkboxes, a preview listing what the report will hold,
    and an export whose progress a repeating timer advances by a random step
    until it passes 100, when a download named after the project starts. */
module ExportDashboard {
  import opened Common
  import opened Text
  import ComplianceOverview

  datatype ProjectEntry = ProjectEntry(id: string, name: string, files: nat, compliance: int)

  /** An export format or a report section: an id, a title and a description. */
  datatype CatalogueEntry = CatalogueEntry(id: string, name: string, description: string)

  const Projects: seq<ProjectEntry> := [
    ProjectEntry("downtown-office", "Downtown Office Complex", 12, 82),
    ProjectEntry("residential-tower", "Residential Tower - Phase 2", 8, 67),
    ProjectEntry("manufacturing-facility", "Manufacturing Facility", 15, 95)
  ]

  const ExportFormats: seq<CatalogueEntry> := [
    CatalogueEntry("pdf", "PDF Report", "Professional compliance report"),
    CatalogueEntry("excel", "Excel Spreadsheet", "Data analysis and calculations"),
    CatalogueEntry("csv", "CSV Data", "Raw data for external tools"),
    CatalogueEntry("json", "JSON Export", "Structured data format")
  ]

  const ReportSections: seq<CatalogueEntry> := [
    CatalogueEntry("summary", "Executive Summary", "Project overview and key findings"),
    CatalogueEntry("compliance", "Compliance Analysis", "Code compliance status and issues"),
    CatalogueEntry("technical", "Technical Specifications", "Equipment and system details"),
    CatalogueEntry("calculations", "Engineering Calculations", "Load calculations and sizing"),
    CatalogueEntry("recommendations", "Recommendations", "Improvement suggestions"),
    CatalogueEntry("appendix", "Appendices", "Supporting documents and references")
  ]

  /** The ids of a catalogue, in its order. */
  function IdsOf(es: seq<CatalogueEntry>): (r: seq<string>)
    ensures |r| == |es| && forall k | 0 <= k < |es| :: r[k] == es[k].id
  {
    if es == [] then [] else [es[0].id] + IdsOf(es[1..])
  }

  /** `projects.find((p) => p.id === id)`. */
  function FindProject(projects: seq<ProjectEntry>, id: string): (r: Option<ProjectEntry>)
    ensures r.Some? ==> r.value in projects && r.value.id == id
    ensures r.None? <==> forall k | 0 <= k < |projects| :: projects[k].id != id
  {
    if projects == [] then None
    else if projects[0].id == id then Some(projects[0])
    else FindProject(projects[1..], id)
  }

  /** `handleFormatChange` and `handleSectionChange`: checking appends the id,
      unchecking keeps every other id. */
  function Toggle(selected: seq<string>, id: string, checked: bool): seq<string>
  {
    if checked then selected + [id] else Filter(selected, (x: string) => x != id)
  }

  /** After a toggle an id is selected exactly when it is the toggled id and
      was checked, or it is another id that was selected before. */
  lemma ToggleMembership(selected: seq<string>, id: string, checked: bool, x: string)
    ensures x in Toggle(selected, id, checked) <==> if x == id then checked else x in selected
  {
    if !checked {
      FilterMembership(selected, (y: string) => y != id, x);
    }
  }

  /** Unchecking keeps the other ids in their order. */
  lemma UncheckKeepsOrder(selected: seq<string>, id: string)
    ensures IsSubsequence(Toggle(selected, id, false), selected)
  {
    FilterIsSubsequence(selected, (x: string) => x != id);
  }

  /** Unchecking an id that was just checked gives back the selection. */
  lemma CheckThenUncheck(selected: seq<string>, id: string)
    requires id !in selected
    ensures Toggle(Toggle(selected, id, true), id, false) == selected
  {
    var keep := (x: string) => x != id;
    FilterAppend(selected, [id], keep);
    FilterKeepsAll(selected, keep);
  }

  /** A selection the checkboxes can produce: ids of the catalogue, none twice. */
  predicate SelectionValid(selected: seq<string>, catalogue: seq<CatalogueEntry>)
  {
    Distinct(selected) && forall k | 0 <= k < |selected| :: selected[k] in IdsOf(catalogue)
  }

  /** A checkbox passes the opposite of its current state, so clicking the
      box of a catalogue entry keeps a selection that the checkboxes can produce. */
  lemma ClickKeepsSelectionValid(selected: seq<string>, catalogue: seq<CatalogueEntry>, id: string, checked: bool)
    requires SelectionValid(selected, catalogue) && id in IdsOf(catalogue)
    requires checked == (id !in selected)
    ensures SelectionValid(Toggle(selected, id, checked), catalogue)
  {
    var r := Toggle(selected, id, checked);
    if !checked {
      var keep := (x: string) => x != id;
      FilterDistinct(selected, keep);
      forall k | 0 <= k < |r| ensures r[k] in IdsOf(catalogue) {
        FilterMembership(selected, keep, r[k]);
      }
    } else {
      forall i, j | 0 <= i < j < |r| ensures r[i] != r[j] {
        if j == |selected| {
          assert r[i] == selected[i];
        }
      }
    }
  }

  /** The entries of a catalogue whose ids are selected, in catalogue order
      (`generatePreviewContent`). */
  function Preview(catalogue: seq<CatalogueEntry>, selected: seq<string>): seq<CatalogueEntry>
  {
    Filter(catalogue, (e: CatalogueEntry) => e.id in selected)
  }

  /** The preview lists exactly the selected catalogue entries, in catalogue order. */
  lemma PreviewSpec(catalogue: seq<CatalogueEntry>, selected: seq<string>)
    ensures IsSubsequence(Preview(catalogue, selected), catalogue)
    ensures forall e :: e in Preview(catalogue, selected) <==> e in catalogue && e.id in selected
  {
    var keep := (e: CatalogueEntry) => e.id in selected;
    FilterIsSubsequence(catalogue, keep);
    forall e ensures e in Preview(catalogue, selected) <==> e in catalogue && e.id in selected {
      FilterMembership(catalogue, keep, e);
    }
  }

  /** The order in which boxes were checked, and repetitions, do not change the preview. */
  lemma PreviewIgnoresOrder(catalogue: seq<CatalogueEntry>, s1: seq<string>, s2: seq<string>)
    requires forall x :: x in s1 <==> x in s2
    ensures Preview(catalogue, s1) == Preview(catalogue, s2)
  {
    FilterSame(catalogue, (e: CatalogueEntry) => e.id in s1, (e: CatalogueEntry) => e.id in s2);
  }

  /** Filtering entries by a test on their ids and taking the ids commute. */
  lemma {:induction false} IdsOfFilter(es: seq<CatalogueEntry>, f: CatalogueEntry -> bool, g: string -> bool)
    requires forall e :: f(e) == g(e.id)
    ensures IdsOf(Filter(es, f)) == Filter(IdsOf(es), g)
  {
    if es != [] {
      IdsOfFilter(es[1..], f, g);
      FilterCons(es, f);
      FilterCons(IdsOf(es), g);
      assert IdsOf(es)[1..] == IdsOf(es[1..]);
      var rest := Filter(es[1..], f);
      if f(es[0]) {
        assert Filter(es, f) == [es[0]] + rest;
        assert ([es[0]] + rest)[1..] == rest;
      }
    }
  }

  /** With a catalogue whose ids are distinct, the preview of a selection the
      checkboxes can produce has one entry per selected id: the counts on the
      summary line and in the preview agree. */
  lemma PreviewCount(catalogue: seq<CatalogueEntry>, selected: seq<string>)
    requires Distinct(IdsOf(catalogue)) && SelectionValid(selected, catalogue)
    ensures |Preview(catalogue, selected)| == |selected|
  {
    var f := (e: CatalogueEntry) => e.id in selected;
    var g := (x: string) => x in selected;
    IdsOfFilter(catalogue, f, g);
    var ids := IdsOf(catalogue);
    var r := Filter(ids, g);
    FilterDistinct(ids, g);
    forall x ensures x in r <==> x in selected {
      FilterMembership(ids, g, x);
    }
    assert Elements(r) == Elements(selected);
    DistinctCard(r);
    DistinctCard(selected);
  }

  /** Neither catalogue lists an id twice. */
  lemma CataloguesDistinct()
    ensures Distinct(IdsOf(ExportFormats)) && Distinct(IdsOf(ReportSections))
  {
    FormatIds();
    SectionIds();
    LiteralIdsDistinct();
  }

  /** The ids of the two catalogues, written out. */
  lemma FormatIds()
    ensures IdsOf(ExportFormats) == ["pdf", "excel", "csv", "json"]
  {
  }

  lemma SectionIds()
    ensures IdsOf(ReportSections) == ["summary", "compliance", "technical", "calculations", "recommendations", "appendix"]
  {
  }

  lemma LiteralIdsDistinct()
    ensures Distinct(["pdf", "excel", "csv", "json"])
    ensures Distinct(["summary", "compliance", "technical", "calculations", "recommendations", "appendix"])
    ensures Distinct(["pdf"]) && Distinct(["compliance", "summary"])
  {
  }

  lemma DefaultIdsListed()
    ensures "pdf" in IdsOf(ExportFormats)
    ensures "compliance" in IdsOf(ReportSections) && "summary" in IdsOf(ReportSections)
  {
    FormatIds();
    SectionIds();
  }

  /** The selections the dashboard opens with are ones the checkboxes can produce. */
  lemma DefaultSelectionsValid()
    ensures SelectionValid(["pdf"], ExportFormats)
    ensures SelectionValid(["compliance", "summary"], ReportSections)
  {
    DefaultIdsListed();
    LiteralIdsDistinct();
    SmallSelections("compliance", "summary", ReportSections);
    SmallSelections("pdf", "pdf", ExportFormats);
  }

  /** One listed id, or two different ones, make a selection the checkboxes can produce. */
  lemma SmallSelections(a: string, b: string, catalogue: seq<CatalogueEntry>)
    requires a in IdsOf(catalogue) && b in IdsOf(catalogue)
    ensures a != b ==> SelectionValid([a, b], catalogue)
    ensures SelectionValid([a], catalogue)
  {
  }

  /** `sections.length * 3 + 2`. */
  function EstimatedPages(selectedSections: seq<string>): nat
  {
    |Preview(ReportSections, selectedSections)| * 3 + 2
  }

  /** The estimate lies between 2 and 20 pages, and for a selection made with
      the checkboxes it is three pages per selected section plus two. */
  lemma EstimatedPagesBounds(selectedSections: seq<string>)
    ensures 2 <= EstimatedPages(selectedSections) <= 20
    ensures SelectionValid(selectedSections, ReportSections)
            ==> EstimatedPages(selectedSections) == 3 * |selectedSections| + 2
  {
    if SelectionValid(selectedSections, ReportSections) {
      CataloguesDistinct();
      PreviewCount(ReportSections, selectedSections);
    }
  }

  /** Preview and export are disabled while no format or no section is selected. */
  predicate PreviewDisabled(selectedFormats: seq<string>, selectedSections: seq<string>)
  {
    |selectedFormats| == 0 || |selectedSections| == 0
  }

  predicate GenerateDisabled(selectedFormats: seq<string>, selectedSections: seq<string>, isExporting: bool)
  {
    PreviewDisabled(selectedFormats, selectedSections) || isExporting
  }

  /** For selections made with the checkboxes the buttons are disabled exactly
      when the preview would list no format or no section. */
  lemma PreviewDisabledIffEmpty(selectedFormats: seq<string>, selectedSections: seq<string>)
    requires SelectionValid(selectedFormats, ExportFormats)
    requires SelectionValid(selectedSections, ReportSections)
    ensures PreviewDisabled(selectedFormats, selectedSections)
            <==> Preview(ExportFormats, selectedFormats) == [] || Preview(ReportSections, selectedSections) == []
  {
    CataloguesDistinct();
    PreviewCount(ExportFormats, selectedFormats);
    PreviewCount(ReportSections, selectedSections);
  }

  /** The message under the progress bar. */
  function PhaseLabel(progress: real): string
  {
    if progress < 30.0 then "Collecting project data..."
    else if progress < 60.0 then "Analyzing compliance status..."
    else if progress < 90.0 then "Generating report sections..."
    else "Finalizing export..."
  }

  const Phases: seq<string> := [
    "Collecting project data...",
    "Analyzing compliance status...",
    "Generating report sections...",
    "Finalizing export..."
  ]

  /** How many of the thresholds 30, 60 and 90 the progress has reached. */
  function ThresholdsReached(progress: real): (n: nat)
    ensures n <= 3
  {
    (if progress >= 30.0 then 1 else 0) + (if progress >= 60.0 then 1 else 0) + (if progress >= 90.0 then 1 else 0)
  }

  /** The message is the phase whose number is the count of thresholds reached. */
  lemma PhaseLabelByThresholds(progress: real)
    ensures PhaseLabel(progress) == Phases[ThresholdsReached(progress)]
  {
  }

  /** The phases follow each other in order as the progress rises. */
  lemma PhasesInOrder(p: real, q: real)
    requires p <= q
    ensures ThresholdsReached(p) <= ThresholdsReached(q)
  {
  }

  /** The project card's badge class. */
  function ProjectBadge(compliance: int): string
  {
    if compliance >= 80 then "bg-green-100 text-green-800 border-green-200"
    else if compliance >= 60 then "bg-yellow-100 text-yellow-800 border-yellow-200"
    else "bg-red-100 text-red-800 border-red-200"
  }

  /** The project cards use the overview's badge thresholds and classes. */
  lemma ProjectBadgeAgrees(compliance: int)
    ensures ProjectBadge(compliance) == ComplianceOverview.GetComplianceBadge(compliance)
  {
  }

  /** The cards show the office green, the tower yellow and the facility green. */
  lemma ProjectBands()
    ensures ComplianceOverview.BandOf(Projects[0].compliance) == ComplianceOverview.Green
    ensures ComplianceOverview.BandOf(Projects[1].compliance) == ComplianceOverview.Yellow
    ensures ComplianceOverview.BandOf(Projects[2].compliance) == ComplianceOverview.Green
  {
  }

  /** The line under the form, shown when the selected project is known. */
  function SummaryLine(projectId: string, selectedFormats: seq<string>, selectedSections: seq<string>): (r: Option<string>)
    ensures r.Some? <==> FindProject(Projects, projectId).Some?
    ensures r.Some? ==> StartsWith(r.value, "Selected: " + FindProject(Projects, projectId).value.name)
  {
    match FindProject(Projects, projectId)
    case None => None
    case Some(p) =>
      var s := "Selected: " + p.name;
      var rest := " • " + NatToString(|selectedFormats|) + " format(s) • "
                  + NatToString(|selectedSections|) + " section(s)";
      assert (s + rest)[..|s|] == s;
      Some(s + rest)
  }

  /** The name of the file an export downloads. */
  function DownloadName(projectId: string): string
  {
    projectId + "-report.pdf"
  }

  /** The dashboard's state. Each call of `handleExport` starts a timer of its
      own, which remembers the project selected at that moment; `running`
      holds those projects, one per live timer. The preview's Generate
      button starts an export without looking at `isExporting`, so several
      timers can advance the same progress. */
  class Dashboard {
    var selectedProject: string
    var selectedFormats: seq<string>
    var selectedSections: seq<string>
    var dateStart: string
    var dateEnd: string
    var isExporting: bool
    var exportProgress: real
    var showPreview: bool
    var running: seq<string>
    var downloads: seq<string>

    /** Progress stays in [0, 115): a step of under 15 is only added below 100;
        while the export flag is set some timer is live. */
    predicate Valid()
      reads this
    {
      0.0 <= exportProgress < 115.0 && (isExporting ==> |running| > 0)
    }

    /** Selections made with the checkboxes. */
    predicate SelectionsValid()
      reads this
    {
      SelectionValid(selectedFormats, ExportFormats) && SelectionValid(selectedSections, ReportSections)
    }

    constructor()
      ensures Valid() && SelectionsValid()
      ensures selectedProject == "downtown-office"
      ensures selectedFormats == ["pdf"] && selectedSections == ["compliance", "summary"]
      ensures dateStart == "" && dateEnd == ""
      ensures !isExporting && exportProgress == 0.0 && !showPreview
      ensures running == [] && downloads == []
    {
      selectedProject := "downtown-office";
      selectedFormats := ["pdf"];
      selectedSections := ["compliance", "summary"];
      dateStart := "";
      dateEnd := "";
      isExporting := false;
      exportProgress := 0.0;
      showPreview := false;
      running := [];
      downloads := [];
      new;
      DefaultSelectionsValid();
    }

    /** Clicking a project card. */
    method SelectProject(id: string)
      modifies this
      ensures selectedProject == id
      ensures selectedFormats == old(selectedFormats) && selectedSections == old(selectedSections)
      ensures dateStart == old(dateStart) && dateEnd == old(dateEnd)
      ensures isExporting == old(isExporting) && exportProgress == old(exportProgress)
      ensures showPreview == old(showPreview) && running == old(running) && downloads == old(downloads)
    {
      selectedProject := id;
    }

    method HandleFormatChange(formatId: string, checked: bool)
      modifies this
      ensures selectedFormats == Toggle(old(selectedFormats), formatId, checked)
      ensures selectedProject == old(selectedProject) && selectedSections == old(selectedSections)
      ensures dateStart == old(dateStart) && dateEnd == old(dateEnd)
      ensures isExporting == old(isExporting) && exportProgress == old(exportProgress)
      ensures showPreview == old(showPreview) && running == old(running) && downloads == old(downloads)
    {
      selectedFormats := Toggle(selectedFormats, formatId, checked);
    }

    method HandleSectionChange(sectionId: string, checked: bool)
      modifies this
      ensures selectedSections == Toggle(old(selectedSections), sectionId, checked)
      ensures selectedProject == old(selectedProject) && selectedFormats == old(selectedFormats)
      ensures dateStart == old(dateStart) && dateEnd == old(dateEnd)
      ensures isExporting == old(isExporting) && exportProgress == old(exportProgress)
      ensures showPreview == old(showPreview) && running == old(running) && downloads == old(downloads)
    {
      selectedSections := Toggle(selectedSections, sectionId, checked);
    }

    /** Clicking the checkbox of format `k`: it reports the opposite of whether
        the format is selected. */
    method ClickFormat(k: nat)
      requires k < |ExportFormats| && SelectionsValid()
      modifies this
      ensures SelectionsValid()
      ensures var id := ExportFormats[k].id;
              (id in old(selectedFormats) ==> selectedFormats == Toggle(old(selectedFormats), id, false))
              && (id !in old(selectedFormats) ==> selectedFormats == Toggle(old(selectedFormats), id, true))
      ensures selectedProject == old(selectedProject) && selectedSections == old(selectedSections)
      ensures isExporting == old(isExporting) && exportProgress == old(exportProgress)
      ensures running == old(running) && downloads == old(downloads)
      ensures dateStart == old(dateStart) && dateEnd == old(dateEnd) && showPreview == old(showPreview)
    {
      var id := ExportFormats[k].id;
      assert id == IdsOf(ExportFormats)[k];
      var checked := id !in selectedFormats;
      ClickKeepsSelectionValid(selectedFormats, ExportFormats, id, checked);
      HandleFormatChange(id, checked);
    }

    /** Clicking the checkbox of section `k`. */
    method ClickSection(k: nat)
      requires k < |ReportSections| && SelectionsValid()
      modifies this
      ensures SelectionsValid()
      ensures var id := ReportSections[k].id;
              (id in old(selectedSections) ==> selectedSections == Toggle(old(selectedSections), id, false))
              && (id !in old(selectedSections) ==> selectedSections == Toggle(old(selectedSections), id, true))
      ensures selectedProject == old(selectedProject) && selectedFormats == old(selectedFormats)
      ensures isExporting == old(isExporting) && exportProgress == old(exportProgress)
      ensures running == old(running) && downloads == old(downloads)
      ensures dateStart == old(dateStart) && dateEnd == old(dateEnd) && showPreview == old(showPreview)
    {
      var id := ReportSections[k].id;
      assert id == IdsOf(ReportSections)[k];
      var checked := id !in selectedSections;
      ClickKeepsSelectionValid(selectedSections, ReportSections, id, checked);
      HandleSectionChange(id, checked);
    }

    method SetDateRange(start: string, end: string)
      modifies this
      ensures dateStart == start && dateEnd == end
      ensures selectedProject == old(selectedProject)
      ensures selectedFormats == old(selectedFormats) && selectedSections == old(selectedSections)
      ensures isExporting == old(isExporting) && exportProgress == old(exportProgress)
      ensures showPreview == old(showPreview) && running == old(running) && downloads == old(downloads)
    {
      dateStart := start;
      dateEnd := end;
    }

    /** The Preview button opens the dialog unless it is disabled. */
    method OpenPreview()
      modifies this
      ensures showPreview == (old(showPreview) || !PreviewDisabled(selectedFormats, selectedSections))
      ensures selectedProject == old(selectedProject)
      ensures selectedFormats == old(selectedFormats) && selectedSections == old(selectedSections)
      ensures isExporting == old(isExporting) && exportProgress == old(exportProgress)
      ensures running == old(running) && downloads == old(downloads)
      ensures dateStart == old(dateStart) && dateEnd == old(dateEnd)
    {
      if !PreviewDisabled(selectedFormats, selectedSections) {
        showPreview := true;
      }
    }

    method ClosePreview()
      modifies this
      ensures !showPreview
      ensures selectedProject == old(selectedProject)
      ensures selectedFormats == old(selectedFormats) && selectedSections == old(selectedSections)
      ensures isExporting == old(isExporting) && exportProgress == old(exportProgress)
      ensures running == old(running) && downloads == old(downloads)
      ensures dateStart == old(dateStart) && dateEnd == old(dateEnd)
    {
      showPreview := false;
    }

    /** `handleExport`: the flag is set, progress restarts at 0 and a new timer
        captures the selected project. */
    method HandleExport()
      requires Valid()
      modifies this
      ensures Valid()
      ensures isExporting && exportProgress == 0.0
      ensures running == old(running) + [selectedProject]
      ensures selectedProject == old(selectedProject)
      ensures selectedFormats == old(selectedFormats) && selectedSections == old(selectedSections)
      ensures showPreview == old(showPreview) && downloads == old(downloads)
      ensures dateStart == old(dateStart) && dateEnd == old(dateEnd)
    {
      isExporting := true;
      exportProgress := 0.0;
      running := running + [selectedProject];
    }

    /** The main Generate button does nothing while it is disabled. */
    method ClickGenerate()
      requires Valid()
      modifies this
      ensures Valid()
      ensures GenerateDisabled(old(selectedFormats), old(selectedSections), old(isExporting))
              ==> running == old(running) && exportProgress == old(exportProgress) && isExporting == old(isExporting)
      ensures !GenerateDisabled(old(selectedFormats), old(selectedSections), old(isExporting))
              ==> isExporting && exportProgress == 0.0 && running == old(running) + [selectedProject]
      ensures selectedProject == old(selectedProject)
      ensures selectedFormats == old(selectedFormats) && selectedSections == old(selectedSections)
      ensures showPreview == old(showPreview) && downloads == old(downloads)
      ensures dateStart == old(dateStart) && dateEnd == old(dateEnd)
    {
      if !GenerateDisabled(selectedFormats, selectedSections, isExporting) {
        HandleExport();
      }
    }

    /** The preview's Generate button closes the dialog and starts an export,
        whether or not one is running. */
    method GenerateFromPreview()
      requires Valid()
      modifies this
      ensures Valid()
      ensures !showPreview && isExporting && exportProgress == 0.0
      ensures running == old(running) + [selectedProject]
      ensures selectedProject == old(selectedProject)
      ensures selectedFormats == old(selectedFormats) && selectedSections == old(selectedSections)
      ensures downloads == old(downloads)
      ensures dateStart == old(dateStart) && dateEnd == old(dateEnd)
    {
      showPreview := false;
      HandleExport();
    }

    /** Timer `k` fires with the random step `delta` (`Math.random() * 15`).
        At 100 or more it stops, clears the flag, pins the progress at 100 and
        starts the download for the project it captured; below 100 the step is
        added. */
    method ExportTick(k: nat, delta: real)
      requires Valid() && k < |running| && 0.0 <= delta < 15.0
      modifies this
      ensures Valid()
      ensures old(exportProgress) >= 100.0 ==>
                running == old(running[..k] + running[k + 1..]) && !isExporting
                && exportProgress == 100.0 && downloads == old(downloads) + [DownloadName(old(running[k]))]
      ensures old(exportProgress) < 100.0 ==>
                running == old(running) && isExporting == old(isExporting)
                && exportProgress == old(exportProgress) + delta && downloads == old(downloads)
      ensures selectedProject == old(selectedProject)
      ensures selectedFormats == old(selectedFormats) && selectedSections == old(selectedSections)
      ensures showPreview == old(showPreview)
      ensures dateStart == old(dateStart) && dateEnd == old(dateEnd)
    {
      if exportProgress >= 100.0 {
        downloads := downloads + [DownloadName(running[k])];
        running := running[..k] + running[k + 1..];
        isExporting := false;
        exportProgress := 100.0;
      } else {
        exportProgress := exportProgress + delta;
      }
    }
  }
}
