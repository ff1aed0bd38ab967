/** Compliance details for one project: per-discipline progress, a fixed
    analysis per check, generated action items and the sets of action items
    that were assigned and created. */
module ComplianceDetails {
  import opened Common
  import opened Text

  /** A compliance check; `status` is "passed", "failed" or "pending". */
  datatype Check = Check(name: string, status: string, priority: string, code: string)

  datatype DisciplineChecks = DisciplineChecks(name: string, checks: seq<Check>)

  const OfficeHvac := "Downtown Office Complex - HVAC Design"
  const WarehouseHvac := "Warehouse Facility - HVAC Layout"
  const HospitalEmergency := "Hospital Wing - Emergency Systems"
  const OfficeWater := "Office Building - Water Systems"

  const HvacChecks: seq<Check> := [
    Check(OfficeHvac, "passed", "high", "Project #2024-001"),
    Check("Retail Plaza - Ventilation System", "passed", "high", "Project #2024-002"),
    Check("Medical Center - Air Handling Units", "passed", "medium", "Project #2024-003"),
    Check(WarehouseHvac, "failed", "medium", "Project #2024-004"),
    Check("School Building - Climate Control", "pending", "low", "Project #2024-005")
  ]

  const ElectricalChecks: seq<Check> := [
    Check("Corporate Headquarters - Electrical Design", "passed", "high", "Project #2024-006"),
    Check("Shopping Mall - Power Distribution", "passed", "high", "Project #2024-007"),
    Check(HospitalEmergency, "failed", "high", "Project #2024-008"),
    Check("Data Center - Electrical Infrastructure", "passed", "medium", "Project #2024-009"),
    Check("Apartment Complex - Electrical Layout", "pending", "medium", "Project #2024-010")
  ]

  const MechanicalChecks: seq<Check> := [
    Check("Hotel Tower - Plumbing Systems", "passed", "high", "Project #2024-011"),
    Check("Restaurant Chain - Kitchen Plumbing", "passed", "high", "Project #2024-012"),
    Check(OfficeWater, "failed", "medium", "Project #2024-013"),
    Check("Manufacturing Plant - Process Piping", "pending", "low", "Project #2024-014")
  ]

  /** The disciplines of the Downtown Office Complex. */
  const OfficeDisciplines: seq<DisciplineChecks> := [
    DisciplineChecks("HVAC Systems", HvacChecks),
    DisciplineChecks("Electrical Systems", ElectricalChecks),
    DisciplineChecks("Mechanical Systems", MechanicalChecks)
  ]

  /** The checks whose status is "passed". */
  function PassedChecks(checks: seq<Check>): seq<Check>
  {
    Filter(checks, (c: Check) => c.status == "passed")
  }

  /** `calculateDisciplineProgress`: the passed share in whole percent, rounded
      half up. An empty list divides zero by zero and shows NaN, here `None`. */
  function DisciplineProgress(checks: seq<Check>): (r: Option<nat>)
    ensures r.None? <==> checks == []
    ensures r.Some? ==> r.value <= 100
  {
    if checks == [] then None
    else
      RoundedPercentRange(|PassedChecks(checks)|, |checks|);
      Some(RoundedPercent(|PassedChecks(checks)|, |checks|))
  }

  /** The rounded share is 100 when every check passed and 0 when none did. */
  lemma ProgressExtremes(checks: seq<Check>)
    requires checks != []
    ensures |PassedChecks(checks)| == |checks| ==> DisciplineProgress(checks) == Some(100)
    ensures |PassedChecks(checks)| == 0 ==> DisciplineProgress(checks) == Some(0)
  {
    RoundedPercentRange(|PassedChecks(checks)|, |checks|);
  }

  /** Rounding hides a single outstanding check only in lists of 200 or more:
      below that, 100 means every check passed and 0 means none did. */
  lemma ProgressExtremesExact(passed: nat, total: nat)
    requires 0 < total < 200 && passed <= total
    ensures RoundedPercent(passed, total) == 100 <==> passed == total
    ensures RoundedPercent(passed, total) == 0 <==> passed == 0
  {
    RoundedPercentRange(passed, total);
    var n := 200 * passed + total;
    if passed < total {
      DivBelow(n, 2 * total, 100);
    }
    if passed > 0 {
      DivAtLeast(n, 2 * total, 1);
    }
  }

  /** 199 of 200 passed shows 100, and 1 of 201 passed shows 0. */
  lemma ProgressRoundingExamples()
    ensures RoundedPercent(199, 200) == 100
    ensures RoundedPercent(1, 201) == 0
  {
  }

  /** Three of the five HVAC checks passed: 60 percent. */
  lemma HvacProgress()
    ensures DisciplineProgress(HvacChecks) == Some(60)
  {
    var keep := (c: Check) => c.status == "passed";
    var h := HvacChecks;
    assert h == [h[0]] + ([h[1]] + ([h[2]] + ([h[3]] + [h[4]])));
    FilterAppend([h[0]], [h[1]] + ([h[2]] + ([h[3]] + [h[4]])), keep);
    FilterAppend([h[1]], [h[2]] + ([h[3]] + [h[4]]), keep);
    FilterAppend([h[2]], [h[3]] + [h[4]], keep);
    FilterAppend([h[3]], [h[4]], keep);
  }

  /** Three of the five electrical checks passed: 60 percent. */
  lemma ElectricalProgress()
    ensures DisciplineProgress(ElectricalChecks) == Some(60)
  {
    var keep := (c: Check) => c.status == "passed";
    var e := ElectricalChecks;
    assert e == [e[0]] + ([e[1]] + ([e[2]] + ([e[3]] + [e[4]])));
    FilterAppend([e[0]], [e[1]] + ([e[2]] + ([e[3]] + [e[4]])), keep);
    FilterAppend([e[1]], [e[2]] + ([e[3]] + [e[4]]), keep);
    FilterAppend([e[2]], [e[3]] + [e[4]], keep);
    FilterAppend([e[3]], [e[4]], keep);
  }

  /** Two of the four mechanical checks passed: 50 percent. */
  lemma MechanicalProgress()
    ensures DisciplineProgress(MechanicalChecks) == Some(50)
  {
    var keep := (c: Check) => c.status == "passed";
    var m := MechanicalChecks;
    assert m == [m[0]] + ([m[1]] + ([m[2]] + [m[3]]));
    FilterAppend([m[0]], [m[1]] + ([m[2]] + [m[3]]), keep);
    FilterAppend([m[1]], [m[2]] + [m[3]], keep);
    FilterAppend([m[2]], [m[3]], keep);
  }

  datatype Analysis = Analysis(summary: string, findings: seq<string>, recommendations: seq<string>)

  const OfficeHvacAnalysis := Analysis(
    "Comprehensive HVAC system review for 15-story "
    + "office building",
    ["Energy efficiency calculations meet ASHRAE 90.1 standards",
     "Zone control systems properly designed for "
     + "occupancy patterns",
     "Equipment sizing verified for peak load conditions"],
    ["Consider variable refrigerant flow systems "
     + "for improved efficiency",
     "Implement smart building controls for optimal performance"])

  const WarehouseHvacAnalysis := Analysis(
    "Industrial HVAC system compliance review "
    + "for 50,000 sq ft warehouse",
    ["Insufficient clearance around main AHU unit",
     "Ventilation rates below required minimums "
     + "for warehouse operations"],
    ["Relocate equipment or modify layout design",
     "Increase outdoor air intake to meet ASHRAE 62.1 requirements"])

  const HospitalEmergencyAnalysis := Analysis(
    "Critical electrical systems review for new hospital wing",
    ["Emergency generator backup insufficient for critical loads",
     "Transfer switch testing procedures not specified"],
    ["Upgrade emergency generator capacity",
     "Implement comprehensive testing and maintenance protocols"])

  const OfficeWaterAnalysis := Analysis(
    "Plumbing and water system review for 8-story office building",
    ["Water pressure calculations show insufficient "
     + "pressure on upper floors",
     "Backflow prevention devices not properly specified"],
    ["Install booster pump system for upper floors",
     "Add appropriate backflow prevention assemblies"])

  const GenericSummaryPrefix := "Comprehensive design review for "

  /** The analysis of a check that has no entry of its own. */
  function GenericAnalysis(name: string): Analysis
  {
    Analysis(GenericSummaryPrefix + name,
             ["Design review completed", "Code compliance verified", "System performance analyzed"],
             ["Continue with construction documentation", "Schedule periodic design reviews"])
  }

  /** The four checks with an analysis of their own. */
  predicate HasOwnAnalysis(name: string)
  {
    name == OfficeHvac || name == WarehouseHvac || name == HospitalEmergency || name == OfficeWater
  }

  /** `getDetailedAnalysis`: the entry of the check's name, or the generic one. */
  function GetDetailedAnalysis(check: Check): Analysis
  {
    var n := check.name;
    if n == OfficeHvac then OfficeHvacAnalysis
    else if n == WarehouseHvac then WarehouseHvacAnalysis
    else if n == HospitalEmergency then HospitalEmergencyAnalysis
    else if n == OfficeWater then OfficeWaterAnalysis
    else GenericAnalysis(n)
  }

  /** Only the check's name matters, and a check without an entry gets the
      generic analysis, whose summary ends with the name and which has three
      findings and two recommendations. */
  lemma GenericAnalysisSpec(check: Check)
    requires !HasOwnAnalysis(check.name)
    ensures GetDetailedAnalysis(check) == GenericAnalysis(check.name)
    ensures EndsWith(GetDetailedAnalysis(check).summary, check.name)
    ensures |GetDetailedAnalysis(check).findings| == 3 && |GetDetailedAnalysis(check).recommendations| == 2
  {
    var s := GenericSummaryPrefix + check.name;
    assert s[|s| - |check.name|..] == check.name;
  }

  /** A check with an entry gets that entry whatever its other fields, and no
      entry is the generic analysis of any name. */
  lemma OwnAnalysisSpec(check: Check, other: string)
    requires HasOwnAnalysis(check.name)
    ensures GetDetailedAnalysis(check) != GenericAnalysis(other)
    ensures GetDetailedAnalysis(check) == GetDetailedAnalysis(Check(check.name, "", "", ""))
  {
    var a := GetDetailedAnalysis(check);
    assert |a.findings| != 3 || a.findings[0] != "Design review completed";
  }

  /** A generated action item. */
  datatype ActionItem = ActionItem(
    title: string,
    description: string,
    priority: string,
    assignee: string,
    dueDate: string,
    estimatedHours: nat,
    category: string,
    dependencies: seq<string>)

  const WaterActions: seq<ActionItem> := [
    ActionItem("Install Booster Pump System",
      "Design and install booster pump system to "
      + "ensure adequate water pressure on floors "
      + "6-8",
      "high", "Mechanical Engineering Team", "2024-02-15", 40, "Design Modification",
      ["Hydraulic calculations", "Equipment specifications"]),
    ActionItem("Specify Backflow Prevention Assemblies",
      "Update plumbing drawings to include appropriate "
      + "backflow prevention devices per local code",
      "high", "Plumbing Designer", "2024-02-10", 16, "Code Compliance",
      ["Code review", "Equipment selection"]),
    ActionItem("Revise Water System Calculations",
      "Recalculate water pressure throughout building "
      + "with proposed booster pump system",
      "medium", "Senior Mechanical Engineer", "2024-02-20", 24, "Analysis",
      ["Booster pump specifications"])
  ]

  const WarehouseActions: seq<ActionItem> := [
    ActionItem("Relocate Main AHU Unit",
      "Modify HVAC layout to provide required clearances "
      + "around main air handling unit",
      "high", "HVAC Design Team", "2024-02-12", 32, "Layout Revision",
      ["Space planning", "Ductwork rerouting"]),
    ActionItem("Increase Outdoor Air Intake",
      "Resize outdoor air intake to meet ASHRAE "
      + "62.1 ventilation requirements for warehouse "
      + "operations",
      "high", "HVAC Engineer", "2024-02-08", 20, "Code Compliance",
      ["Ventilation calculations", "Equipment sizing"])
  ]

  const HospitalActions: seq<ActionItem> := [
    ActionItem("Upgrade Emergency Generator Capacity",
      "Specify larger emergency generator to handle "
      + "all critical electrical loads during power "
      + "outage",
      "critical", "Electrical Engineering Team", "2024-02-05", 48, "Equipment Upgrade",
      ["Load calculations", "Generator specifications"]),
    ActionItem("Develop Testing Protocols",
      "Create comprehensive testing and maintenance "
      + "procedures for emergency power systems",
      "medium", "Electrical Engineer", "2024-02-18", 16, "Documentation",
      ["Equipment manuals", "Code requirements"])
  ]

  const ReviewTitle := "Review Design Requirements"

  /** The single item generated for a check without a template. */
  function ReviewAction(name: string): ActionItem
  {
    ActionItem(ReviewTitle,
      "Comprehensive review of " + name + " design requirements and code compliance",
      "medium", "Design Team", "2024-02-15", 24, "Review",
      ["Design documents", "Code analysis"])
  }

  /** The three checks with an action template. */
  predicate HasTemplate(name: string)
  {
    name == OfficeWater || name == WarehouseHvac || name == HospitalEmergency
  }

  /** The lookup in `generateActionItems`. */
  function ActionItemsFor(check: Check): seq<ActionItem>
  {
    var n := check.name;
    if n == OfficeWater then WaterActions
    else if n == WarehouseHvac then WarehouseActions
    else if n == HospitalEmergency then HospitalActions
    else [ReviewAction(n)]
  }

  /** The sum of the items' estimated hours (the `reduce` of the effort line). */
  function TotalEffort(actions: seq<ActionItem>): nat
  {
    if actions == [] then 0 else actions[0].estimatedHours + TotalEffort(actions[1..])
  }

  /** The effort of a concatenation is the sum of the efforts. */
  lemma {:induction false} TotalEffortAppend(xs: seq<ActionItem>, ys: seq<ActionItem>)
    ensures TotalEffort(xs + ys) == TotalEffort(xs) + TotalEffort(ys)
  {
    if xs == [] {
      assert xs + ys == ys;
    } else {
      assert (xs + ys)[1..] == xs[1..] + ys;
      TotalEffortAppend(xs[1..], ys);
    }
  }

  /** A check without a template gets one review item of 24 hours whose
      description names the check. */
  lemma ReviewActionSpec(check: Check)
    requires !HasTemplate(check.name)
    ensures |ActionItemsFor(check)| == 1 && ActionItemsFor(check)[0].title == ReviewTitle
    ensures Contains(ActionItemsFor(check)[0].description, check.name)
    ensures TotalEffort(ActionItemsFor(check)) == 24
  {
    var pre := "Comprehensive review of ";
    var d := ActionItemsFor(check)[0].description;
    assert d[|pre|..][..|check.name|] == check.name;
    assert StartsWith(d[|pre|..], check.name);
    ContainsAt(d, check.name, |pre|);
  }

  /** The templates hold three, two and two items of 80, 52 and 64 hours in
      all, every item of them is a different one from the review item, and
      every lookup yields at least one item. */
  lemma TemplatesSpec(check: Check)
    ensures |ActionItemsFor(check)| >= 1
    ensures check.name == OfficeWater ==> |ActionItemsFor(check)| == 3 && TotalEffort(ActionItemsFor(check)) == 80
    ensures check.name == WarehouseHvac ==> |ActionItemsFor(check)| == 2 && TotalEffort(ActionItemsFor(check)) == 52
    ensures check.name == HospitalEmergency ==> |ActionItemsFor(check)| == 2 && TotalEffort(ActionItemsFor(check)) == 64
    ensures HasTemplate(check.name) ==> forall k | 0 <= k < |ActionItemsFor(check)| :: ActionItemsFor(check)[k].title != ReviewTitle
  {
    var w := WaterActions;
    assert TotalEffort(w[2..]) == 24 by { assert w[2..][1..] == []; }
    assert TotalEffort(w[1..]) == 40 by { assert w[1..][1..] == w[2..]; }
    var h := WarehouseActions;
    assert TotalEffort(h[1..]) == 20 by { assert h[1..][1..] == []; }
    var e := HospitalActions;
    assert TotalEffort(e[1..]) == 16 by { assert e[1..][1..] == []; }
  }

  /** The indices 0 .. n-1. */
  function Indices(n: nat): (r: set<int>)
    ensures forall i :: i in r <==> 0 <= i < n
  {
    if n == 0 then {} else Indices(n - 1) + {n - 1}
  }

  /** There are n of them. */
  lemma {:induction false} IndicesCard(n: nat)
    ensures |Indices(n)| == n
  {
    if n > 0 {
      IndicesCard(n - 1);
      var prev := Indices(n - 1);
      assert n - 1 !in prev;
      assert Indices(n) == prev + {n - 1};
    }
  }

  /** The details view. Each awaited delay is split into the call that
      requests it and the continuation that runs after it: `generating` holds
      the checks whose action items are still being generated, and
      `creatingAll` the list lengths captured by pending "create all" clicks.
      The task sets are not cleared when new items are generated, so they can
      name indices of an earlier list. */
  class Details {
    var selectedCheck: Option<Check>
    var isDetailsOpen: bool
    var isActionItemOpen: bool
    var generatedActions: seq<ActionItem>
    var isGenerating: bool
    var createdTasks: set<int>
    var assignedTasks: set<int>
    var isCreatingTasks: bool
    var showSuccessMessage: bool
    var generating: seq<Check>
    var creatingAll: seq<nat>

    /** Every assigned item was created, and no index is negative. */
    predicate Valid()
      reads this
    {
      assignedTasks <= createdTasks && forall i | i in createdTasks :: i >= 0
    }

    constructor()
      ensures Valid()
      ensures selectedCheck == None && !isDetailsOpen && !isActionItemOpen
      ensures generatedActions == [] && !isGenerating
      ensures createdTasks == {} && assignedTasks == {}
      ensures !isCreatingTasks && !showSuccessMessage
      ensures generating == [] && creatingAll == []
    {
      selectedCheck := None;
      isDetailsOpen := false;
      isActionItemOpen := false;
      generatedActions := [];
      isGenerating := false;
      createdTasks := {};
      assignedTasks := {};
      isCreatingTasks := false;
      showSuccessMessage := false;
      generating := [];
      creatingAll := [];
    }

    /** `handleViewDetails`. */
    method ViewDetails(check: Check)
      modifies this
      ensures selectedCheck == Some(check) && isDetailsOpen
      ensures isActionItemOpen == old(isActionItemOpen) && generatedActions == old(generatedActions)
      ensures isGenerating == old(isGenerating) && generating == old(generating)
      ensures createdTasks == old(createdTasks) && assignedTasks == old(assignedTasks)
      ensures isCreatingTasks == old(isCreatingTasks) && showSuccessMessage == old(showSuccessMessage)
      ensures creatingAll == old(creatingAll)
    {
      selectedCheck := Some(check);
      isDetailsOpen := true;
    }

    /** `handleCreateActionItem` up to the delay: the dialog opens and
        generation starts for `check`. */
    method CreateActionItem(check: Check)
      modifies this
      ensures isActionItemOpen && isGenerating
      ensures generating == old(generating) + [check]
      ensures generatedActions == old(generatedActions)
      ensures createdTasks == old(createdTasks) && assignedTasks == old(assignedTasks)
      ensures selectedCheck == old(selectedCheck) && isDetailsOpen == old(isDetailsOpen)
      ensures isCreatingTasks == old(isCreatingTasks) && showSuccessMessage == old(showSuccessMessage)
      ensures creatingAll == old(creatingAll)
    {
      isActionItemOpen := true;
      isGenerating := true;
      generating := generating + [check];
    }

    /** The continuation of generation `k`: the looked-up items replace the
        list and the flag is cleared; the task sets are left as they are. */
    method GenerationDone(k: nat)
      requires k < |generating|
      modifies this
      ensures generatedActions == ActionItemsFor(old(generating[k])) && !isGenerating
      ensures generating == old(generating[..k] + generating[k + 1..])
      ensures createdTasks == old(createdTasks) && assignedTasks == old(assignedTasks)
      ensures isActionItemOpen == old(isActionItemOpen)
      ensures selectedCheck == old(selectedCheck) && isDetailsOpen == old(isDetailsOpen)
      ensures isCreatingTasks == old(isCreatingTasks) && showSuccessMessage == old(showSuccessMessage)
      ensures creatingAll == old(creatingAll)
    {
      generatedActions := ActionItemsFor(generating[k]);
      isGenerating := false;
      generating := generating[..k] + generating[k + 1..];
    }

    /** `handleAssignTask`: the index joins both sets, which otherwise keep
        their members; assigning twice is assigning once. */
    method AssignTask(actionIndex: nat)
      requires Valid()
      modifies this
      ensures Valid()
      ensures assignedTasks == old(assignedTasks) + {actionIndex}
      ensures createdTasks == old(createdTasks) + {actionIndex}
      ensures actionIndex in old(assignedTasks) ==> assignedTasks == old(assignedTasks) && createdTasks == old(createdTasks)
      ensures generatedActions == old(generatedActions) && isGenerating == old(isGenerating)
      ensures generating == old(generating) && creatingAll == old(creatingAll)
      ensures isCreatingTasks == old(isCreatingTasks) && showSuccessMessage == old(showSuccessMessage)
      ensures selectedCheck == old(selectedCheck) && isDetailsOpen == old(isDetailsOpen)
      ensures isActionItemOpen == old(isActionItemOpen)
    {
      assignedTasks := assignedTasks + {actionIndex};
      createdTasks := createdTasks + {actionIndex};
    }

    /** `handleCreateAllTasks` up to the delay; the continuation uses the
        list length seen at the click. */
    method CreateAllTasks()
      modifies this
      ensures isCreatingTasks
      ensures creatingAll == old(creatingAll) + [|generatedActions|]
      ensures createdTasks == old(createdTasks) && assignedTasks == old(assignedTasks)
      ensures generatedActions == old(generatedActions) && isGenerating == old(isGenerating)
      ensures generating == old(generating) && showSuccessMessage == old(showSuccessMessage)
      ensures selectedCheck == old(selectedCheck) && isDetailsOpen == old(isDetailsOpen)
      ensures isActionItemOpen == old(isActionItemOpen)
    {
      isCreatingTasks := true;
      creatingAll := creatingAll + [|generatedActions|];
    }

    /** The continuation of "create all" `k`: both sets become exactly the
        indices of the list seen at the click, the flag clears and the
        success message shows. */
    method CreateAllDone(k: nat)
      requires Valid() && k < |creatingAll|
      modifies this
      ensures Valid()
      ensures createdTasks == Indices(old(creatingAll[k])) && assignedTasks == createdTasks
      ensures |createdTasks| == old(creatingAll[k])
      ensures !isCreatingTasks && showSuccessMessage
      ensures creatingAll == old(creatingAll[..k] + creatingAll[k + 1..])
      ensures generatedActions == old(generatedActions) && isGenerating == old(isGenerating)
      ensures generating == old(generating)
      ensures selectedCheck == old(selectedCheck) && isDetailsOpen == old(isDetailsOpen)
      ensures isActionItemOpen == old(isActionItemOpen)
    {
      var n := creatingAll[k];
      IndicesCard(n);
      createdTasks := Indices(n);
      assignedTasks := Indices(n);
      isCreatingTasks := false;
      showSuccessMessage := true;
      creatingAll := creatingAll[..k] + creatingAll[k + 1..];
    }

    /** The timer that hides the success message. */
    method HideSuccess()
      modifies this
      ensures !showSuccessMessage
      ensures createdTasks == old(createdTasks) && assignedTasks == old(assignedTasks)
      ensures generatedActions == old(generatedActions) && isGenerating == old(isGenerating)
      ensures isCreatingTasks == old(isCreatingTasks)
      ensures generating == old(generating) && creatingAll == old(creatingAll)
      ensures selectedCheck == old(selectedCheck) && isDetailsOpen == old(isDetailsOpen)
      ensures isActionItemOpen == old(isActionItemOpen)
    {
      showSuccessMessage := false;
    }

    /** The "create all" button is disabled while creating or once the
        created set has as many members as the list has items. */
    predicate CreateAllDisabled()
      reads this
    {
      isCreatingTasks || |createdTasks| == |generatedActions|
    }

    /** Clicking "create all": nothing happens while the button is disabled. */
    method ClickCreateAll()
      modifies this
      ensures old(CreateAllDisabled()) ==>
                isCreatingTasks == old(isCreatingTasks) && creatingAll == old(creatingAll)
      ensures !old(CreateAllDisabled()) ==>
                isCreatingTasks && creatingAll == old(creatingAll) + [|generatedActions|]
      ensures createdTasks == old(createdTasks) && assignedTasks == old(assignedTasks)
      ensures generatedActions == old(generatedActions) && isGenerating == old(isGenerating)
      ensures generating == old(generating) && showSuccessMessage == old(showSuccessMessage)
      ensures selectedCheck == old(selectedCheck) && isDetailsOpen == old(isDetailsOpen)
      ensures isActionItemOpen == old(isActionItemOpen)
    {
      if !CreateAllDisabled() {
        CreateAllTasks();
      }
    }

    /** The details dialog's `onOpenChange` and its Close button. */
    method SetDetailsOpen(open: bool)
      modifies this
      ensures isDetailsOpen == open
      ensures selectedCheck == old(selectedCheck) && isActionItemOpen == old(isActionItemOpen)
      ensures generatedActions == old(generatedActions) && isGenerating == old(isGenerating)
      ensures createdTasks == old(createdTasks) && assignedTasks == old(assignedTasks)
      ensures isCreatingTasks == old(isCreatingTasks) && showSuccessMessage == old(showSuccessMessage)
      ensures generating == old(generating) && creatingAll == old(creatingAll)
    {
      isDetailsOpen := open;
    }

    /** The action-item dialog's `onOpenChange` and its Close button; closing it
        leaves generation and the task sets as they are. */
    method SetActionItemOpen(open: bool)
      modifies this
      ensures isActionItemOpen == open
      ensures selectedCheck == old(selectedCheck) && isDetailsOpen == old(isDetailsOpen)
      ensures generatedActions == old(generatedActions) && isGenerating == old(isGenerating)
      ensures createdTasks == old(createdTasks) && assignedTasks == old(assignedTasks)
      ensures isCreatingTasks == old(isCreatingTasks) && showSuccessMessage == old(showSuccessMessage)
      ensures generating == old(generating) && creatingAll == old(creatingAll)
    {
      isActionItemOpen := open;
    }

    /** Whether item `index` shows as assigned. */
    predicate ShownAssigned(index: nat)
      reads this
    {
      index in assignedTasks
    }
  }
}
