/** The project setup form: seven text fields and two upload lists, one for
    CAD drawings and one for building-code documents. An upload here has no
    processing stage: the tick that brings the accumulator to 100 also marks
    the file completed and stops its interval. */
module ProjectSetupForm {
  import opened Common
  import Uploads

  /** The `type` argument that picks the list. */
  datatype ListKind = Cad | BuildingCode

  /** "error" is declared but never assigned. */
  datatype SetupStatus = Uploading | Completed

  datatype SetupFile = SetupFile(
    id: string,
    name: string,
    size: int,
    kind: ListKind,
    status: SetupStatus,
    progress: real)

  datatype ProjectData = ProjectData(
    name: string,
    location: string,
    architect: string,
    client: string,
    projectType: string,
    discipline: string,
    description: string)

  const EmptyData := ProjectData("", "", "", "", "", "", "")

  datatype Field = Name | Location | Architect | Client | ProjectType | DisciplineField | Description

  /** `{ ...prev, [field]: value }`. */
  function WithField(d: ProjectData, field: Field, value: string): (r: ProjectData)
    ensures field == Name ==> r == d.(name := value)
    ensures field == Location ==> r == d.(location := value)
    ensures field == Architect ==> r == d.(architect := value)
    ensures field == Client ==> r == d.(client := value)
    ensures field == ProjectType ==> r == d.(projectType := value)
    ensures field == DisciplineField ==> r == d.(discipline := value)
    ensures field == Description ==> r == d.(description := value)
  {
    match field
    case Name => d.(name := value)
    case Location => d.(location := value)
    case Architect => d.(architect := value)
    case Client => d.(client := value)
    case ProjectType => d.(projectType := value)
    case DisciplineField => d.(discipline := value)
    case Description => d.(description := value)
  }

  /** `isFormValid`: five required fields and at least one CAD file. */
  predicate IsFormValid(d: ProjectData, cadFiles: seq<SetupFile>)
  {
    d.name != "" && d.location != "" && d.architect != "" && d.projectType != ""
    && d.discipline != "" && |cadFiles| > 0
  }

  /** Client and description never matter, nor do the CAD files themselves,
      only that there is one; the building-code list is not an argument at all. */
  lemma FormValidIgnores(d: ProjectData, cad: seq<SetupFile>, client: string, description: string, other: seq<SetupFile>)
    requires |other| > 0 <==> |cad| > 0
    ensures IsFormValid(d, cad) == IsFormValid(d.(client := client, description := description), other)
  {
  }

  /** An empty required field, or an empty CAD list, makes the form invalid. */
  lemma FormInvalidWhenMissing(d: ProjectData, cad: seq<SetupFile>, field: Field)
    requires field !in {Client, Description}
    ensures !IsFormValid(WithField(d, field, ""), cad)
    ensures !IsFormValid(d, [])
  {
  }

  /** The fresh form is invalid; filling the five required fields and adding a CAD file makes it valid. */
  lemma FormValidExample(f: SetupFile)
    ensures !IsFormValid(EmptyData, [f])
    ensures IsFormValid(ProjectData("Tower", "Oslo", "A. Architect", "", "Office", "HVAC", ""), [f])
  {
  }

  /** An interval: the list it writes to and its accumulator. */
  datatype Interval = Interval(kind: ListKind, acc: real)

  /** A file agrees with the running intervals: an uploading file has one of its
      own list whose accumulator (below 100) is its progress; a completed file has
      none and progress 100. */
  predicate FileInStep(f: SetupFile, kind: ListKind, ticking: map<string, Interval>)
  {
    f.kind == kind && 0.0 <= f.progress <= 100.0 &&
    match f.status
    case Uploading =>
      f.id in ticking && ticking[f.id].kind == kind && f.progress == ticking[f.id].acc
      && ticking[f.id].acc < 100.0
    case Completed => f.id !in ticking && f.progress == 100.0
  }

  predicate ListInStep(fs: seq<SetupFile>, kind: ListKind, ticking: map<string, Interval>)
  {
    forall k | 0 <= k < |fs| :: FileInStep(fs[k], kind, ticking)
  }

  function NewFiles(files: seq<Uploads.FileInput>, kind: ListKind, ids: seq<string>): (r: seq<SetupFile>)
    requires |ids| == |files|
    ensures |r| == |files|
    ensures forall i | 0 <= i < |files| :: r[i] == SetupFile(ids[i], files[i].name, files[i].size, kind, Uploading, 0.0)
  {
    seq(|files|, i requires 0 <= i < |files| => SetupFile(ids[i], files[i].name, files[i].size, kind, Uploading, 0.0))
  }

  /** `updateFiles`: the clamped accumulator into the files with the id. */
  function WithProgress(fs: seq<SetupFile>, id: string, p: real): (r: seq<SetupFile>)
    ensures |r| == |fs|
    ensures forall k | 0 <= k < |fs| :: r[k] == (if fs[k].id == id then fs[k].(progress := p) else fs[k])
  {
    seq(|fs|, k requires 0 <= k < |fs| => if fs[k].id == id then fs[k].(progress := p) else fs[k])
  }

  /** `completeFiles`: the files with the id become completed at 100. */
  function Completing(fs: seq<SetupFile>, id: string): (r: seq<SetupFile>)
    ensures |r| == |fs|
    ensures forall k | 0 <= k < |fs| ::
              r[k] == (if fs[k].id == id then fs[k].(status := Completed, progress := 100.0) else fs[k])
  {
    seq(|fs|, k requires 0 <= k < |fs| =>
      if fs[k].id == id then fs[k].(status := Completed, progress := 100.0) else fs[k])
  }

  /** Both writes of one tick to the list of the interval. */
  function TickedList(fs: seq<SetupFile>, id: string, acc: real): seq<SetupFile>
  {
    var written := WithProgress(fs, id, Uploads.Clamp(acc));
    if acc >= 100.0 then Completing(written, id) else written
  }

  /** The intervals after a tick of `id` that brings its accumulator to `acc`. */
  function TickedIntervals(ticking: map<string, Interval>, id: string, acc: real): map<string, Interval>
    requires id in ticking
  {
    if acc >= 100.0 then ticking - {id} else ticking[id := ticking[id].(acc := acc)]
  }

  /** A tick keeps its own list in step, changes only the files with its id
      there, stores at most 100, and completes a file only from uploading. */
  lemma TickedListSpec(fs: seq<SetupFile>, kind: ListKind, ticking: map<string, Interval>, id: string, delta: real)
    requires ListInStep(fs, kind, ticking) && id in ticking && ticking[id].kind == kind && 0.0 <= delta
    ensures ListInStep(TickedList(fs, id, ticking[id].acc + delta), kind,
                       TickedIntervals(ticking, id, ticking[id].acc + delta))
    ensures |TickedList(fs, id, ticking[id].acc + delta)| == |fs|
    ensures forall k | 0 <= k < |fs| ::
              var after := TickedList(fs, id, ticking[id].acc + delta)[k];
              after.id == fs[k].id && after.name == fs[k].name && after.progress <= 100.0
              && (fs[k].id != id ==> after == fs[k])
              && (fs[k].id == id ==> fs[k].status == Uploading)
              && (after.status == Completed ==> after.progress == 100.0)
  {
    var acc := ticking[id].acc + delta;
    var rs := TickedList(fs, id, acc);
    var t' := TickedIntervals(ticking, id, acc);
    forall k | 0 <= k < |fs|
      ensures FileInStep(rs[k], kind, t')
      ensures fs[k].id == id ==> fs[k].status == Uploading
    {
      if fs[k].id == id {
        assert FileInStep(fs[k], kind, ticking);
        assert fs[k].status == Uploading;
        assert 0.0 <= ticking[id].acc;
      }
    }
  }

  /** A tick leaves the other list as it is and keeps it in step. */
  lemma OtherListUntouched(fs: seq<SetupFile>, kind: ListKind, ticking: map<string, Interval>, id: string, acc: real)
    requires ListInStep(fs, kind, ticking) && id in ticking && ticking[id].kind != kind
    ensures ListInStep(fs, kind, TickedIntervals(ticking, id, acc))
  {
    forall k | 0 <= k < |fs| ensures FileInStep(fs[k], kind, TickedIntervals(ticking, id, acc)) {
      assert FileInStep(fs[k], kind, ticking);
    }
  }

  function Without(fs: seq<SetupFile>, id: string): seq<SetupFile>
  {
    Filter(fs, (f: SetupFile) => f.id != id)
  }

  /** Removal keeps exactly the files with another id, in order, and keeps them in step. */
  lemma WithoutSpec(fs: seq<SetupFile>, kind: ListKind, ticking: map<string, Interval>, id: string)
    ensures forall f :: f in Without(fs, id) <==> f in fs && f.id != id
    ensures IsSubsequence(Without(fs, id), fs)
    ensures ListInStep(fs, kind, ticking) ==> ListInStep(Without(fs, id), kind, ticking)
  {
    var keep := (f: SetupFile) => f.id != id;
    forall f ensures f in Without(fs, id) <==> f in fs && f.id != id {
      FilterMembership(fs, keep, f);
    }
    FilterIsSubsequence(fs, keep);
    var rs := Without(fs, id);
    if ListInStep(fs, kind, ticking) {
      forall k | 0 <= k < |rs| ensures FileInStep(rs[k], kind, ticking) {
        assert rs[k] in fs;
        var j :| 0 <= j < |fs| && fs[j] == rs[k];
      }
    }
  }

  /** Ids for a batch: distinct and unknown to the intervals and to both lists. */
  predicate FreshIds(ids: seq<string>, ticking: map<string, Interval>, a: seq<SetupFile>, b: seq<SetupFile>)
  {
    (forall i, j | 0 <= i < j < |ids| :: ids[i] != ids[j])
    && (forall i | 0 <= i < |ids| :: ids[i] !in ticking)
    && (forall i, k | 0 <= i < |ids| && 0 <= k < |a| :: a[k].id != ids[i])
    && (forall i, k | 0 <= i < |ids| && 0 <= k < |b| :: b[k].id != ids[i])
  }

  /** New intervals for the batch, each at 0 and writing to `kind`. */
  function Started(ticking: map<string, Interval>, ids: seq<string>, kind: ListKind): (r: map<string, Interval>)
    ensures forall i | 0 <= i < |ids| :: ids[i] in r && r[ids[i]] == Interval(kind, 0.0)
    ensures forall x | x !in ids :: (x in r <==> x in ticking) && (x in ticking ==> r[x] == ticking[x])
  {
    ticking + map x | x in ids :: Interval(kind, 0.0)
  }

  lemma StartedKeepsList(fs: seq<SetupFile>, kind: ListKind, ticking: map<string, Interval>, ids: seq<string>, newKind: ListKind)
    requires ListInStep(fs, kind, ticking)
    requires forall i, k | 0 <= i < |ids| && 0 <= k < |fs| :: fs[k].id != ids[i]
    ensures ListInStep(fs, kind, Started(ticking, ids, newKind))
  {
    forall k | 0 <= k < |fs| ensures FileInStep(fs[k], kind, Started(ticking, ids, newKind)) {
      assert FileInStep(fs[k], kind, ticking);
      assert fs[k].id !in ids;
    }
  }

  class Form {
    var data: ProjectData
    var cadFiles: seq<SetupFile>
    var buildingCodeFiles: seq<SetupFile>
    var isSubmitting: bool
    var ticking: map<string, Interval>

    predicate Valid()
      reads this
    {
      ListInStep(cadFiles, Cad, ticking) && ListInStep(buildingCodeFiles, BuildingCode, ticking)
    }

    constructor ()
      ensures Valid() && data == EmptyData && cadFiles == [] && buildingCodeFiles == []
      ensures !isSubmitting && ticking == map[]
    {
      data := EmptyData;
      cadFiles := [];
      buildingCodeFiles := [];
      isSubmitting := false;
      ticking := map[];
    }

    function FormValid(): bool
      reads this
    {
      IsFormValid(data, cadFiles)
    }

    /** `handleInputChange`: only the named field changes. */
    method HandleInputChange(field: Field, value: string)
      modifies this
      ensures data == WithField(old(data), field, value)
      ensures cadFiles == old(cadFiles) && buildingCodeFiles == old(buildingCodeFiles)
      ensures ticking == old(ticking) && isSubmitting == old(isSubmitting)
    {
      data := WithField(data, field, value);
    }

    /** `handleFileUpload`: nothing for a null list; otherwise every file goes,
        uploading at 0, into the list `kind` names, and the other list is kept. */
    method HandleFileUpload(files: Option<seq<Uploads.FileInput>>, kind: ListKind, ids: seq<string>)
      requires Valid()
      requires files.Some? ==> |ids| == |files.value| && FreshIds(ids, ticking, cadFiles, buildingCodeFiles)
      modifies this
      ensures Valid()
      ensures files.None? ==> cadFiles == old(cadFiles) && buildingCodeFiles == old(buildingCodeFiles)
                              && ticking == old(ticking)
      ensures files.Some? && kind == Cad ==>
                cadFiles == old(cadFiles) + NewFiles(files.value, Cad, ids)
                && buildingCodeFiles == old(buildingCodeFiles)
      ensures files.Some? && kind == BuildingCode ==>
                buildingCodeFiles == old(buildingCodeFiles) + NewFiles(files.value, BuildingCode, ids)
                && cadFiles == old(cadFiles)
      ensures files.Some? ==> ticking == Started(old(ticking), ids, kind)
      ensures data == old(data) && isSubmitting == old(isSubmitting)
    {
      if files.None? {
        return;
      }
      var added := NewFiles(files.value, kind, ids);
      var t' := Started(ticking, ids, kind);
      StartedKeepsList(cadFiles, Cad, ticking, ids, kind);
      StartedKeepsList(buildingCodeFiles, BuildingCode, ticking, ids, kind);
      if kind == Cad {
        assert ListInStep(cadFiles + added, Cad, t') by {
          forall k | 0 <= k < |cadFiles + added| ensures FileInStep((cadFiles + added)[k], Cad, t') {
            if k >= |cadFiles| {
              assert (cadFiles + added)[k] == added[k - |cadFiles|];
            } else {
              assert (cadFiles + added)[k] == cadFiles[k];
            }
          }
        }
        cadFiles := cadFiles + added;
      } else {
        assert ListInStep(buildingCodeFiles + added, BuildingCode, t') by {
          forall k | 0 <= k < |buildingCodeFiles + added|
            ensures FileInStep((buildingCodeFiles + added)[k], BuildingCode, t')
          {
            if k >= |buildingCodeFiles| {
              assert (buildingCodeFiles + added)[k] == added[k - |buildingCodeFiles|];
            } else {
              assert (buildingCodeFiles + added)[k] == buildingCodeFiles[k];
            }
          }
        }
        buildingCodeFiles := buildingCodeFiles + added;
      }
      ticking := t';
    }

    /** One run of the interval of `id`, which draws `delta` in [0, 20): only
        the list of that interval is written. */
    method Tick(id: string, delta: real)
      requires Valid() && id in ticking && 0.0 <= delta < 20.0
      modifies this
      ensures Valid()
      ensures var acc := old(ticking)[id].acc + delta;
              ticking == TickedIntervals(old(ticking), id, acc)
              && (old(ticking)[id].kind == Cad ==>
                    cadFiles == TickedList(old(cadFiles), id, acc) && buildingCodeFiles == old(buildingCodeFiles))
              && (old(ticking)[id].kind == BuildingCode ==>
                    (buildingCodeFiles == TickedList(old(buildingCodeFiles), id, acc) && cadFiles == old(cadFiles)))
      ensures data == old(data) && isSubmitting == old(isSubmitting)
    {
      var kind := ticking[id].kind;
      var acc := ticking[id].acc + delta;
      if kind == Cad {
        TickedListSpec(cadFiles, Cad, ticking, id, delta);
        OtherListUntouched(buildingCodeFiles, BuildingCode, ticking, id, acc);
        cadFiles := TickedList(cadFiles, id, acc);
      } else {
        TickedListSpec(buildingCodeFiles, BuildingCode, ticking, id, delta);
        OtherListUntouched(cadFiles, Cad, ticking, id, acc);
        buildingCodeFiles := TickedList(buildingCodeFiles, id, acc);
      }
      ticking := TickedIntervals(ticking, id, acc);
    }

    /** `removeFile`: only that id, only from the named list. */
    method RemoveFile(id: string, kind: ListKind)
      requires Valid()
      modifies this
      ensures Valid()
      ensures kind == Cad ==> cadFiles == Without(old(cadFiles), id) && buildingCodeFiles == old(buildingCodeFiles)
      ensures kind == BuildingCode ==>
                buildingCodeFiles == Without(old(buildingCodeFiles), id) && cadFiles == old(cadFiles)
      ensures ticking == old(ticking) && data == old(data) && isSubmitting == old(isSubmitting)
    {
      if kind == Cad {
        WithoutSpec(cadFiles, Cad, ticking, id);
        cadFiles := Without(cadFiles, id);
      } else {
        WithoutSpec(buildingCodeFiles, BuildingCode, ticking, id);
        buildingCodeFiles := Without(buildingCodeFiles, id);
      }
    }

    /** `handleSubmit` raises the flag; its timeout lowers it again. */
    method Submit()
      modifies this
      ensures isSubmitting
      ensures data == old(data) && cadFiles == old(cadFiles) && buildingCodeFiles == old(buildingCodeFiles)
      ensures ticking == old(ticking)
    {
      isSubmitting := true;
    }

    /** The "Create Project" button, disabled unless the form is valid and no
        submission is under way: a click starts a submission only then, so
        every submission started from it was of a valid form. */
    method ClickSubmit()
      modifies this
      ensures isSubmitting == (old(isSubmitting) || old(FormValid()))
      ensures isSubmitting && !old(isSubmitting) ==> IsFormValid(data, cadFiles)
      ensures data == old(data) && cadFiles == old(cadFiles) && buildingCodeFiles == old(buildingCodeFiles)
      ensures ticking == old(ticking)
    {
      if FormValid() && !isSubmitting {
        Submit();
      }
    }

    method SubmitDone()
      modifies this
      ensures !isSubmitting
      ensures data == old(data) && cadFiles == old(cadFiles) && buildingCodeFiles == old(buildingCodeFiles)
      ensures ticking == old(ticking)
    {
      isSubmitting := false;
    }
  }
}
