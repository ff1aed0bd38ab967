/** The upload page: a list of tracked DXF uploads. Rejected files are dropped
    without a word, accepted ones are appended and driven through
    uploading, processing and completed by their timers, and any entry can be
    removed. Removing an entry does not stop its timers. */
module FileUploadArea {
  import opened Common
  import opened Text
  import opened Uploads

  datatype UploadRecord = UploadRecord(
    id: string,
    name: string,
    size: int,
    mimeType: string,
    status: FileStatus,
    progress: real)

  const DefaultMimeType := "application/dxf"

  /** `file.type || "application/dxf"`: an empty browser type is replaced. */
  function MimeTypeOf(browserType: string): (r: string)
    ensures browserType == "" ==> r == DefaultMimeType
    ensures browserType != "" ==> r == browserType
  {
    if browserType == "" then DefaultMimeType else browserType
  }

  /** The records made for the accepted files, the i-th with the i-th id. */
  function NewRecords(accepted: seq<FileInput>, ids: seq<string>): (r: seq<UploadRecord>)
    requires |ids| == |accepted|
    ensures |r| == |accepted|
  {
    seq(|accepted|, i requires 0 <= i < |accepted| =>
      UploadRecord(ids[i], accepted[i].name, accepted[i].size, MimeTypeOf(accepted[i].mimeType), Uploading, 0.0))
  }

  /** Every new record starts uploading at 0 with its file's name and size, in input order. */
  lemma NewRecordsSpec(inputs: seq<FileInput>, ids: seq<string>)
    requires |ids| == |AcceptedFiles(inputs)|
    ensures forall i | 0 <= i < |ids| ::
              var r := NewRecords(AcceptedFiles(inputs), ids)[i]; var f := AcceptedFiles(inputs)[i];
              r.id == ids[i] && r.name == f.name && r.size == f.size && IsAccepted(f)
              && r.status == Uploading && r.progress == 0.0
              && (f.mimeType == "" ==> r.mimeType == DefaultMimeType)
    ensures |NewRecords(AcceptedFiles(inputs), ids)| <= |inputs|
  {
    AcceptedFilesSpec(inputs);
  }

  /** What one timer callback writes into a matching record. */
  datatype Write = SetProgress(p: real) | StartProcessing | Complete

  function Applied(r: UploadRecord, w: Write): UploadRecord
  {
    match w
    case SetProgress(p) => r.(progress := p)
    case StartProcessing => r.(status := Processing, progress := 100.0)
    case Complete => r.(status := Completed)
  }

  /** `prev.map(file => file.id === id ? write(file) : file)`. */
  function Written(fs: seq<UploadRecord>, id: string, w: Write): (r: seq<UploadRecord>)
    ensures |r| == |fs|
    ensures forall k | 0 <= k < |fs| :: r[k] == (if fs[k].id == id then Applied(fs[k], w) else fs[k])
  {
    seq(|fs|, k requires 0 <= k < |fs| => if fs[k].id == id then Applied(fs[k], w) else fs[k])
  }

  /** Both writes of one interval tick. */
  function Ticked(fs: seq<UploadRecord>, t: Timers, id: string, delta: real): seq<UploadRecord>
    requires id in t.ticking
  {
    var acc := Advanced(t, id, delta);
    var progressed := Written(fs, id, SetProgress(Clamp(acc)));
    if acc >= 100.0 then Written(progressed, id, StartProcessing) else progressed
  }

  /** `removeFile`: every record with another id, in order. */
  function Removed(fs: seq<UploadRecord>, id: string): seq<UploadRecord>
  {
    Filter(fs, (r: UploadRecord) => r.id != id)
  }

  /** Every record agrees with the timers. */
  predicate AllInStep(fs: seq<UploadRecord>, t: Timers)
  {
    forall k | 0 <= k < |fs| :: InStep(fs[k].id, fs[k].status, fs[k].progress, t)
  }

  /** Ids for a batch: distinct, unknown to the timers and to every record. */
  predicate FreshIds(ids: seq<string>, fs: seq<UploadRecord>, t: Timers)
  {
    (forall i, j | 0 <= i < j < |ids| :: ids[i] != ids[j])
    && (forall i | 0 <= i < |ids| :: ids[i] !in t.ticking && ids[i] !in t.finishing)
    && (forall i, k | 0 <= i < |ids| && 0 <= k < |fs| :: fs[k].id != ids[i])
  }

  /** A tick changes only the records with the ticked id, never stores more than
      100, moves a status only forward, and keeps all records in step. */
  lemma TickedSpec(fs: seq<UploadRecord>, t: Timers, id: string, delta: real)
    requires AllInStep(fs, t) && id in t.ticking && 0.0 <= delta
    ensures AllInStep(Ticked(fs, t, id, delta), AfterTick(t, id, delta))
    ensures |Ticked(fs, t, id, delta)| == |fs|
    ensures forall k | 0 <= k < |fs| ::
              var after := Ticked(fs, t, id, delta)[k];
              after.id == fs[k].id && after.name == fs[k].name && after.size == fs[k].size
              && after.mimeType == fs[k].mimeType
              && after.progress <= 100.0 && StatusStep(fs[k].status, after.status)
              && (fs[k].id != id ==> after == fs[k])
  {
    var acc := Advanced(t, id, delta);
    var rs := Ticked(fs, t, id, delta);
    forall k | 0 <= k < |fs|
      ensures InStep(rs[k].id, rs[k].status, rs[k].progress, AfterTick(t, id, delta))
      ensures rs[k].progress <= 100.0 && StatusStep(fs[k].status, rs[k].status)
    {
      TickKeepsInStep(fs[k].id, fs[k].status, fs[k].progress, t, id, delta);
      if fs[k].id == id {
        assert rs[k].status == TickedStatus(fs[k].status, acc);
        assert rs[k].progress == Clamp(acc);
      }
    }
  }

  /** A tick for an id that no record carries (it was removed) changes nothing. */
  lemma TickedAbsent(fs: seq<UploadRecord>, t: Timers, id: string, delta: real)
    requires id in t.ticking
    requires forall k | 0 <= k < |fs| :: fs[k].id != id
    ensures Ticked(fs, t, id, delta) == fs
  {
  }

  /** The completion makes the processing records with that id completed and
      leaves every other record as it was. */
  lemma FinishedSpec(fs: seq<UploadRecord>, t: Timers, id: string)
    requires AllInStep(fs, t) && id in t.finishing
    ensures AllInStep(Written(fs, id, Complete), AfterFinish(t, id))
    ensures forall k | 0 <= k < |fs| ::
              (fs[k].id == id ==>
                 (fs[k].status == Processing && Written(fs, id, Complete)[k] == fs[k].(status := Completed)))
              && (fs[k].id != id ==> Written(fs, id, Complete)[k] == fs[k])
  {
    var rs := Written(fs, id, Complete);
    forall k | 0 <= k < |fs|
      ensures InStep(rs[k].id, rs[k].status, rs[k].progress, AfterFinish(t, id))
      ensures fs[k].id == id ==> fs[k].status == Processing
    {
      FinishKeepsInStep(fs[k].id, fs[k].status, fs[k].progress, t, id);
    }
  }

  /** Removing keeps exactly the records with another id, in their order. */
  lemma RemovedSpec(fs: seq<UploadRecord>, id: string)
    ensures forall r :: r in Removed(fs, id) <==> r in fs && r.id != id
    ensures IsSubsequence(Removed(fs, id), fs)
    ensures forall k | 0 <= k < |Removed(fs, id)| :: Removed(fs, id)[k].id != id
  {
    var keep := (r: UploadRecord) => r.id != id;
    forall r ensures r in Removed(fs, id) <==> r in fs && r.id != id {
      FilterMembership(fs, keep, r);
    }
    FilterIsSubsequence(fs, keep);
  }

  /** Removal keeps the remaining records in step with timers that keep running. */
  lemma RemovedInStep(fs: seq<UploadRecord>, t: Timers, id: string)
    requires AllInStep(fs, t)
    ensures AllInStep(Removed(fs, id), t)
  {
    RemovedSpec(fs, id);
    var rs := Removed(fs, id);
    forall k | 0 <= k < |rs| ensures InStep(rs[k].id, rs[k].status, rs[k].progress, t) {
      assert rs[k] in fs;
      var j :| 0 <= j < |fs| && fs[j] == rs[k];
    }
  }

  class Area {
    var files: seq<UploadRecord>
    var isDragOver: bool
    var timers: Timers

    predicate Valid()
      reads this
    {
      AllInStep(files, timers)
    }

    constructor ()
      ensures Valid() && files == [] && !isDragOver
      ensures timers == Timers(map[], {})
    {
      files := [];
      isDragOver := false;
      timers := Timers(map[], {});
    }

    /** `handleFiles`: the accepted files are appended after the existing ones,
        each with its own interval; the others vanish without a message. */
    method HandleFiles(inputs: seq<FileInput>, ids: seq<string>)
      requires Valid()
      requires |ids| == |AcceptedFiles(inputs)| && FreshIds(ids, files, timers)
      modifies this
      ensures Valid()
      ensures files == old(files) + NewRecords(AcceptedFiles(inputs), ids)
      ensures timers == AfterStart(old(timers), ids)
      ensures isDragOver == old(isDragOver)
    {
      var added := NewRecords(AcceptedFiles(inputs), ids);
      var t' := AfterStart(timers, ids);
      forall k | 0 <= k < |files + added|
        ensures InStep((files + added)[k].id, (files + added)[k].status, (files + added)[k].progress, t')
      {
        if k < |files| {
          assert (files + added)[k] == files[k];
          StartKeepsInStep(files[k].id, files[k].status, files[k].progress, timers, ids);
        } else {
          assert (files + added)[k] == added[k - |files|];
        }
      }
      files := files + added;
      timers := t';
    }

    /** `handleFileSelect`: nothing happens when the browser hands over no list. */
    method HandleFileSelect(selected: Option<seq<FileInput>>, ids: seq<string>)
      requires Valid()
      requires selected.Some? ==> |ids| == |AcceptedFiles(selected.value)| && FreshIds(ids, files, timers)
      modifies this
      ensures Valid()
      ensures selected.None? ==> files == old(files) && timers == old(timers)
      ensures selected.Some? ==> files == old(files) + NewRecords(AcceptedFiles(selected.value), ids)
                                 && timers == AfterStart(old(timers), ids)
      ensures isDragOver == old(isDragOver)
    {
      if selected.Some? {
        HandleFiles(selected.value, ids);
      }
    }

    method DragOver()
      modifies this
      ensures isDragOver && files == old(files) && timers == old(timers)
    {
      isDragOver := true;
    }

    method DragLeave()
      modifies this
      ensures !isDragOver && files == old(files) && timers == old(timers)
    {
      isDragOver := false;
    }

    method Drop(inputs: seq<FileInput>, ids: seq<string>)
      requires Valid()
      requires |ids| == |AcceptedFiles(inputs)| && FreshIds(ids, files, timers)
      modifies this
      ensures Valid() && !isDragOver
      ensures files == old(files) + NewRecords(AcceptedFiles(inputs), ids)
      ensures timers == AfterStart(old(timers), ids)
    {
      isDragOver := false;
      HandleFiles(inputs, ids);
    }

    /** One run of the interval of `id`, which draws `delta` in [0, 15). */
    method Tick(id: string, delta: real)
      requires Valid() && id in timers.ticking && 0.0 <= delta < 15.0
      modifies this
      ensures Valid()
      ensures files == Ticked(old(files), old(timers), id, delta)
      ensures timers == AfterTick(old(timers), id, delta)
      ensures isDragOver == old(isDragOver)
    {
      TickedSpec(files, timers, id, delta);
      files := Ticked(files, timers, id, delta);
      timers := AfterTick(timers, id, delta);
    }

    /** The completion timeout of `id` fires. */
    method Finish(id: string)
      requires Valid() && id in timers.finishing
      modifies this
      ensures Valid()
      ensures files == Written(old(files), id, Complete)
      ensures timers == AfterFinish(old(timers), id)
      ensures isDragOver == old(isDragOver)
    {
      FinishedSpec(files, timers, id);
      files := Written(files, id, Complete);
      timers := AfterFinish(timers, id);
    }

    method RemoveFile(id: string)
      requires Valid()
      modifies this
      ensures Valid()
      ensures files == Removed(old(files), id)
      ensures timers == old(timers) && isDragOver == old(isDragOver)
    {
      RemovedInStep(files, timers, id);
      files := Removed(files, id);
    }
  }
}
