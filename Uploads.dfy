/** What the upload surfaces share: the DXF intake test, the status a tracked
    file moves through, and the bookkeeping of the timers that drive the
    simulated upload.

    Each accepted file gets a `setInterval` that adds a random step to a
    private accumulator and writes `Math.min(accumulator, 100)` into the file
    record; once the accumulator reaches 100 the interval is cleared, the file
    becomes "processing" with progress 100, and a `setTimeout` later marks it
    "completed". The accumulators of the running intervals are `ticking`; the
    ids whose completion timeout is pending are `finishing`. */
module Uploads {
  import opened Common
  import opened Text

  /** A `File` handed over by the browser: name, size in bytes, MIME type. */
  datatype FileInput = FileInput(name: string, size: int, mimeType: string)

  /** 100 MiB, the upload limit. */
  const MaxUploadBytes: int := 100 * 1024 * 1024

  /** A file is taken when its lower-cased name ends in ".dxf" and it is at most 100 MiB. */
  predicate IsAccepted(f: FileInput)
  {
    EndsWith(ToLower(f.name), ".dxf") && f.size <= MaxUploadBytes
  }

  function AcceptedFiles(fs: seq<FileInput>): seq<FileInput>
  {
    Filter(fs, IsAccepted)
  }

  /** Accepted are exactly the DXF files within the limit, in input order. */
  lemma AcceptedFilesSpec(fs: seq<FileInput>)
    ensures forall f :: f in AcceptedFiles(fs) <==> f in fs && IsAccepted(f)
    ensures IsSubsequence(AcceptedFiles(fs), fs)
    ensures forall k | 0 <= k < |AcceptedFiles(fs)| :: IsAccepted(AcceptedFiles(fs)[k])
  {
    forall f ensures f in AcceptedFiles(fs) <==> f in fs && IsAccepted(f) {
      FilterMembership(fs, IsAccepted, f);
    }
    FilterIsSubsequence(fs, IsAccepted);
  }

  /** The extension test ignores case, and the limit is inclusive. */
  lemma AcceptedExamples()
    ensures IsAccepted(FileInput("PLAN.DXF", MaxUploadBytes, ""))
    ensures !IsAccepted(FileInput("plan.dxf", MaxUploadBytes + 1, ""))
    ensures !IsAccepted(FileInput("plan.dwg", 10, ""))
  {
    assert ToLower("PLAN.DXF")[4..] == ".dxf";
    assert ToLower("plan.dwg")[4..] != ".dxf" by {
      assert ToLower("plan.dwg")[7] == 'g';
    }
  }

  /** The status of a tracked file. "error" is declared but never assigned. */
  datatype FileStatus = Uploading | Processing | Completed | Failed

  /** `Math.min(progress, 100)`. */
  function Clamp(acc: real): (r: real)
    ensures r <= 100.0
    ensures r == acc || (r == 100.0 && acc >= 100.0)
    ensures 0.0 <= acc ==> 0.0 <= r
  {
    if acc < 100.0 then acc else 100.0
  }

  /** The only moves a status makes: staying, uploading to processing,
      processing to completed. */
  predicate StatusStep(a: FileStatus, b: FileStatus)
  {
    a == b || (a == Uploading && b == Processing) || (a == Processing && b == Completed)
  }

  /** The accumulators of the running intervals, and the ids whose completion is pending. */
  datatype Timers = Timers(ticking: map<string, real>, finishing: set<string>)

  /** A file record agrees with the timers: an uploading file has a running
      interval whose accumulator (below 100) is its progress; a processing file
      has progress 100 and a pending completion; a completed file has progress
      100 and no timer left. Progress is always within [0, 100]. */
  predicate InStep(id: string, status: FileStatus, progress: real, t: Timers)
  {
    0.0 <= progress <= 100.0 &&
    match status
    case Uploading =>
      id in t.ticking && id !in t.finishing && progress == t.ticking[id] && t.ticking[id] < 100.0
    case Processing => id !in t.ticking && id in t.finishing && progress == 100.0
    case Completed => id !in t.ticking && id !in t.finishing && progress == 100.0
    case Failed => false
  }

  /** The accumulator of `id` after a tick that draws `delta`. */
  function Advanced(t: Timers, id: string, delta: real): real
    requires id in t.ticking
  {
    t.ticking[id] + delta
  }

  /** One interval tick: the accumulator grows; at 100 or more the interval is
      cleared and the completion timeout is scheduled. */
  function AfterTick(t: Timers, id: string, delta: real): (r: Timers)
    requires id in t.ticking
    ensures Advanced(t, id, delta) >= 100.0 ==> id !in r.ticking && id in r.finishing
    ensures Advanced(t, id, delta) < 100.0 ==> id in r.ticking && r.ticking[id] == Advanced(t, id, delta)
    ensures forall other | other != id :: (other in r.ticking <==> other in t.ticking)
    ensures forall other | other != id && other in t.ticking :: r.ticking[other] == t.ticking[other]
    ensures forall other | other != id :: (other in r.finishing <==> other in t.finishing)
  {
    var acc := Advanced(t, id, delta);
    if acc >= 100.0 then Timers(t.ticking - {id}, t.finishing + {id})
    else Timers(t.ticking[id := acc], t.finishing)
  }

  /** The completion timeout of `id` fires. */
  function AfterFinish(t: Timers, id: string): (r: Timers)
    ensures r.ticking == t.ticking && id !in r.finishing
    ensures forall other | other != id :: (other in r.finishing <==> other in t.finishing)
  {
    Timers(t.ticking, t.finishing - {id})
  }

  /** New intervals start, each accumulator at 0. */
  function AfterStart(t: Timers, ids: seq<string>): (r: Timers)
    ensures r.finishing == t.finishing
    ensures forall i | 0 <= i < |ids| :: ids[i] in r.ticking && r.ticking[ids[i]] == 0.0
    ensures forall x | x !in ids :: (x in r.ticking <==> x in t.ticking)
    ensures forall x | x !in ids && x in t.ticking :: r.ticking[x] == t.ticking[x]
  {
    Timers(t.ticking + map x | x in ids :: 0.0, t.finishing)
  }

  /** What one tick writes into a record with the ticking id: the clamped
      accumulator, and the processing status once the accumulator reaches 100. */
  function TickedStatus(status: FileStatus, acc: real): FileStatus
  {
    if acc >= 100.0 then Processing else status
  }

  /** A tick keeps every record in step with the timers; the ticked file's status
      makes an allowed move and its progress never exceeds 100. */
  lemma TickKeepsInStep(id: string, status: FileStatus, progress: real, t: Timers, tid: string, delta: real)
    requires InStep(id, status, progress, t)
    requires tid in t.ticking && 0.0 <= delta
    ensures id == tid ==> status == Uploading
    ensures id == tid ==> InStep(id, TickedStatus(status, Advanced(t, tid, delta)), Clamp(Advanced(t, tid, delta)), AfterTick(t, tid, delta))
    ensures id == tid ==> StatusStep(status, TickedStatus(status, Advanced(t, tid, delta)))
    ensures id != tid ==> InStep(id, status, progress, AfterTick(t, tid, delta))
  {
    var r := AfterTick(t, tid, delta);
    if id == tid {
      assert status == Uploading;
      assert 0.0 <= t.ticking[tid];
    }
  }

  /** A completion keeps every record in step; the completed file was processing. */
  lemma FinishKeepsInStep(id: string, status: FileStatus, progress: real, t: Timers, fid: string)
    requires InStep(id, status, progress, t)
    requires fid in t.finishing
    ensures id == fid ==> status == Processing
    ensures id == fid ==> InStep(id, Completed, progress, AfterFinish(t, fid))
    ensures id != fid ==> InStep(id, status, progress, AfterFinish(t, fid))
  {
  }

  /** Starting intervals for ids no timer knows keeps the old records in step,
      and a new uploading record at progress 0 is in step. */
  lemma StartKeepsInStep(id: string, status: FileStatus, progress: real, t: Timers, ids: seq<string>)
    requires InStep(id, status, progress, t)
    requires id !in ids
    requires forall i | 0 <= i < |ids| :: ids[i] !in t.finishing
    ensures InStep(id, status, progress, AfterStart(t, ids))
    ensures forall i | 0 <= i < |ids| :: InStep(ids[i], Uploading, 0.0, AfterStart(t, ids))
  {
  }
}
