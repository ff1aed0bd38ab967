/** The building-code library upload: every file is taken, and each document
    then runs a fixed script of writes: progress 0, 10, ..., 100 while
    uploading, a switch to processing at 0, progress 0, 20, ..., 100, and a
    final write that marks it completed with its category and section count.
    Every write is a `map` over the whole list that touches the documents
    with the given id only. */
module BuildingCodesUpload {
  import opened Common
  import opened Text
  import opened Classify
  import opened Uploads

  const CategoryTable: seq<Rule> := [
    Rule("Building", ["ibc", "building"]),
    Rule("Electrical", ["nec", "electrical"]),
    Rule("Mechanical", ["imc", "mechanical"]),
    Rule("Plumbing", ["ipc", "plumbing"]),
    Rule("Fire Safety", ["nfpa", "fire"])
  ]

  const Categories: set<string> := {"Building", "Electrical", "Mechanical", "Plumbing", "Fire Safety", "General"}

  /** `getDocumentCategory`: the if-chain of the source on the lower-cased name. */
  function GetDocumentCategory(filename: string): (r: string)
    ensures r in Categories
  {
    var name := ToLower(filename);
    if Contains(name, "ibc") || Contains(name, "building") then "Building"
    else if Contains(name, "nec") || Contains(name, "electrical") then "Electrical"
    else if Contains(name, "imc") || Contains(name, "mechanical") then "Mechanical"
    else if Contains(name, "ipc") || Contains(name, "plumbing") then "Plumbing"
    else if Contains(name, "nfpa") || Contains(name, "fire") then "Fire Safety"
    else "General"
  }

  lemma MatchesTwo(name: string, a: string, b: string)
    ensures Matches(name, [a, b]) <==> Contains(name, a) || Contains(name, b)
  {
    assert Matches(name, [b]) <==> Contains(name, b) by {
      assert [b][1..] == [];
    }
    assert Matches(name, [a, b]) <==> Contains(name, a) || Matches(name, [b]) by {
      assert [a, b][1..] == [b];
    }
  }

  function CategoryFrom(k: nat, name: string): string
    requires k <= |CategoryTable|
  {
    FirstMatch(CategoryTable[k..], name, "General")
  }

  /** The if-chain is the first-match-wins reading of the table, in the order
      Building, Electrical, Mechanical, Plumbing, Fire Safety. */
  lemma CategoryIsFirstMatch(filename: string)
    ensures GetDocumentCategory(filename) == FirstMatch(CategoryTable, ToLower(filename), "General")
  {
    var name := ToLower(filename);
    var t := CategoryTable;
    MatchesTwo(name, "ibc", "building");
    MatchesTwo(name, "nec", "electrical");
    MatchesTwo(name, "imc", "mechanical");
    MatchesTwo(name, "ipc", "plumbing");
    MatchesTwo(name, "nfpa", "fire");
    assert CategoryFrom(4, name) == (if Contains(name, "nfpa") || Contains(name, "fire") then "Fire Safety" else "General") by {
      assert t[4..] == [Rule("Fire Safety", ["nfpa", "fire"])];
      assert t[4..][1..] == [];
      assert FirstMatch(t[4..][1..], name, "General") == "General";
    }
    assert CategoryFrom(3, name) == (if Contains(name, "ipc") || Contains(name, "plumbing") then "Plumbing" else CategoryFrom(4, name)) by {
      assert t[3..][1..] == t[4..];
    }
    assert CategoryFrom(2, name) == (if Contains(name, "imc") || Contains(name, "mechanical") then "Mechanical" else CategoryFrom(3, name)) by {
      assert t[2..][1..] == t[3..];
    }
    assert CategoryFrom(1, name) == (if Contains(name, "nec") || Contains(name, "electrical") then "Electrical" else CategoryFrom(2, name)) by {
      assert t[1..][1..] == t[2..];
    }
    assert CategoryFrom(0, name) == (if Contains(name, "ibc") || Contains(name, "building") then "Building" else CategoryFrom(1, name)) by {
      assert t[0..][1..] == t[1..];
      assert t[0..] == t;
    }
  }

  /** Upper and lower case are not told apart. */
  lemma CategoryCaseInsensitive(filename: string)
    ensures GetDocumentCategory(filename) == GetDocumentCategory(ToLower(filename))
  {
    ToLowerIdempotent(filename);
  }

  /** The first group that has a keyword in the name decides, whatever later groups it mentions. */
  lemma CategoryPriority(filename: string, i: nat)
    requires i < |CategoryTable|
    requires Matches(ToLower(filename), CategoryTable[i].keywords)
    requires forall j | 0 <= j < i :: !Matches(ToLower(filename), CategoryTable[j].keywords)
    ensures GetDocumentCategory(filename) == CategoryTable[i].tag
  {
    CategoryIsFirstMatch(filename);
    FirstMatchIsFirst(CategoryTable, ToLower(filename), "General", i);
  }

  /** "General" exactly when none of the ten keywords occurs in the lower-cased name. */
  lemma CategoryGeneral(filename: string)
    ensures GetDocumentCategory(filename) == "General"
            <==> forall j, k | 0 <= j < |CategoryTable| && 0 <= k < |CategoryTable[j].keywords|
                   :: !Contains(ToLower(filename), CategoryTable[j].keywords[k])
  {
    var name := ToLower(filename);
    CategoryIsFirstMatch(filename);
    FirstMatchFallbackIff(CategoryTable, name, "General");
    forall j | 0 <= j < |CategoryTable| {
      MatchesSome(name, CategoryTable[j].keywords);
    }
  }

  /** A code book title that mentions both the building and the electrical code is filed under Building. */
  lemma CategoryExample()
    ensures GetDocumentCategory("IBC_2021_Electrical.pdf") == "Building"
  {
    assert ToLower("IBC_2021_Electrical.pdf")[..3] == "ibc";
  }

  /** A document of the library. The upload date comes from the clock and is left out. */
  datatype Document = Document(
    id: string,
    name: string,
    size: int,
    mimeType: string,
    status: FileStatus,
    progress: int,
    category: Option<string>,
    sections: Option<int>)

  /** The document `handleFiles` makes for a file: uploading, at 0, not yet classified. */
  function NewDocument(f: FileInput, id: string): Document
  {
    Document(id, f.name, f.size, f.mimeType, Uploading, 0, None, None)
  }

  function NewDocuments(files: seq<FileInput>, ids: seq<string>): (r: seq<Document>)
    requires |ids| == |files|
    ensures |r| == |files|
    ensures forall i | 0 <= i < |files| :: r[i] == NewDocument(files[i], ids[i])
  {
    seq(|files|, i requires 0 <= i < |files| => NewDocument(files[i], ids[i]))
  }

  /** One write of the upload script. */
  datatype DocWrite = Progress(p: int) | StartProcessing | Finish(count: int)

  function ApplyDoc(d: Document, w: DocWrite): Document
  {
    match w
    case Progress(p) => d.(progress := p)
    case StartProcessing => d.(status := Processing, progress := 0)
    case Finish(count) =>
      d.(status := Completed, progress := 100, category := Some(GetDocumentCategory(d.name)),
         sections := Some(count))
  }

  /** `prev.map(doc => doc.id === id ? write(doc) : doc)`. */
  function WriteAll(docs: seq<Document>, id: string, w: DocWrite): (r: seq<Document>)
    ensures |r| == |docs|
    ensures forall k | 0 <= k < |docs| :: r[k] == (if docs[k].id == id then ApplyDoc(docs[k], w) else docs[k])
  {
    seq(|docs|, k requires 0 <= k < |docs| => if docs[k].id == id then ApplyDoc(docs[k], w) else docs[k])
  }

  /** A script of writes for `id`, applied in order. */
  function ApplyWrites(docs: seq<Document>, id: string, ws: seq<DocWrite>): (r: seq<Document>)
    ensures |r| == |docs|
    decreases |ws|
  {
    if ws == [] then docs else WriteAll(ApplyWrites(docs, id, ws[..|ws| - 1]), id, ws[|ws| - 1])
  }

  /** The same script applied to one document. */
  function FoldDoc(d: Document, ws: seq<DocWrite>): (r: Document)
    ensures r.id == d.id && r.name == d.name
    decreases |ws|
  {
    if ws == [] then d else ApplyDoc(FoldDoc(d, ws[..|ws| - 1]), ws[|ws| - 1])
  }

  lemma ApplyWritesSnoc(docs: seq<Document>, id: string, ws: seq<DocWrite>, w: DocWrite)
    ensures ApplyWrites(docs, id, ws + [w]) == WriteAll(ApplyWrites(docs, id, ws), id, w)
  {
    assert (ws + [w])[..|ws|] == ws;
  }

  /** Running two scripts one after the other is running their concatenation. */
  lemma {:induction false} ApplyWritesAppend(docs: seq<Document>, id: string, ws: seq<DocWrite>, vs: seq<DocWrite>)
    ensures ApplyWrites(ApplyWrites(docs, id, ws), id, vs) == ApplyWrites(docs, id, ws + vs)
    decreases |vs|
  {
    if vs == [] {
      assert ws + vs == ws;
    } else {
      var init := vs[..|vs| - 1];
      ApplyWritesAppend(docs, id, ws, init);
      assert (ws + vs)[..|ws + vs| - 1] == ws + init;
    }
  }

  /** A script touches the documents with its id, each as if alone, and nothing else. */
  lemma {:induction false} ApplyWritesAt(docs: seq<Document>, id: string, ws: seq<DocWrite>, k: nat)
    requires k < |docs|
    ensures ApplyWrites(docs, id, ws)[k] == (if docs[k].id == id then FoldDoc(docs[k], ws) else docs[k])
    decreases |ws|
  {
    if ws != [] {
      ApplyWritesAt(docs, id, ws[..|ws| - 1], k);
    }
  }

  /** Once no document carries the id (it was removed), the rest of its script changes nothing. */
  lemma ApplyWritesAbsent(docs: seq<Document>, id: string, ws: seq<DocWrite>)
    requires forall k | 0 <= k < |docs| :: docs[k].id != id
    ensures ApplyWrites(docs, id, ws) == docs
  {
    forall k | 0 <= k < |docs| ensures ApplyWrites(docs, id, ws)[k] == docs[k] {
      ApplyWritesAt(docs, id, ws, k);
    }
  }

  /** Writes `Progress(0)`, `Progress(step)`, ..., `count` of them. */
  function ProgressSteps(step: nat, count: nat): (r: seq<DocWrite>)
    ensures |r| == count
    ensures forall i | 0 <= i < count :: r[i] == Progress(step * i)
  {
    seq(count, i requires 0 <= i < count => Progress(step * i))
  }

  /** One more loop pass writes the next progress value over what the earlier passes wrote. */
  lemma StepWrites(docs: seq<Document>, id: string, step: nat, n: nat)
    ensures ApplyWrites(docs, id, ProgressSteps(step, n + 1))
            == WriteAll(ApplyWrites(docs, id, ProgressSteps(step, n)), id, Progress(step * n))
  {
    assert ProgressSteps(step, n + 1) == ProgressSteps(step, n) + [Progress(step * n)];
    ApplyWritesSnoc(docs, id, ProgressSteps(step, n), Progress(step * n));
  }

  const UploadPhase: seq<DocWrite> := ProgressSteps(10, 11)
  const ProcessingPhase: seq<DocWrite> := ProgressSteps(20, 6)

  /** The whole script of `simulateUpload` for a document that ends with `count` sections. */
  function SimulationWrites(count: int): seq<DocWrite>
  {
    UploadPhase + [StartProcessing] + ProcessingPhase + [Finish(count)]
  }

  /** Each phase writes rising values from 0 up to exactly 100 and nothing outside [0, 100]. */
  lemma PhasesRise()
    ensures UploadPhase[0] == Progress(0) && UploadPhase[10] == Progress(100)
    ensures ProcessingPhase[0] == Progress(0) && ProcessingPhase[5] == Progress(100)
    ensures forall i, j | 0 <= i < j < |UploadPhase| :: UploadPhase[i].p < UploadPhase[j].p
    ensures forall i, j | 0 <= i < j < |ProcessingPhase| :: ProcessingPhase[i].p < ProcessingPhase[j].p
    ensures forall i | 0 <= i < |UploadPhase| :: 0 <= UploadPhase[i].p <= 100
    ensures forall i | 0 <= i < |ProcessingPhase| :: 0 <= ProcessingPhase[i].p <= 100
  {
  }

  /** Progress writes change the progress only: the status stays as it was, and
      the last value written is the progress. */
  lemma {:induction false} ProgressOnly(d: Document, ws: seq<DocWrite>)
    requires forall i | 0 <= i < |ws| :: ws[i].Progress?
    ensures FoldDoc(d, ws) == d.(progress := if ws == [] then d.progress else ws[|ws| - 1].p)
    decreases |ws|
  {
    if ws != [] {
      ProgressOnly(d, ws[..|ws| - 1]);
    }
  }

  /** The script before its last write changes status and progress only. */
  lemma {:induction false} KeepsTheRest(d: Document, ws: seq<DocWrite>)
    requires forall i | 0 <= i < |ws| :: !ws[i].Finish?
    ensures FoldDoc(d, ws).(status := d.status, progress := d.progress) == d
    decreases |ws|
  {
    if ws != [] {
      KeepsTheRest(d, ws[..|ws| - 1]);
    }
  }

  /** During the upload phase an uploading document stays uploading. */
  lemma UploadPhaseKeepsStatus(d: Document, i: nat)
    requires i <= |UploadPhase|
    ensures FoldDoc(d, UploadPhase[..i]).status == d.status
  {
    ProgressOnly(d, UploadPhase[..i]);
  }

  /** After the whole script the document is completed at 100, with the category
      of its name and the drawn section count; name, size and type are kept. */
  lemma SimulationOutcome(d: Document, count: int)
    ensures FoldDoc(d, SimulationWrites(count))
            == d.(status := Completed, progress := 100, category := Some(GetDocumentCategory(d.name)),
                  sections := Some(count))
  {
    var ws := UploadPhase + [StartProcessing] + ProcessingPhase;
    assert SimulationWrites(count) == ws + [Finish(count)];
    assert SimulationWrites(count)[..|ws|] == ws;
    KeepsTheRest(d, ws);
  }

  /** A document count drawn by `Math.floor(Math.random() * 50) + 10`. */
  predicate SectionCount(count: int)
  {
    10 <= count <= 59
  }

  /** Ids for a batch: distinct and unknown to every document. */
  predicate FreshIds(ids: seq<string>, docs: seq<Document>)
  {
    (forall i, j | 0 <= i < j < |ids| :: ids[i] != ids[j])
    && (forall i, k | 0 <= i < |ids| && 0 <= k < |docs| :: docs[k].id != ids[i])
  }

  class Library {
    var docs: seq<Document>
    var isDragOver: bool

    constructor ()
      ensures docs == [] && !isDragOver
    {
      docs := [];
      isDragOver := false;
    }

    /** `handleFiles`: one uploading document per file, appended in order, with
        no check of extension or size. */
    method HandleFiles(files: seq<FileInput>, ids: seq<string>)
      requires |ids| == |files| && FreshIds(ids, docs)
      modifies this
      ensures docs == old(docs) + NewDocuments(files, ids)
      ensures isDragOver == old(isDragOver)
    {
      docs := docs + NewDocuments(files, ids);
    }

    /** `handleFileSelect`: an absent list counts as no files. */
    method HandleFileSelect(selected: Option<seq<FileInput>>, ids: seq<string>)
      requires selected.Some? ==> |ids| == |selected.value| && FreshIds(ids, docs)
      requires selected.None? ==> ids == []
      modifies this
      ensures selected.None? ==> docs == old(docs)
      ensures selected.Some? ==> docs == old(docs) + NewDocuments(selected.value, ids)
      ensures isDragOver == old(isDragOver)
    {
      var files := GetOr(selected, []);
      HandleFiles(files, ids);
    }

    method DragOver()
      modifies this
      ensures isDragOver && docs == old(docs)
    {
      isDragOver := true;
    }

    method DragLeave()
      modifies this
      ensures !isDragOver && docs == old(docs)
    {
      isDragOver := false;
    }

    method Drop(files: seq<FileInput>, ids: seq<string>)
      requires |ids| == |files| && FreshIds(ids, docs)
      modifies this
      ensures !isDragOver && docs == old(docs) + NewDocuments(files, ids)
    {
      isDragOver := false;
      HandleFiles(files, ids);
    }

    /** The first loop of `simulateUpload`: progress 0, 10, ..., 100. */
    method UploadLoop(docId: string) returns (trace: seq<int>)
      modifies this
      ensures docs == ApplyWrites(old(docs), docId, UploadPhase)
      ensures trace == seq(11, i => 10 * i)
      ensures isDragOver == old(isDragOver)
    {
      trace := [];
      var start := docs;
      var progress := 0;
      while progress <= 100
        invariant progress == 10 * |trace| && |trace| <= 11
        invariant forall i | 0 <= i < |trace| :: trace[i] == 10 * i
        invariant docs == ApplyWrites(start, docId, ProgressSteps(10, |trace|))
        invariant isDragOver == old(isDragOver)
        decreases 110 - progress
      {
        StepWrites(start, docId, 10, |trace|);
        docs := WriteAll(docs, docId, Progress(progress));
        trace := trace + [progress];
        progress := progress + 10;
      }
    }

    /** The second loop of `simulateUpload`: progress 0, 20, ..., 100. */
    method ProcessingLoop(docId: string) returns (trace: seq<int>)
      modifies this
      ensures docs == ApplyWrites(old(docs), docId, ProcessingPhase)
      ensures trace == seq(6, i => 20 * i)
      ensures isDragOver == old(isDragOver)
    {
      trace := [];
      var start := docs;
      var progress := 0;
      while progress <= 100
        invariant progress == 20 * |trace| && |trace| <= 6
        invariant forall i | 0 <= i < |trace| :: trace[i] == 20 * i
        invariant docs == ApplyWrites(start, docId, ProgressSteps(20, |trace|))
        invariant isDragOver == old(isDragOver)
        decreases 120 - progress
      {
        StepWrites(start, docId, 20, |trace|);
        docs := WriteAll(docs, docId, Progress(progress));
        trace := trace + [progress];
        progress := progress + 20;
      }
    }

    /** `simulateUpload` run to the end without other events in between: the
        upload loop, the switch to processing, the processing loop and the final
        write. The returned traces are the progress values written in each loop. */
    method SimulateUpload(docId: string, count: int) returns (uploadTrace: seq<int>, processingTrace: seq<int>)
      requires SectionCount(count)
      modifies this
      ensures docs == ApplyWrites(old(docs), docId, SimulationWrites(count))
      ensures uploadTrace == seq(11, i => 10 * i)
      ensures processingTrace == seq(6, i => 20 * i)
      ensures isDragOver == old(isDragOver)
    {
      uploadTrace := UploadLoop(docId);
      ApplyWritesSnoc(old(docs), docId, UploadPhase, StartProcessing);
      docs := WriteAll(docs, docId, StartProcessing);
      var before := docs;
      processingTrace := ProcessingLoop(docId);
      ApplyWritesAppend(old(docs), docId, UploadPhase + [StartProcessing], ProcessingPhase);
      ApplyWritesSnoc(old(docs), docId, UploadPhase + [StartProcessing] + ProcessingPhase, Finish(count));
      docs := WriteAll(docs, docId, Finish(count));
    }

    /** `removeDocument`: every document with another id, in order. */
    method RemoveDocument(docId: string)
      modifies this
      ensures docs == Filter(old(docs), (d: Document) => d.id != docId)
      ensures isDragOver == old(isDragOver)
    {
      docs := Filter(docs, (d: Document) => d.id != docId);
    }
  }

  /** A run ends with every document of that id completed at 100 with its
      category and a count in [10, 59]; every other document is as it was. */
  lemma SimulationResult(docs: seq<Document>, docId: string, count: int)
    requires SectionCount(count)
    ensures forall k | 0 <= k < |docs| ::
              var after := ApplyWrites(docs, docId, SimulationWrites(count))[k];
              (docs[k].id == docId ==>
                 (after.status == Completed && after.progress == 100
                  && after.category == Some(GetDocumentCategory(docs[k].name))
                  && after.sections.Some? && 10 <= after.sections.value <= 59
                  && after.name == docs[k].name && after.size == docs[k].size))
              && (docs[k].id != docId ==> after == docs[k])
  {
    forall k | 0 <= k < |docs| ensures
      var after := ApplyWrites(docs, docId, SimulationWrites(count))[k];
      (docs[k].id == docId ==>
         (after.status == Completed && after.progress == 100
          && after.category == Some(GetDocumentCategory(docs[k].name))
          && after.sections.Some? && 10 <= after.sections.value <= 59
          && after.name == docs[k].name && after.size == docs[k].size))
      && (docs[k].id != docId ==> after == docs[k])
    {
      ApplyWritesAt(docs, docId, SimulationWrites(count), k);
      SimulationOutcome(docs[k], count);
    }
  }

  /** After `removeDocument` no document carries the id, so whatever of its
      script is still to run leaves the list unchanged. */
  lemma RemovedThenWritten(docs: seq<Document>, docId: string, ws: seq<DocWrite>)
    ensures forall d | d in Filter(docs, (d: Document) => d.id != docId) :: d in docs && d.id != docId
    ensures ApplyWrites(Filter(docs, (d: Document) => d.id != docId), docId, ws)
            == Filter(docs, (d: Document) => d.id != docId)
  {
    var keep := (d: Document) => d.id != docId;
    var rest := Filter(docs, keep);
    forall d | d in rest ensures d in docs && d.id != docId {
      FilterMembership(docs, keep, d);
    }
    ApplyWritesAbsent(rest, docId, ws);
  }
}
