/** The message list of the two chat surfaces (the design assistant chat and
    the new-project chat) and the uploads they carry: files live inside the
    user message that announced them, and every timer step rewrites the whole
    list, changing the file with the matching id in whatever message holds it. */
module ChatUploads {
  import opened Common
  import opened Text
  import opened Discipline
  import opened Uploads

  datatype Role = User | Assistant | System

  datatype ChatFile = ChatFile(
    id: string,
    name: string,
    size: int,
    status: FileStatus,
    progress: real,
    discipline: string)

  /** A message; `files` is empty for a message without an upload. The id and the
      timestamp come from the clock and are left out. */
  datatype Message = Message(
    role: Role,
    content: string,
    fileContext: Option<string>,
    projectContext: Option<string>,
    files: seq<ChatFile>)

  function Plain(role: Role, content: string): Message
  {
    Message(role, content, None, None, [])
  }

  const RejectionNotice := "Please upload only DXF files under 100MB."

  /** The content of the user message that announces an upload. */
  function UploadNotice(n: nat): string
  {
    "Uploaded " + NatToString(n) + " file(s)"
  }

  /** The fixed pieces of the acknowledgement. */
  const AckOpening := "Perfect! I've received your "
  const AckIntro :=
        " CAD file(s). I'm now processing and analyzing "
      + "the design elements. This includes:\n\n"
  const AckItem1 := " Extracting geometric data\n"
  const AckItem2 := " Identifying system components\n"
  const AckItem3 := " Checking dimensional accuracy\n"
  const AckItem4 := " Preparing for compliance review\n\n"
  const AckClosing :=
        "Once processing is complete, I'll provide "
      + "a detailed analysis and you can ask me specific "
      + "questions about your design!"

  function AckHead(n: nat): string
  {
    AckOpening + NatToString(n) + AckIntro
  }

  /** The assistant's acknowledgement of an upload of `n` files, with the
      given bullet glyph in front of each of its four list lines. */
  function AckWithBullet(n: nat, bullet: string): string
  {
    AckHead(n) + bullet + AckItem1 + bullet + AckItem2 + bullet + AckItem3 + bullet + AckItem4 + AckClosing
  }

  /** The bullet glyph U+2022. */
  const Bullet := "\U{2022}"

  /** The acknowledgement both chats send once an upload is accepted. */
  function AckText(n: nat): string
  {
    AckWithBullet(n, Bullet)
  }

  /** All files of all messages, in message order (`flatMap(msg => msg.files || [])`). */
  function AllFiles(ms: seq<Message>): seq<ChatFile>
  {
    if ms == [] then [] else ms[0].files + AllFiles(ms[1..])
  }

  lemma {:induction false} AllFilesAppend(ms: seq<Message>, m: Message)
    ensures AllFiles(ms + [m]) == AllFiles(ms) + m.files
  {
    if ms == [] {
      assert [m][1..] == [];
    } else {
      assert (ms + [m])[1..] == ms[1..] + [m];
      AllFilesAppend(ms[1..], m);
    }
  }

  /** The records a batch of accepted files enters as: uploading, progress 0, the
      discipline detected from the name, the i-th file under the i-th fresh id. */
  function NewChatFiles(accepted: seq<FileInput>, ids: seq<string>): (r: seq<ChatFile>)
    requires |ids| == |accepted|
    ensures |r| == |accepted|
  {
    seq(|accepted|, k requires 0 <= k < |accepted| =>
      ChatFile(ids[k], accepted[k].name, accepted[k].size, Uploading, 0.0, DetectDiscipline(accepted[k].name)))
  }

  /** The message `handleFileUpload` appends at once: the rejection notice when no
      file is accepted, otherwise a user message holding the new records. */
  function IntakeMessage(inputs: seq<FileInput>, ids: seq<string>): Message
    requires |ids| == |AcceptedFiles(inputs)|
  {
    var accepted := AcceptedFiles(inputs);
    if |accepted| == 0 then Plain(System, RejectionNotice)
    else Message(User, UploadNotice(|accepted|), None, None, NewChatFiles(accepted, ids))
  }

  /** Intake appends one message. With nothing accepted it is the rejection
      notice and no file is added; otherwise it reports the accepted count and its
      files are the accepted ones, in order, each uploading at progress 0 with its
      detected discipline. */
  lemma IntakeSpec(ms: seq<Message>, inputs: seq<FileInput>, ids: seq<string>)
    requires |ids| == |AcceptedFiles(inputs)|
    ensures var m := IntakeMessage(inputs, ids);
            AllFiles(ms + [m]) == AllFiles(ms) + m.files
    ensures var m := IntakeMessage(inputs, ids);
            |AcceptedFiles(inputs)| == 0 <==> m == Plain(System, RejectionNotice)
    ensures var m := IntakeMessage(inputs, ids); var a := AcceptedFiles(inputs);
            |a| > 0 ==>
              (m.role == User && m.content == UploadNotice(|a|) && |m.files| == |a|
               && forall k | 0 <= k < |a| ::
                    m.files[k].id == ids[k] && m.files[k].name == a[k].name && m.files[k].size == a[k].size
                    && m.files[k].status == Uploading && m.files[k].progress == 0.0
                    && m.files[k].discipline == DetectDiscipline(a[k].name))
  {
    AllFilesAppend(ms, IntakeMessage(inputs, ids));
  }

  /** One write of the interval or the timeout into a file record. */
  datatype FileChange = SetProgress(p: real) | StartProcessing | Complete

  function Apply(f: ChatFile, c: FileChange): ChatFile
  {
    match c
    case SetProgress(p) => f.(progress := p)
    case StartProcessing => f.(status := Processing, progress := 100.0)
    case Complete => f.(status := Completed)
  }

  /** `files.map(file => file.id === id ? change(file) : file)`. */
  function ChangeFiles(fs: seq<ChatFile>, id: string, c: FileChange): (r: seq<ChatFile>)
    ensures |r| == |fs|
  {
    seq(|fs|, k requires 0 <= k < |fs| => if fs[k].id == id then Apply(fs[k], c) else fs[k])
  }

  /** The same change applied inside every message. */
  function ChangeMessages(ms: seq<Message>, id: string, c: FileChange): (r: seq<Message>)
    ensures |r| == |ms|
  {
    seq(|ms|, k requires 0 <= k < |ms| => ms[k].(files := ChangeFiles(ms[k].files, id, c)))
  }

  lemma ChangeFilesAppend(a: seq<ChatFile>, b: seq<ChatFile>, id: string, c: FileChange)
    ensures ChangeFiles(a + b, id, c) == ChangeFiles(a, id, c) + ChangeFiles(b, id, c)
  {
  }

  /** Changing inside the messages is changing the flat file list. */
  lemma {:induction false} AllFilesChange(ms: seq<Message>, id: string, c: FileChange)
    ensures AllFiles(ChangeMessages(ms, id, c)) == ChangeFiles(AllFiles(ms), id, c)
  {
    if ms != [] {
      assert ChangeMessages(ms, id, c)[1..] == ChangeMessages(ms[1..], id, c);
      AllFilesChange(ms[1..], id, c);
      ChangeFilesAppend(ms[0].files, AllFiles(ms[1..]), id, c);
    }
  }

  /** A change touches only files: every message keeps its role, content and
      contexts, and the number and ids of its files. */
  lemma ChangeMessagesFrame(ms: seq<Message>, id: string, c: FileChange)
    ensures forall k | 0 <= k < |ms| ::
              var m := ChangeMessages(ms, id, c)[k];
              m.role == ms[k].role && m.content == ms[k].content && m.fileContext == ms[k].fileContext
              && m.projectContext == ms[k].projectContext && |m.files| == |ms[k].files|
              && forall j | 0 <= j < |m.files| :: m.files[j].id == ms[k].files[j].id
  {
  }

  /** With no file carrying the id the list is left exactly as it was. */
  lemma ChangeAbsent(ms: seq<Message>, id: string, c: FileChange)
    requires forall k, j | 0 <= k < |ms| && 0 <= j < |ms[k].files| :: ms[k].files[j].id != id
    ensures ChangeMessages(ms, id, c) == ms
  {
    forall k | 0 <= k < |ms| ensures ChangeMessages(ms, id, c)[k] == ms[k] {
      assert ChangeFiles(ms[k].files, id, c) == ms[k].files;
    }
  }

  /** Every file in the list agrees with the timers. */
  predicate TrackedFiles(fs: seq<ChatFile>, t: Timers)
  {
    forall k | 0 <= k < |fs| :: InStep(fs[k].id, fs[k].status, fs[k].progress, t)
  }

  predicate Tracked(ms: seq<Message>, t: Timers)
  {
    TrackedFiles(AllFiles(ms), t)
  }

  /** The ids drawn for a batch: distinct, unknown to every timer and to every file shown. */
  predicate FreshIds(ids: seq<string>, ms: seq<Message>, t: Timers)
  {
    (forall i, j | 0 <= i < j < |ids| :: ids[i] != ids[j])
    && (forall i | 0 <= i < |ids| :: ids[i] !in t.ticking && ids[i] !in t.finishing)
    && (forall i, k | 0 <= i < |ids| && 0 <= k < |AllFiles(ms)| :: AllFiles(ms)[k].id != ids[i])
  }

  /** Both writes of one interval tick of `id`. */
  function TickMessages(ms: seq<Message>, t: Timers, id: string, delta: real): seq<Message>
    requires id in t.ticking
  {
    var acc := Advanced(t, id, delta);
    var written := ChangeMessages(ms, id, SetProgress(Clamp(acc)));
    if acc >= 100.0 then ChangeMessages(written, id, StartProcessing) else written
  }

  /** Intake keeps the files in step with the timers once the new intervals start. */
  lemma IntakeKeepsTracked(ms: seq<Message>, t: Timers, inputs: seq<FileInput>, ids: seq<string>)
    requires |ids| == |AcceptedFiles(inputs)|
    requires Tracked(ms, t) && FreshIds(ids, ms, t)
    ensures Tracked(ms + [IntakeMessage(inputs, ids)], AfterStart(t, ids))
  {
    var m := IntakeMessage(inputs, ids);
    var old_ := AllFiles(ms);
    var t' := AfterStart(t, ids);
    IntakeSpec(ms, inputs, ids);
    var fs := AllFiles(ms + [m]);
    forall k | 0 <= k < |fs| ensures InStep(fs[k].id, fs[k].status, fs[k].progress, t') {
      if k < |old_| {
        assert fs[k] == old_[k];
        assert old_[k].id !in ids;
        StartKeepsInStep(old_[k].id, old_[k].status, old_[k].progress, t, ids);
      } else {
        var j := k - |old_|;
        assert fs[k] == m.files[j];
        assert m.files[j].id == ids[j];
      }
    }
  }

  /** A tick keeps the files in step, changes no file but the ticked one, moves its
      status only forward, and never stores a progress above 100. */
  lemma TickKeepsTracked(ms: seq<Message>, t: Timers, id: string, delta: real)
    requires Tracked(ms, t) && id in t.ticking && 0.0 <= delta
    ensures Tracked(TickMessages(ms, t, id, delta), AfterTick(t, id, delta))
    ensures |AllFiles(TickMessages(ms, t, id, delta))| == |AllFiles(ms)|
    ensures forall k | 0 <= k < |AllFiles(ms)| ::
              var before := AllFiles(ms)[k]; var after := AllFiles(TickMessages(ms, t, id, delta))[k];
              after.id == before.id && after.name == before.name
              && StatusStep(before.status, after.status)
              && (before.id != id ==> after == before)
  {
    var acc := Advanced(t, id, delta);
    var fs := AllFiles(ms);
    var written := ChangeMessages(ms, id, SetProgress(Clamp(acc)));
    AllFilesChange(ms, id, SetProgress(Clamp(acc)));
    var ws := AllFiles(written);
    var r := TickMessages(ms, t, id, delta);
    if acc >= 100.0 {
      AllFilesChange(written, id, StartProcessing);
    }
    var rs := AllFiles(r);
    var t' := AfterTick(t, id, delta);
    forall k | 0 <= k < |fs|
      ensures InStep(rs[k].id, rs[k].status, rs[k].progress, t')
      ensures rs[k].id == fs[k].id && rs[k].name == fs[k].name
      ensures StatusStep(fs[k].status, rs[k].status)
      ensures fs[k].id != id ==> rs[k] == fs[k]
    {
      TickKeepsInStep(fs[k].id, fs[k].status, fs[k].progress, t, id, delta);
      if fs[k].id == id {
        assert rs[k].status == TickedStatus(fs[k].status, acc);
        assert rs[k].progress == Clamp(acc);
      }
    }
  }

  /** The completion timeout of `id`: the file becomes completed. */
  function FinishMessages(ms: seq<Message>, id: string): seq<Message>
  {
    ChangeMessages(ms, id, Complete)
  }

  /** A completion keeps the files in step; only the processing file with that id
      changes, and it becomes completed. */
  lemma FinishKeepsTracked(ms: seq<Message>, t: Timers, id: string)
    requires Tracked(ms, t) && id in t.finishing
    ensures Tracked(FinishMessages(ms, id), AfterFinish(t, id))
    ensures |AllFiles(FinishMessages(ms, id))| == |AllFiles(ms)|
    ensures forall k | 0 <= k < |AllFiles(ms)| ::
              var before := AllFiles(ms)[k]; var after := AllFiles(FinishMessages(ms, id))[k];
              (before.id == id ==> before.status == Processing && after == before.(status := Completed))
              && (before.id != id ==> after == before)
  {
    AllFilesChange(ms, id, Complete);
    var fs := AllFiles(ms);
    var rs := AllFiles(FinishMessages(ms, id));
    forall k | 0 <= k < |fs|
      ensures InStep(rs[k].id, rs[k].status, rs[k].progress, AfterFinish(t, id))
    {
      FinishKeepsInStep(fs[k].id, fs[k].status, fs[k].progress, t, id);
    }
  }

  /** The names of the completed files, in message order. */
  function CompletedNames(fs: seq<ChatFile>): (r: seq<string>)
    ensures |r| <= |fs|
  {
    if fs == [] then []
    else (if fs[0].status == Completed then [fs[0].name] else []) + CompletedNames(fs[1..])
  }

  /** A name is listed exactly when some completed file carries it. */
  lemma {:induction false} CompletedNamesSpec(fs: seq<ChatFile>, name: string)
    ensures name in CompletedNames(fs) <==> exists k | 0 <= k < |fs| :: fs[k].status == Completed && fs[k].name == name
  {
    if fs != [] {
      CompletedNamesSpec(fs[1..], name);
      if exists k | 0 <= k < |fs[1..]| :: fs[1..][k].status == Completed && fs[1..][k].name == name {
        var k :| 0 <= k < |fs[1..]| && fs[1..][k].status == Completed && fs[1..][k].name == name;
        assert fs[k + 1] == fs[1..][k];
      }
      if exists k | 0 <= k < |fs| :: fs[k].status == Completed && fs[k].name == name {
        var k :| 0 <= k < |fs| && fs[k].status == Completed && fs[k].name == name;
        if k > 0 {
          assert fs[1..][k - 1] == fs[k];
        }
      }
    }
  }

  /** Without a completed file the list is empty, and conversely. */
  lemma {:induction false} CompletedNamesEmpty(fs: seq<ChatFile>)
    ensures CompletedNames(fs) == [] <==> forall k | 0 <= k < |fs| :: fs[k].status != Completed
  {
    if fs != [] {
      CompletedNamesEmpty(fs[1..]);
      if CompletedNames(fs) == [] {
        forall k | 0 <= k < |fs| ensures fs[k].status != Completed {
          if k > 0 { assert fs[k] == fs[1..][k - 1]; }
        }
      }
    }
  }
}
