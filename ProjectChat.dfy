/** The new-project chat (`ProjectChatInterface`): keyword replies, one of which
    opens the project form, DXF intake with the simulated upload, and the
    creation of a `Project` from the completed uploads, which is saved to the
    project store. */
module ProjectChat {
  import opened Common
  import opened Text
  import opened Discipline
  import opened Uploads
  import opened ChatUploads
  import opened ProjectStorage

  const CreateReplyText :=
        "I'd be happy to help you create a new project! "
      + "Please fill out the project details form "
      + "that just opened. This will save your project "
      + "so you can access it later from the Recent "
      + "Projects tab."
  const HvacReplyText :=
        "Great! I see you're working on an HVAC project. "
      + "I can help you analyze:\n\n\U{2022} Ductwork sizing "
      + "and layout\n\U{2022} Equipment specifications\n\U{2022} "
      + "Energy efficiency compliance\n\U{2022} Airflow calculations\n"
      + "\U{2022} Code compliance checks\n\nPlease upload "
      + "your HVAC DXF files by dragging them into "
      + "this chat, and I'll start the analysis! "
      + "You can also say 'create project' to save "
      + "this as a new project."
  const ElectricalReplyText :=
        "Perfect! For electrical projects, I can "
      + "assist with:\n\n\U{2022} Panel load calculations\n"
      + "\U{2022} Circuit design review\n\U{2022} Code compliance "
      + "verification\n\U{2022} Safety requirements\n\U{2022} Equipment "
      + "specifications\n\nDrag and drop your electrical "
      + "DXF files here to begin the review process! "
      + "Don't forget to say 'create project' to "
      + "save your work."
  const MechanicalReplyText :=
        "Excellent! For mechanical systems, I can "
      + "help analyze:\n\n\U{2022} Piping layouts and sizing\n"
      + "\U{2022} Equipment placement\n\U{2022} System pressures "
      + "and flows\n\U{2022} Code compliance\n\U{2022} Maintenance "
      + "accessibility\n\nPlease upload your mechanical "
      + "DXF files to start the analysis! You can "
      + "create a project to save your progress."
  const DefaultReplyText :=
        "Thank you for that information! I'm ready "
      + "to help with your project. Please upload "
      + "your CAD files by dragging them directly "
      + "into this chat, or tell me more about the "
      + "specific aspects you'd like me to focus "
      + "on during the review. You can also say 'create "
      + "project' to save this session as a new project."

  const Welcome :=
        "Welcome! I'm your AI Design Assistant. Let's "
      + "create a new project together. I'll help "
      + "you upload your CAD files and guide you "
      + "through the design review process.\n\nTo get "
      + "started, please tell me:\n1. What type of "
      + "project are you working on?\n2. Which engineering "
      + "disciplines are involved? (HVAC, Electrical, "
      + "Mechanical, Structural)\n3. You can also "
      + "drag and drop your DXF files directly into "
      + "this chat!"

  /** Which of the canned replies a message gets. */
  datatype ReplyKind = CreateProjectReply | HvacReply | ElectricalReply | MechanicalReply | DefaultReply

  /** The lower-cased message asks for a project to be created or saved. */
  predicate MentionsCreation(lower: string)
  {
    Contains(lower, "create project") || Contains(lower, "save project") || Contains(lower, "new project")
  }

  /** The keyword chain of `generateAIResponse`, on the lower-cased input. */
  function ReplyKindOf(input: string): ReplyKind
  {
    var lower := ToLower(input);
    if MentionsCreation(lower) then CreateProjectReply
    else if MentionsHvac(lower) then HvacReply
    else if MentionsElectrical(lower) then ElectricalReply
    else if MentionsMechanical(lower) then MechanicalReply
    else DefaultReply
  }

  function ReplyText(k: ReplyKind): string
  {
    match k
    case CreateProjectReply => CreateReplyText
    case HvacReply => HvacReplyText
    case ElectricalReply => ElectricalReplyText
    case MechanicalReply => MechanicalReplyText
    case DefaultReply => DefaultReplyText
  }

  /** The creation phrases are tested first, and only they open the form. */
  lemma CreationFirst(input: string)
    ensures ReplyKindOf(input) == CreateProjectReply <==> MentionsCreation(ToLower(input))
  {
  }

  /** Without a creation phrase the reply follows the discipline classifier on
      the same text: HVAC, Electrical or Mechanical exactly when it would give that
      label, and the default reply for Structural or General. */
  lemma ReplyAgreesWithDiscipline(input: string)
    requires !MentionsCreation(ToLower(input))
    ensures ReplyKindOf(input) == HvacReply <==> DetectDiscipline(input) == "HVAC"
    ensures ReplyKindOf(input) == ElectricalReply <==> DetectDiscipline(input) == "Electrical"
    ensures ReplyKindOf(input) == MechanicalReply <==> DetectDiscipline(input) == "Mechanical"
    ensures ReplyKindOf(input) == DefaultReply <==> DetectDiscipline(input) in {"Structural", "General"}
  {
  }

  /** A message that asks to create a project gets the form even when it also names a discipline. */
  lemma CreationExample()
    ensures ReplyKindOf("Create Project for HVAC") == CreateProjectReply
  {
    var lower := ToLower("Create Project for HVAC");
    assert lower[..14] == "create project";
  }

  /** The fields of the project form. */
  datatype ProjectDetails = ProjectDetails(name: string, projectType: string, discipline: string, description: string)

  const EmptyDetails := ProjectDetails("", "", "", "")

  datatype DetailField = NameDetail | TypeDetail | DisciplineDetail | DescriptionDetail

  function EditDetails(d: ProjectDetails, field: DetailField, value: string): (r: ProjectDetails)
    ensures field == NameDetail ==> r == d.(name := value)
    ensures field == TypeDetail ==> r == d.(projectType := value)
    ensures field == DisciplineDetail ==> r == d.(discipline := value)
    ensures field == DescriptionDetail ==> r == d.(description := value)
  {
    match field
    case NameDetail => d.(name := value)
    case TypeDetail => d.(projectType := value)
    case DisciplineDetail => d.(discipline := value)
    case DescriptionDetail => d.(description := value)
  }

  /** The form can be submitted: name, type and discipline are not empty (they are not trimmed). */
  predicate CanCreate(d: ProjectDetails)
  {
    d.name != "" && d.projectType != "" && d.discipline != ""
  }

  /** The record `handleCreateProject` builds; `id` and `now` stand for the clock. */
  function NewProject(d: ProjectDetails, ms: seq<Message>, id: string, now: Date): Project
  {
    var names := CompletedNames(AllFiles(ms));
    Project(id, d.name, d.discipline + " Review", InProgress, if |names| > 0 then 25 else 10,
            "Just now", 0, 15, now, names, d.discipline, Some(d.description))
  }

  /** The new project lists the completed uploads, shows progress 25 when there
      are any and 10 otherwise, and starts as an "In Progress" review of its
      discipline with no compliance and 15 checks. */
  lemma NewProjectSpec(d: ProjectDetails, ms: seq<Message>, id: string, now: Date)
    ensures var p := NewProject(d, ms, id, now);
            p.files == CompletedNames(AllFiles(ms))
            && (forall name :: name in p.files <==>
                  exists k | 0 <= k < |AllFiles(ms)| :: AllFiles(ms)[k].status == FileStatus.Completed && AllFiles(ms)[k].name == name)
            && (p.progress == 25 <==> exists k | 0 <= k < |AllFiles(ms)| :: AllFiles(ms)[k].status == FileStatus.Completed)
            && (p.progress == 10 <==> forall k | 0 <= k < |AllFiles(ms)| :: AllFiles(ms)[k].status != FileStatus.Completed)
            && p.projectType == d.discipline + " Review" && p.status == InProgress
            && p.compliance == 0 && p.totalChecks == 15 && p.lastActivity == "Just now"
            && p.name == d.name && p.discipline == d.discipline && p.description == Some(d.description)
  {
    var fs := AllFiles(ms);
    CompletedNamesEmpty(fs);
    forall name {
      CompletedNamesSpec(fs, name);
    }
  }

  const CreatedOpening := "\U{1F389} Project \""
  const CreatedClosing :=
        "\" has been created successfully! You can "
      + "now find it in your Recent Projects tab. "
      + "I'll continue to help you with file uploads "
      + "and analysis for this project."

  function CreatedNotice(name: string): string
  {
    CreatedOpening + name + CreatedClosing
  }

  /** A reply the chat still owes: to a message (whose text decides the reply) or
      to an accepted upload of `count` files. */
  datatype Pending = Answer(input: string) | Ack(count: nat)

  class Chat {
    var messages: seq<Message>
    var inputValue: string
    var isDragOver: bool
    var showProjectForm: bool
    var details: ProjectDetails
    var timers: Timers
    var pending: seq<Pending>
    /** The project store `saveProject` writes to. */
    const store: Store

    predicate Valid()
      reads this
    {
      Tracked(messages, timers)
    }

    constructor (store: Store)
      ensures Valid() && this.store == store
      ensures messages == [Plain(Assistant, Welcome)] && inputValue == "" && !isDragOver
      ensures !showProjectForm && details == EmptyDetails
      ensures timers == Timers(map[], {}) && pending == []
    {
      this.store := store;
      messages := [Plain(Assistant, Welcome)];
      inputValue := "";
      isDragOver := false;
      showProjectForm := false;
      details := EmptyDetails;
      timers := Timers(map[], {});
      pending := [];
      new;
      assert AllFiles(messages) == [];
    }

    method SetInput(value: string)
      modifies this
      ensures inputValue == value
      ensures messages == old(messages) && timers == old(timers) && pending == old(pending)
      ensures details == old(details) && showProjectForm == old(showProjectForm) && isDragOver == old(isDragOver)
    {
      inputValue := value;
    }

    method EditProjectDetails(field: DetailField, value: string)
      modifies this
      ensures details == EditDetails(old(details), field, value)
      ensures messages == old(messages) && timers == old(timers) && pending == old(pending)
      ensures inputValue == old(inputValue) && showProjectForm == old(showProjectForm)
      ensures isDragOver == old(isDragOver)
    {
      details := EditDetails(details, field, value);
    }

    method SetProjectFormOpen(open: bool)
      modifies this
      ensures showProjectForm == open
      ensures messages == old(messages) && timers == old(timers) && pending == old(pending)
      ensures details == old(details) && inputValue == old(inputValue) && isDragOver == old(isDragOver)
    {
      showProjectForm := open;
    }

    /** Appends a message without files; no file changes. */
    method AppendPlain(m: Message)
      requires Valid() && m.files == []
      modifies this
      ensures Valid()
      ensures messages == old(messages) + [m]
      ensures timers == old(timers) && pending == old(pending) && inputValue == old(inputValue)
      ensures details == old(details) && showProjectForm == old(showProjectForm) && isDragOver == old(isDragOver)
    {
      AllFilesAppend(messages, m);
      messages := messages + [m];
    }

    /** `handleSendMessage`: blank input does nothing; otherwise the untrimmed input
        is appended, the input is cleared and an answer to that text is owed. */
    method SendMessage()
      requires Valid()
      modifies this
      ensures Valid()
      ensures IsBlank(old(inputValue)) ==>
                messages == old(messages) && inputValue == old(inputValue) && pending == old(pending)
      ensures !IsBlank(old(inputValue)) ==>
                messages == old(messages) + [Plain(User, old(inputValue))] && inputValue == ""
                && pending == old(pending) + [Answer(old(inputValue))]
      ensures timers == old(timers) && details == old(details) && showProjectForm == old(showProjectForm)
      ensures isDragOver == old(isDragOver)
    {
      TrimEmptyIffBlank(inputValue);
      if Trim(inputValue) == [] {
        return;
      }
      var text := inputValue;
      AppendPlain(Plain(User, text));
      pending := pending + [Answer(text)];
      inputValue := "";
    }

    /** The input's key handler: Enter sends, whatever the modifiers; any other
        key changes nothing. */
    method KeyPress(key: string)
      requires Valid()
      modifies this
      ensures Valid()
      ensures key == "Enter" && IsBlank(old(inputValue)) ==>
                messages == old(messages) && inputValue == old(inputValue) && pending == old(pending)
      ensures key == "Enter" && !IsBlank(old(inputValue)) ==>
                messages == old(messages) + [Plain(User, old(inputValue))] && inputValue == ""
                && pending == old(pending) + [Answer(old(inputValue))]
      ensures key != "Enter" ==>
                messages == old(messages) && inputValue == old(inputValue) && pending == old(pending)
      ensures timers == old(timers) && details == old(details) && showProjectForm == old(showProjectForm)
      ensures isDragOver == old(isDragOver)
    {
      if key == "Enter" {
        SendMessage();
      }
    }

    /** The `k`-th owed answer arrives: the keyword reply to the text that was
        sent; a creation phrase opens the project form. */
    method DeliverAnswer(k: nat)
      requires Valid() && k < |pending| && pending[k].Answer?
      modifies this
      ensures Valid()
      ensures pending == old(pending[..k] + pending[k + 1..])
      ensures messages == old(messages) + [Plain(Assistant, ReplyText(ReplyKindOf(old(pending[k]).input)))]
      ensures ReplyKindOf(old(pending[k]).input) == CreateProjectReply ==> showProjectForm
      ensures ReplyKindOf(old(pending[k]).input) != CreateProjectReply ==> showProjectForm == old(showProjectForm)
      ensures timers == old(timers) && inputValue == old(inputValue) && details == old(details)
      ensures isDragOver == old(isDragOver)
    {
      var kind := ReplyKindOf(pending[k].input);
      AppendPlain(Plain(Assistant, ReplyText(kind)));
      if kind == CreateProjectReply {
        showProjectForm := true;
      }
      pending := pending[..k] + pending[k + 1..];
    }

    /** The `k`-th owed reply, the acknowledgement of an upload, arrives. */
    method DeliverAck(k: nat)
      requires Valid() && k < |pending| && pending[k].Ack?
      modifies this
      ensures Valid()
      ensures pending == old(pending[..k] + pending[k + 1..])
      ensures messages == old(messages) + [Plain(Assistant, AckText(old(pending[k]).count))]
      ensures timers == old(timers) && inputValue == old(inputValue) && details == old(details)
      ensures showProjectForm == old(showProjectForm) && isDragOver == old(isDragOver)
    {
      AppendPlain(Plain(Assistant, AckText(pending[k].count)));
      pending := pending[..k] + pending[k + 1..];
    }

    /** `handleFileUpload`: validate, append one message, start one interval per
        accepted file and schedule the acknowledgement; with nothing accepted
        only the rejection notice is appended and nothing starts. */
    method HandleFileUpload(inputs: seq<FileInput>, ids: seq<string>)
      requires Valid()
      requires |ids| == |AcceptedFiles(inputs)| && FreshIds(ids, messages, timers)
      modifies this
      ensures Valid()
      ensures messages == old(messages) + [IntakeMessage(inputs, ids)]
      ensures timers == AfterStart(old(timers), ids)
      ensures |AcceptedFiles(inputs)| == 0 ==> pending == old(pending) && timers == old(timers)
      ensures |AcceptedFiles(inputs)| > 0 ==> pending == old(pending) + [Ack(|AcceptedFiles(inputs)|)]
      ensures inputValue == old(inputValue) && details == old(details)
      ensures showProjectForm == old(showProjectForm) && isDragOver == old(isDragOver)
    {
      IntakeKeepsTracked(messages, timers, inputs, ids);
      var accepted := AcceptedFiles(inputs);
      messages := messages + [IntakeMessage(inputs, ids)];
      timers := AfterStart(timers, ids);
      if |accepted| > 0 {
        pending := pending + [Ack(|accepted|)];
      } else {
        assert ids == [];
        assert timers.ticking == old(timers).ticking;
      }
    }

    /** `handleFileInputChange`: a missing file list does nothing. */
    method FileInputChange(selected: Option<seq<FileInput>>, ids: seq<string>)
      requires Valid()
      requires selected.Some? ==> |ids| == |AcceptedFiles(selected.value)| && FreshIds(ids, messages, timers)
      modifies this
      ensures Valid()
      ensures selected.None? ==> messages == old(messages) && timers == old(timers) && pending == old(pending)
      ensures selected.Some? ==> messages == old(messages) + [IntakeMessage(selected.value, ids)]
      ensures selected.Some? ==> timers == AfterStart(old(timers), ids)
      ensures selected.Some? && |AcceptedFiles(selected.value)| == 0 ==> pending == old(pending)
      ensures selected.Some? && |AcceptedFiles(selected.value)| > 0 ==>
                pending == old(pending) + [Ack(|AcceptedFiles(selected.value)|)]
      ensures inputValue == old(inputValue) && details == old(details)
      ensures showProjectForm == old(showProjectForm) && isDragOver == old(isDragOver)
    {
      if selected.Some? {
        HandleFileUpload(selected.value, ids);
      }
    }

    method DragOver()
      modifies this
      ensures isDragOver
      ensures messages == old(messages) && timers == old(timers) && pending == old(pending)
      ensures inputValue == old(inputValue) && details == old(details) && showProjectForm == old(showProjectForm)
    {
      isDragOver := true;
    }

    method DragLeave()
      modifies this
      ensures !isDragOver
      ensures messages == old(messages) && timers == old(timers) && pending == old(pending)
      ensures inputValue == old(inputValue) && details == old(details) && showProjectForm == old(showProjectForm)
    {
      isDragOver := false;
    }

    method Drop(inputs: seq<FileInput>, ids: seq<string>)
      requires Valid()
      requires |ids| == |AcceptedFiles(inputs)| && FreshIds(ids, messages, timers)
      modifies this
      ensures Valid() && !isDragOver
      ensures messages == old(messages) + [IntakeMessage(inputs, ids)]
      ensures timers == AfterStart(old(timers), ids)
      ensures |AcceptedFiles(inputs)| == 0 ==> pending == old(pending)
      ensures |AcceptedFiles(inputs)| > 0 ==> pending == old(pending) + [Ack(|AcceptedFiles(inputs)|)]
      ensures inputValue == old(inputValue) && details == old(details) && showProjectForm == old(showProjectForm)
    {
      isDragOver := false;
      HandleFileUpload(inputs, ids);
    }

    /** One tick of the upload interval of `id`, drawing `delta` from [0, 15). */
    method Tick(id: string, delta: real)
      requires Valid() && id in timers.ticking && 0.0 <= delta < 15.0
      modifies this
      ensures Valid()
      ensures messages == TickMessages(old(messages), old(timers), id, delta)
      ensures timers == AfterTick(old(timers), id, delta)
      ensures pending == old(pending) && inputValue == old(inputValue) && details == old(details)
      ensures isDragOver == old(isDragOver) && showProjectForm == old(showProjectForm)
    {
      TickKeepsTracked(messages, timers, id, delta);
      messages := TickMessages(messages, timers, id, delta);
      timers := AfterTick(timers, id, delta);
    }

    /** The completion timeout of `id` fires. */
    method Finish(id: string)
      requires Valid() && id in timers.finishing
      modifies this
      ensures Valid()
      ensures messages == FinishMessages(old(messages), id)
      ensures timers == AfterFinish(old(timers), id)
      ensures pending == old(pending) && inputValue == old(inputValue) && details == old(details)
      ensures isDragOver == old(isDragOver) && showProjectForm == old(showProjectForm)
    {
      FinishKeepsTracked(messages, timers, id);
      messages := FinishMessages(messages, id);
      timers := AfterFinish(timers, id);
    }

    /** `handleCreateProject`: nothing unless name, type and discipline are filled;
        otherwise the new project is saved, the success notice is appended, the
        form closes and the details are cleared. */
    method CreateProject(id: string, now: Date)
      requires Valid()
      modifies this, store
      ensures Valid()
      ensures !CanCreate(old(details)) ==>
                messages == old(messages) && details == old(details)
                && showProjectForm == old(showProjectForm) && store.entries == old(store.entries)
      ensures CanCreate(old(details)) ==>
                messages == old(messages) + [Plain(Assistant, CreatedNotice(old(details).name))]
                && !showProjectForm && details == EmptyDetails
      ensures CanCreate(old(details)) && store.isBrowser ==>
                store.GetProjects() == Saved(old(store.GetProjects()), NewProject(old(details), old(messages), id, now))
      ensures CanCreate(old(details)) && !store.isBrowser ==> store.entries == old(store.entries)
      ensures timers == old(timers) && pending == old(pending) && inputValue == old(inputValue)
      ensures isDragOver == old(isDragOver)
    {
      if !CanCreate(details) {
        return;
      }
      var project := NewProject(details, messages, id, now);
      store.SaveProject(project);
      AppendPlain(Plain(Assistant, CreatedNotice(details.name)));
      showProjectForm := false;
      details := EmptyDetails;
    }
  }
}
