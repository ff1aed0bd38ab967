/** The design assistant chat (`ChatInterface`): canned replies prefixed by the
    selected project and file, DXF intake with the simulated upload, and the
    project dialogs that add a system message. */
module ChatInterface {
  import opened Common
  import opened Text
  import opened Uploads
  import opened ChatUploads

  /** JavaScript truthiness of a `string | null`: present and not empty. */
  predicate Present(o: Option<string>)
  {
    o.Some? && o.value != ""
  }

  /** `value || undefined`: the context a message records. */
  function ContextOf(o: Option<string>): (r: Option<string>)
    ensures r.Some? <==> Present(o)
    ensures r.Some? ==> r == o
  {
    if Present(o) then o else None
  }

  /** The opening clause of a reply, by which of project and file are selected. */
  function ContextPrefix(project: Option<string>, file: Option<string>): string
  {
    if Present(project) && Present(file) then
      "Based on your " + project.value + " project and " + file.value + " file, "
    else if Present(project) then "For your " + project.value + " project, "
    else if Present(file) then "Looking at your " + file.value + " file, "
    else ""
  }

  /** Each selection case has its own opening: "Based on your" for both, "For your"
      for a project only, "Looking at your" for a file only, nothing for neither. */
  lemma ContextPrefixCases(project: Option<string>, file: Option<string>)
    ensures StartsWith(ContextPrefix(project, file), "Based on your ") <==> Present(project) && Present(file)
    ensures StartsWith(ContextPrefix(project, file), "For your ") <==> Present(project) && !Present(file)
    ensures StartsWith(ContextPrefix(project, file), "Looking at your ") <==> !Present(project) && Present(file)
    ensures ContextPrefix(project, file) == "" <==> !Present(project) && !Present(file)
  {
    var r := ContextPrefix(project, file);
    if Present(project) && Present(file) {
      assert r[..14] == "Based on your ";
      assert r[0] == 'B';
    } else if Present(project) {
      assert r[..9] == "For your ";
      assert r[0] == 'F';
    } else if Present(file) {
      assert r[..16] == "Looking at your ";
      assert r[0] == 'L';
    }
  }

  const ReplyBodies: seq<string> := [
    "I can help you analyze the HVAC system sizing "
    + "and load calculations. The current design "
    + "shows proper ductwork distribution with "
    + "adequate CFM ratings for the space requirements.",
    "I've identified several compliance considerations "
    + "for your electrical systems. The panel capacity "
    + "appears sufficient, but I recommend reviewing "
    + "the emergency lighting circuits for code "
    + "compliance.",
    "The mechanical systems show good integration "
    + "with the architectural layout. However, "
    + "I notice some potential conflicts between "
    + "the plumbing runs and structural elements "
    + "that should be addressed.",
    "Your design meets most applicable building "
    + "codes, but there are a few areas where energy "
    + "efficiency could be improved. I can provide "
    + "specific recommendations for equipment upgrades."
  ]

  /** `generateAIResponse`: the question text is not an argument because it is
      never read; the random draw is the template index. */
  function GenerateAIResponse(project: Option<string>, file: Option<string>, index: nat): string
    requires index < 4
  {
    ContextPrefix(project, file) + ReplyBodies[index]
  }

  /** Every reply is the context prefix followed by one of the four fixed bodies. */
  lemma ReplyShape(project: Option<string>, file: Option<string>, index: nat)
    requires index < 4
    ensures StartsWith(GenerateAIResponse(project, file, index), ContextPrefix(project, file))
    ensures GenerateAIResponse(project, file, index)[|ContextPrefix(project, file)|..] in ReplyBodies
  {
    var prefix := ContextPrefix(project, file);
    var r := GenerateAIResponse(project, file, index);
    assert r[|prefix|..] == ReplyBodies[index];
  }

  const Welcome :=
        "Hello! I'm your AI Design Assistant. I can "
      + "help you analyze your CAD files, check compliance, "
      + "identify potential issues, and answer technical "
      + "questions about HVAC, Mechanical, and Electrical "
      + "systems. Please select a project and CAD "
      + "file to get started, or ask me a general "
      + "question about design standards.\n\nYou can "
      + "also drag and drop DXF files directly into "
      + "this chat for instant analysis!"

  /** The acknowledgement as the file spells it: every bullet is the three
      characters U+201A U+00C4 U+00A2, the UTF-8 bytes of U+2022 read as Mac Roman. */
  const GarbledBullet := "\U{201A}\U{00C4}\U{00A2}"

  function AckTextAsWritten(n: nat): string
  {
    AckWithBullet(n, GarbledBullet)
  }

  /** The acknowledgement as written differs from the one the project chat sends
      for the same count, at the first bullet; with the bullet U+2022 both chats
      send the same text. */
  lemma AckTextAsWrittenDiffers(n: nat)
    ensures |AckHead(n)| < |AckTextAsWritten(n)| && |AckHead(n)| < |AckText(n)|
    ensures AckTextAsWritten(n)[|AckHead(n)|] == '\U{201A}'
    ensures AckText(n)[|AckHead(n)|] == '\U{2022}'
    ensures AckTextAsWritten(n) != AckText(n)
  {
    var h := AckHead(n);
    assert AckTextAsWritten(n)[|h|] == GarbledBullet[0];
    assert AckText(n)[|h|] == Bullet[0];
  }

  const CreatedOpening := " New project \""
  const CreatedClosing :=
        "\" has been created successfully! You can "
      + "now upload CAD files and start your design "
      + "review."
  const AddedOpening := " Project \""
  const AddedClosing :=
        "\" has been added to the conversation. You "
      + "can now ask questions specific to this project."

  function CreatedTail(name: string): string
  {
    CreatedOpening + name + CreatedClosing
  }

  function AddedTail(name: string): string
  {
    AddedOpening + name + AddedClosing
  }

  /** The creation notice as written: it opens with U+201A U+00FA U+00D6, the UTF-8
      bytes of U+2705 (check mark) read as Mac Roman. */
  function CreatedNoticeAsWritten(name: string): string
  {
    "\U{201A}\U{00FA}\U{00D6}" + CreatedTail(name)
  }

  /** The notice with its check mark. */
  function CreatedNotice(name: string): string
  {
    "\U{2705}" + CreatedTail(name)
  }

  /** The notice of an added project as written: U+F8FF U+00FC U+00EC U+00C5, the
      UTF-8 bytes of U+1F4C1 (file folder) read as Mac Roman. */
  function AddedNoticeAsWritten(name: string): string
  {
    "\U{F8FF}\U{00FC}\U{00EC}\U{00C5}" + AddedTail(name)
  }

  function AddedNotice(name: string): string
  {
    "\U{1F4C1}" + AddedTail(name)
  }

  /** The garbled notices open with other characters than the intended symbols and
      are longer by the extra characters of the mis-decoding. */
  lemma NoticesAsWrittenDiffer(name: string)
    ensures CreatedNoticeAsWritten(name)[0] == '\U{201A}' && CreatedNotice(name)[0] == '\U{2705}'
    ensures |CreatedNoticeAsWritten(name)| == |CreatedNotice(name)| + 2
    ensures AddedNoticeAsWritten(name)[0] == '\U{F8FF}' && AddedNotice(name)[0] == '\U{1F4C1}'
    ensures |AddedNoticeAsWritten(name)| == |AddedNotice(name)| + 3
    ensures CreatedNoticeAsWritten(name) != CreatedNotice(name)
    ensures AddedNoticeAsWritten(name) != AddedNotice(name)
  {
  }

  /** A reply the chat still owes: to a question (with the selection at the time
      it was asked) or to an accepted upload of `count` files. */
  datatype Pending = Reply(file: Option<string>, project: Option<string>) | Ack(count: nat)

  /** The fields of the project dialog. */
  datatype ProjectForm = ProjectForm(name: string, projectType: string, location: string,
                                     description: string, discipline: string)

  const EmptyForm := ProjectForm("", "", "", "", "")

  datatype FormField = NameField | TypeField | LocationField | DescriptionField | DisciplineField

  /** `setNewProjectData(prev => ({ ...prev, [field]: value }))`. */
  function EditForm(f: ProjectForm, field: FormField, value: string): (r: ProjectForm)
    ensures field == NameField ==> r == f.(name := value)
    ensures field == TypeField ==> r == f.(projectType := value)
    ensures field == LocationField ==> r == f.(location := value)
    ensures field == DescriptionField ==> r == f.(description := value)
    ensures field == DisciplineField ==> r == f.(discipline := value)
  {
    match field
    case NameField => f.(name := value)
    case TypeField => f.(projectType := value)
    case LocationField => f.(location := value)
    case DescriptionField => f.(description := value)
    case DisciplineField => f.(discipline := value)
  }

  /** The mock list of projects the picker offers. */
  const ExistingProjectNames: seq<string> := [
    "Downtown Office Complex", "Hospital Wing Expansion", "Residential Tower A",
    "Manufacturing Facility", "University Library"
  ]

  /** The assistant message answering a question: a canned reply carrying the
      contexts of the moment the question was asked. */
  function ReplyMessage(file: Option<string>, project: Option<string>, index: nat): (m: Message)
    requires index < 4
    ensures m.role == Assistant && m.files == []
  {
    Message(Assistant, GenerateAIResponse(project, file, index), ContextOf(file), ContextOf(project), [])
  }

  class Chat {
    var messages: seq<Message>
    var inputValue: string
    var selectedFile: Option<string>
    var selectedProject: Option<string>
    var isLoading: bool
    var isDragOver: bool
    var form: ProjectForm
    var isCreateProjectOpen: bool
    var isProjectPickerOpen: bool
    var timers: Timers
    var pending: seq<Pending>

    /** Every file shown agrees with the timers that drive it. */
    predicate Valid()
      reads this
    {
      Tracked(messages, timers)
    }

    constructor ()
      ensures Valid()
      ensures messages == [Plain(Assistant, Welcome)] && inputValue == ""
      ensures selectedFile == None && selectedProject == None && !isLoading && !isDragOver
      ensures form == EmptyForm && !isCreateProjectOpen && !isProjectPickerOpen
      ensures timers == Timers(map[], {}) && pending == []
    {
      messages := [Plain(Assistant, Welcome)];
      inputValue := "";
      selectedFile := None;
      selectedProject := None;
      isLoading := false;
      isDragOver := false;
      form := EmptyForm;
      isCreateProjectOpen := false;
      isProjectPickerOpen := false;
      timers := Timers(map[], {});
      pending := [];
      new;
      assert AllFiles(messages) == [];
    }

    method SetInput(value: string)
      modifies this
      ensures inputValue == value
      ensures messages == old(messages) && timers == old(timers) && pending == old(pending)
      ensures selectedFile == old(selectedFile) && selectedProject == old(selectedProject)
      ensures isLoading == old(isLoading) && isDragOver == old(isDragOver) && form == old(form)
      ensures isCreateProjectOpen == old(isCreateProjectOpen) && isProjectPickerOpen == old(isProjectPickerOpen)
    {
      inputValue := value;
    }

    method SelectFile(file: Option<string>)
      modifies this
      ensures selectedFile == file
      ensures messages == old(messages) && timers == old(timers) && pending == old(pending)
      ensures inputValue == old(inputValue) && selectedProject == old(selectedProject)
      ensures isLoading == old(isLoading) && isDragOver == old(isDragOver) && form == old(form)
      ensures isCreateProjectOpen == old(isCreateProjectOpen) && isProjectPickerOpen == old(isProjectPickerOpen)
    {
      selectedFile := file;
    }

    method SelectProject(project: Option<string>)
      modifies this
      ensures selectedProject == project
      ensures messages == old(messages) && timers == old(timers) && pending == old(pending)
      ensures inputValue == old(inputValue) && selectedFile == old(selectedFile)
      ensures isLoading == old(isLoading) && isDragOver == old(isDragOver) && form == old(form)
      ensures isCreateProjectOpen == old(isCreateProjectOpen) && isProjectPickerOpen == old(isProjectPickerOpen)
    {
      selectedProject := project;
    }

    /** The dialog's `onOpenChange` and its Cancel button. */
    method SetCreateProjectOpen(open: bool)
      modifies this
      ensures isCreateProjectOpen == open
      ensures messages == old(messages) && timers == old(timers) && pending == old(pending)
      ensures inputValue == old(inputValue) && selectedFile == old(selectedFile)
      ensures selectedProject == old(selectedProject)
      ensures isLoading == old(isLoading) && isDragOver == old(isDragOver) && form == old(form)
      ensures isProjectPickerOpen == old(isProjectPickerOpen)
    {
      isCreateProjectOpen := open;
    }

    /** The "Add Project" button opens the picker when it is closed and closes it
        when it is open. */
    method ToggleProjectPicker()
      modifies this
      ensures isProjectPickerOpen == !old(isProjectPickerOpen)
      ensures messages == old(messages) && timers == old(timers) && pending == old(pending)
      ensures inputValue == old(inputValue) && selectedFile == old(selectedFile)
      ensures selectedProject == old(selectedProject)
      ensures isLoading == old(isLoading) && isDragOver == old(isDragOver) && form == old(form)
      ensures isCreateProjectOpen == old(isCreateProjectOpen)
    {
      isProjectPickerOpen := !isProjectPickerOpen;
    }

    /** The picker's Cancel button. */
    method CloseProjectPicker()
      modifies this
      ensures !isProjectPickerOpen
      ensures messages == old(messages) && timers == old(timers) && pending == old(pending)
      ensures inputValue == old(inputValue) && selectedFile == old(selectedFile)
      ensures selectedProject == old(selectedProject)
      ensures isLoading == old(isLoading) && isDragOver == old(isDragOver) && form == old(form)
      ensures isCreateProjectOpen == old(isCreateProjectOpen)
    {
      isProjectPickerOpen := false;
    }

    method EditProjectForm(field: FormField, value: string)
      modifies this
      ensures form == EditForm(old(form), field, value)
      ensures messages == old(messages) && timers == old(timers) && pending == old(pending)
      ensures inputValue == old(inputValue) && selectedFile == old(selectedFile)
      ensures selectedProject == old(selectedProject)
      ensures isLoading == old(isLoading) && isDragOver == old(isDragOver)
      ensures isCreateProjectOpen == old(isCreateProjectOpen) && isProjectPickerOpen == old(isProjectPickerOpen)
    {
      form := EditForm(form, field, value);
    }

    method DragOver()
      modifies this
      ensures isDragOver
      ensures messages == old(messages) && timers == old(timers) && pending == old(pending)
      ensures inputValue == old(inputValue) && selectedFile == old(selectedFile)
      ensures selectedProject == old(selectedProject) && isLoading == old(isLoading) && form == old(form)
      ensures isCreateProjectOpen == old(isCreateProjectOpen) && isProjectPickerOpen == old(isProjectPickerOpen)
    {
      isDragOver := true;
    }

    method DragLeave()
      modifies this
      ensures !isDragOver
      ensures messages == old(messages) && timers == old(timers) && pending == old(pending)
      ensures inputValue == old(inputValue) && selectedFile == old(selectedFile)
      ensures selectedProject == old(selectedProject) && isLoading == old(isLoading) && form == old(form)
      ensures isCreateProjectOpen == old(isCreateProjectOpen) && isProjectPickerOpen == old(isProjectPickerOpen)
    {
      isDragOver := false;
    }

    /** `handleFileUpload`: validate, append one message, start one interval per
        accepted file and schedule the acknowledgement; with nothing accepted
        only the rejection notice is appended and nothing starts. */
    method HandleFileUpload(inputs: seq<FileInput>, ids: seq<string>)
      requires Valid()
      requires |ids| == |AcceptedFiles(inputs)| && FreshIds(ids, messages, timers)
      modifies this
      ensures Valid()
      ensures messages == old(messages) + [IntakeMessage(inputs, ids)]
      ensures timers == AfterStart(old(timers), ids)
      ensures |AcceptedFiles(inputs)| == 0 ==> pending == old(pending) && timers == old(timers)
      ensures |AcceptedFiles(inputs)| > 0 ==> pending == old(pending) + [Ack(|AcceptedFiles(inputs)|)]
      ensures inputValue == old(inputValue) && selectedFile == old(selectedFile)
      ensures selectedProject == old(selectedProject) && isLoading == old(isLoading)
      ensures isDragOver == old(isDragOver) && form == old(form)
      ensures isCreateProjectOpen == old(isCreateProjectOpen) && isProjectPickerOpen == old(isProjectPickerOpen)
    {
      IntakeKeepsTracked(messages, timers, inputs, ids);
      var accepted := AcceptedFiles(inputs);
      messages := messages + [IntakeMessage(inputs, ids)];
      timers := AfterStart(timers, ids);
      if |accepted| > 0 {
        pending := pending + [Ack(|accepted|)];
      } else {
        assert ids == [];
        assert timers.ticking == old(timers).ticking;
      }
    }

    /** `handleDrop`: the overlay goes away and the dropped files go to intake. */
    method Drop(inputs: seq<FileInput>, ids: seq<string>)
      requires Valid()
      requires |ids| == |AcceptedFiles(inputs)| && FreshIds(ids, messages, timers)
      modifies this
      ensures Valid() && !isDragOver
      ensures messages == old(messages) + [IntakeMessage(inputs, ids)]
      ensures timers == AfterStart(old(timers), ids)
      ensures |AcceptedFiles(inputs)| == 0 ==> pending == old(pending)
      ensures |AcceptedFiles(inputs)| > 0 ==> pending == old(pending) + [Ack(|AcceptedFiles(inputs)|)]
      ensures inputValue == old(inputValue) && selectedFile == old(selectedFile)
      ensures selectedProject == old(selectedProject) && isLoading == old(isLoading) && form == old(form)
      ensures isCreateProjectOpen == old(isCreateProjectOpen) && isProjectPickerOpen == old(isProjectPickerOpen)
    {
      isDragOver := false;
      HandleFileUpload(inputs, ids);
    }

    /** One tick of the upload interval of `id`, drawing `delta` from [0, 15). */
    method Tick(id: string, delta: real)
      requires Valid() && id in timers.ticking && 0.0 <= delta < 15.0
      modifies this
      ensures Valid()
      ensures messages == TickMessages(old(messages), old(timers), id, delta)
      ensures timers == AfterTick(old(timers), id, delta)
      ensures pending == old(pending) && inputValue == old(inputValue) && isLoading == old(isLoading)
      ensures selectedFile == old(selectedFile) && selectedProject == old(selectedProject)
      ensures isDragOver == old(isDragOver) && form == old(form)
      ensures isCreateProjectOpen == old(isCreateProjectOpen) && isProjectPickerOpen == old(isProjectPickerOpen)
    {
      TickKeepsTracked(messages, timers, id, delta);
      messages := TickMessages(messages, timers, id, delta);
      timers := AfterTick(timers, id, delta);
    }

    /** The completion timeout of `id` fires. */
    method Finish(id: string)
      requires Valid() && id in timers.finishing
      modifies this
      ensures Valid()
      ensures messages == FinishMessages(old(messages), id)
      ensures timers == AfterFinish(old(timers), id)
      ensures pending == old(pending) && inputValue == old(inputValue) && isLoading == old(isLoading)
      ensures selectedFile == old(selectedFile) && selectedProject == old(selectedProject)
      ensures isDragOver == old(isDragOver) && form == old(form)
      ensures isCreateProjectOpen == old(isCreateProjectOpen) && isProjectPickerOpen == old(isProjectPickerOpen)
    {
      FinishKeepsTracked(messages, timers, id);
      messages := FinishMessages(messages, id);
      timers := AfterFinish(timers, id);
    }

    /** `handleSendMessage`: blank input does nothing; otherwise the untrimmed input
        is appended as a user message with the current contexts, the input is
        cleared, loading starts and a reply is owed. */
    method SendMessage()
      requires Valid()
      modifies this
      ensures Valid()
      ensures IsBlank(old(inputValue)) ==>
                messages == old(messages) && inputValue == old(inputValue)
                && pending == old(pending) && isLoading == old(isLoading)
      ensures !IsBlank(old(inputValue)) ==>
                messages == old(messages) + [Message(User, old(inputValue), ContextOf(selectedFile),
                                                     ContextOf(selectedProject), [])]
                && inputValue == "" && isLoading
                && pending == old(pending) + [Reply(selectedFile, selectedProject)]
      ensures timers == old(timers) && selectedFile == old(selectedFile)
      ensures selectedProject == old(selectedProject) && form == old(form) && isDragOver == old(isDragOver)
      ensures isCreateProjectOpen == old(isCreateProjectOpen) && isProjectPickerOpen == old(isProjectPickerOpen)
    {
      TrimEmptyIffBlank(inputValue);
      if Trim(inputValue) == [] {
        return;
      }
      var m := Message(User, inputValue, ContextOf(selectedFile), ContextOf(selectedProject), []);
      AllFilesAppend(messages, m);
      messages := messages + [m];
      pending := pending + [Reply(selectedFile, selectedProject)];
      inputValue := "";
      isLoading := true;
    }

    /** `handleKeyPress`: Enter without Shift sends; any other key changes nothing. */
    method KeyPress(key: string, shift: bool)
      requires Valid()
      modifies this
      ensures Valid()
      ensures key == "Enter" && !shift && IsBlank(old(inputValue)) ==>
                messages == old(messages) && inputValue == old(inputValue)
                && pending == old(pending) && isLoading == old(isLoading)
      ensures key == "Enter" && !shift && !IsBlank(old(inputValue)) ==>
                messages == old(messages) + [Message(User, old(inputValue), ContextOf(selectedFile),
                                                     ContextOf(selectedProject), [])]
                && inputValue == "" && isLoading
                && pending == old(pending) + [Reply(selectedFile, selectedProject)]
      ensures !(key == "Enter" && !shift) ==>
                messages == old(messages) && inputValue == old(inputValue)
                && pending == old(pending) && isLoading == old(isLoading)
      ensures timers == old(timers) && selectedFile == old(selectedFile)
      ensures selectedProject == old(selectedProject) && form == old(form) && isDragOver == old(isDragOver)
      ensures isCreateProjectOpen == old(isCreateProjectOpen) && isProjectPickerOpen == old(isProjectPickerOpen)
    {
      if key == "Enter" && !shift {
        SendMessage();
      }
    }

    /** The Send button, disabled while a reply is loading (and while the input is
        blank, when the handler does nothing anyway). */
    method ClickSend()
      requires Valid()
      modifies this
      ensures Valid()
      ensures (old(isLoading) || IsBlank(old(inputValue))) ==>
                messages == old(messages) && inputValue == old(inputValue)
                && pending == old(pending) && isLoading == old(isLoading)
      ensures !old(isLoading) && !IsBlank(old(inputValue)) ==>
                messages == old(messages) + [Message(User, old(inputValue), ContextOf(selectedFile),
                                                     ContextOf(selectedProject), [])]
                && inputValue == "" && isLoading
                && pending == old(pending) + [Reply(selectedFile, selectedProject)]
      ensures timers == old(timers) && selectedFile == old(selectedFile)
      ensures selectedProject == old(selectedProject) && form == old(form) && isDragOver == old(isDragOver)
      ensures isCreateProjectOpen == old(isCreateProjectOpen) && isProjectPickerOpen == old(isProjectPickerOpen)
    {
      if !isLoading {
        SendMessage();
      }
    }

    /** Typing into the input box, which is disabled while a reply is loading. */
    method InputChange(value: string)
      modifies this
      ensures inputValue == if old(isLoading) then old(inputValue) else value
      ensures messages == old(messages) && timers == old(timers) && pending == old(pending)
      ensures selectedFile == old(selectedFile) && selectedProject == old(selectedProject)
      ensures isLoading == old(isLoading) && isDragOver == old(isDragOver) && form == old(form)
      ensures isCreateProjectOpen == old(isCreateProjectOpen) && isProjectPickerOpen == old(isProjectPickerOpen)
    {
      if !isLoading {
        SetInput(value);
      }
    }

    /** A key pressed in the input box: while a reply is loading the box is
        disabled and the key is lost; otherwise it goes to `handleKeyPress`. */
    method InputKeyPress(key: string, shift: bool)
      requires Valid()
      modifies this
      ensures Valid()
      ensures (old(isLoading) || !(key == "Enter" && !shift) || IsBlank(old(inputValue))) ==>
                messages == old(messages) && inputValue == old(inputValue)
                && pending == old(pending) && isLoading == old(isLoading)
      ensures !old(isLoading) && key == "Enter" && !shift && !IsBlank(old(inputValue)) ==>
                messages == old(messages) + [Message(User, old(inputValue), ContextOf(selectedFile),
                                                     ContextOf(selectedProject), [])]
                && inputValue == "" && isLoading
                && pending == old(pending) + [Reply(selectedFile, selectedProject)]
      ensures timers == old(timers) && selectedFile == old(selectedFile)
      ensures selectedProject == old(selectedProject) && form == old(form) && isDragOver == old(isDragOver)
      ensures isCreateProjectOpen == old(isCreateProjectOpen) && isProjectPickerOpen == old(isProjectPickerOpen)
    {
      if !isLoading {
        KeyPress(key, shift);
      }
    }

    /** The `k`-th owed reply, an answer to a question, arrives drawing template
        `index`; it carries the contexts of the moment the question was asked and
        ends loading. */
    method DeliverReply(k: nat, index: nat)
      requires Valid() && k < |pending| && pending[k].Reply? && index < 4
      modifies this
      ensures Valid()
      ensures pending == old(pending[..k] + pending[k + 1..])
      ensures messages == old(messages) + [ReplyMessage(old(pending[k]).file, old(pending[k]).project, index)]
      ensures !isLoading
      ensures timers == old(timers) && inputValue == old(inputValue)
      ensures selectedFile == old(selectedFile) && selectedProject == old(selectedProject)
      ensures isDragOver == old(isDragOver) && form == old(form)
      ensures isCreateProjectOpen == old(isCreateProjectOpen) && isProjectPickerOpen == old(isProjectPickerOpen)
    {
      var p := pending[k];
      AppendPlain(ReplyMessage(p.file, p.project, index));
      isLoading := false;
      pending := pending[..k] + pending[k + 1..];
    }

    /** The `k`-th owed reply, the acknowledgement of an upload, arrives. */
    method DeliverAck(k: nat)
      requires Valid() && k < |pending| && pending[k].Ack?
      modifies this
      ensures Valid()
      ensures pending == old(pending[..k] + pending[k + 1..])
      ensures messages == old(messages) + [Plain(Assistant, AckText(old(pending[k]).count))]
      ensures isLoading == old(isLoading)
      ensures timers == old(timers) && inputValue == old(inputValue)
      ensures selectedFile == old(selectedFile) && selectedProject == old(selectedProject)
      ensures isDragOver == old(isDragOver) && form == old(form)
      ensures isCreateProjectOpen == old(isCreateProjectOpen) && isProjectPickerOpen == old(isProjectPickerOpen)
    {
      var p := pending[k];
      AppendPlain(Plain(Assistant, AckText(p.count)));
      pending := pending[..k] + pending[k + 1..];
    }

    /** Appends a message without files; no file changes. */
    method AppendPlain(m: Message)
      requires Valid() && m.files == []
      modifies this
      ensures Valid()
      ensures messages == old(messages) + [m]
      ensures timers == old(timers) && pending == old(pending) && inputValue == old(inputValue)
      ensures selectedFile == old(selectedFile) && selectedProject == old(selectedProject)
      ensures isLoading == old(isLoading) && form == old(form) && isDragOver == old(isDragOver)
      ensures isCreateProjectOpen == old(isCreateProjectOpen) && isProjectPickerOpen == old(isProjectPickerOpen)
    {
      AllFilesAppend(messages, m);
      messages := messages + [m];
    }

    /** `handleCreateProject`: a blank name does nothing; otherwise the name is
        selected, one system notice is appended, the form is reset and closed. */
    method CreateProject()
      requires Valid()
      modifies this
      ensures Valid()
      ensures IsBlank(old(form.name)) ==>
                messages == old(messages) && selectedProject == old(selectedProject) && form == old(form)
                && isCreateProjectOpen == old(isCreateProjectOpen)
      ensures !IsBlank(old(form.name)) ==>
                selectedProject == Some(old(form.name))
                && messages == old(messages) + [Plain(System, CreatedNotice(old(form.name)))]
                && form == EmptyForm && !isCreateProjectOpen
      ensures timers == old(timers) && pending == old(pending) && inputValue == old(inputValue)
      ensures selectedFile == old(selectedFile) && isLoading == old(isLoading)
      ensures isDragOver == old(isDragOver) && isProjectPickerOpen == old(isProjectPickerOpen)
    {
      TrimEmptyIffBlank(form.name);
      if Trim(form.name) == [] {
        return;
      }
      var name := form.name;
      selectedProject := Some(name);
      var m := Plain(System, CreatedNotice(name));
      AllFilesAppend(messages, m);
      messages := messages + [m];
      form := EmptyForm;
      isCreateProjectOpen := false;
    }

    /** `handleAddExistingProject`: select the name, close the picker, append a notice. */
    method AddExistingProject(name: string)
      requires Valid()
      modifies this
      ensures Valid()
      ensures selectedProject == Some(name) && !isProjectPickerOpen
      ensures messages == old(messages) + [Plain(System, AddedNotice(name))]
      ensures timers == old(timers) && pending == old(pending) && form == old(form)
      ensures selectedFile == old(selectedFile) && inputValue == old(inputValue)
      ensures isLoading == old(isLoading) && isDragOver == old(isDragOver)
      ensures isCreateProjectOpen == old(isCreateProjectOpen)
    {
      selectedProject := Some(name);
      isProjectPickerOpen := false;
      var m := Plain(System, AddedNotice(name));
      AllFilesAppend(messages, m);
      messages := messages + [m];
    }
  }
}
