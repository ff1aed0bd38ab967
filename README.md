# ComplianceTemplate in Dafny

A model of the front end of ComplianceTemplate, a prototype for reviewing
architectural CAD drawings against building codes. The model covers these
parts of the front end:

- **Project store.** The browser key `architectural-projects` holds the saved
  projects as JSON. `saveProject`, `getProjects` and `updateProject` read and
  write it.
- **Three chats.**
  - The shared chat shell.
  - The design assistant chat, with project and file contexts, canned
    replies, a project dialog and a project picker.
  - The project-setup chat, whose keyword replies follow the discipline
    classifier and which can save a project.
- **Uploads.**
  - The two chats and the drop area take DXF files of at most 100 MiB. The
    code-book upload and the setup form take every file given.
  - In the two chats and the drop area, an interval simulates each upload.
    It raises a random progress, switches the file to "processing" at 100 and
    completes it after a timeout.
  - The code-book upload runs awaited `for` loops instead. Progress goes from
    0 to 100 in steps of 10, then a processing phase goes from 0 to 100 in
    steps of 20, and the document is completed. Documents are classified by
    name.
  - The project setup form has two file lists, one for CAD files and one for
    building codes. Its interval raises a random progress and completes the
    file as soon as it reaches 100, with no processing stage.
- **File library and code search.** Both filter a fixed catalogue.
- **Export dashboard.** It has format and section checkboxes, a preview, a
  timer-driven export and a download.
- **Compliance views.** The overview has constant statistics and colour
  bands. The details view has per-discipline progress, analyses, generated
  action items and task assignment.
- **Message display.** Assistant messages are split into lines, and each line
  is classified by its markup.

## How the model is built

**Components with state.** Each React component that keeps state becomes a
`class`, and each `useState` becomes a field.

**Handlers.** Each handler becomes a method. Its `ensures` gives the whole new
state.

**Disabled controls.** A button or input becomes a method of its own when
being disabled changes what it does (`ClickSend`, `InputKeyPress`,
`ClickGenerate`, `ClickSubmit`, `ClickCreateAll`, `ClickSearch`, …). Such a
method does nothing while the control is disabled and otherwise calls the
handler. Three disabled controls have no method of their own, because their
handlers already do nothing in the disabled case:
- the project chat's Send button, disabled on blank input, where
  `SendMessage` does nothing;
- its dialog's Create button, disabled unless name, type and discipline are
  filled, where `CreateProject` does nothing unless `CanCreate` holds;
- the Assign button of an action item, disabled once it is assigned, where
  `AssignTask` leaves both sets as they are.

**Timers.** Intervals and timeouts run outside the handler that starts them.
Each one is a method of its own (`Tick`, `Finish`, `DeliverReply`,
`ExportTick`, `GenerationDone`, …) that the environment may call at any time.
The values a callback closes over are captured in the state when the timer
starts. Examples:
- the text of a question;
- the project an export was started for;
- the list length seen by "create all".

**Invariants.** The timer-driven upload components keep an invariant: every
file record agrees with the timer that drives it (`Uploads.InStep` and its
relatives). These are the two chats, the drop area and the setup form. Every
handler and every timer callback of theirs preserves it. The code-book
library has no such invariant. Its loops carry loop invariants that tie the
documents to a script of writes (`ApplyWrites`), and lemmas about that script
prove the outcome.

**Pure computations.** Classifiers, filters, the compliance rounding, the
analysis and template lookups, and the line formatter are functions. Lemmas
relate them to reference definitions:
- first-match-wins over a rule table;
- membership and order for the filters;
- for the rounding, the whole number nearest to the exact share;
- round trips for the line formatter.

**Nondeterminism.** Random draws (`Math.random`) become parameters bounded
like the draw. Generated ids arrive as parameters that a precondition keeps
fresh. In the export step the random increment is a `delta` in [0, 15).

**Module layout.**
- `Common`: options, `filter` and its lemmas, rounding, distinctness.
- `Text`: lower case, `includes`, `trim`, `split`, decimal text.
- `Classify`: ordered keyword tables.
- `Discipline`: `detectDiscipline`.
- `Uploads`: the DXF check and the timer invariant.
- `ChatUploads`: what both upload chats share.
- One module per component: `BaseChat`, `ChatInterface`, `ProjectChat`,
  `FileUploadArea`, `BuildingCodesUpload`, `ProjectSetupForm`, `FileManager`,
  `BuildingCodesSearch`, `ExportDashboard`, `ComplianceOverview`,
  `ComplianceDetails`, `ChatMessage`.
- `ProjectStorage`: the store.

**Behaviours the contracts pin down.** Each one follows the code:
- **Warning lines.** A line starting with the warning sign keeps a leading
  space. The mark is two UTF-16 units plus a space, and `slice(2)` drops only
  two (`ChatMessage.WarningKeepsSpace`).
- **Export timers.**
  - The preview dialog's "Generate Export" ignores `isExporting`, so two
    export intervals can advance the same progress.
  - Each interval downloads the report of the project selected when it
    started.
  - The file is always named `<project>-report.pdf`, whatever format was
    chosen.
- **Task sets.** The created and assigned task sets are not cleared when new
  action items are generated.
- **"Create all".** It marks the indices of the list as it was at the click.
- **Compliance rounding.** "100%" does not imply every check passed: 199 of
  200 shows 100. It does imply it for lists shorter than 200
  (`ComplianceDetails.ProgressExtremesExact`).
- **Empty discipline.** It divides 0 by 0 and shows `NaN`, modelled as `None`.
- **File badge.** A message whose file context is the empty string shows no
  badge.
- **Library discipline filter.** The selection is compared with the
  lower-cased discipline without being lower-cased itself, so a selection
  with a capital letter shows nothing.
- **Code search.** It runs on Enter even while a search is in flight; only the
  button is disabled then. The last search to finish wins.

## Model

| member | source | states |
|---|---|---|
| ProjectStorage.SerializeAll | lib/project-storage.ts:22 | `JSON.stringify` writes one stored record per project |
| ProjectStorage.ReviveAll | lib/project-storage.ts:33-36 | the `map` of `getProjects` revives one project per stored record |
| ProjectStorage.ReviveSerialized | lib/project-storage.ts:22-36 | reading back what was written gives the same projects, `createdAt` included |
| ProjectStorage.ReadProjectsCases | lib/project-storage.ts:25-40 | the result is empty outside a browser, when the key is absent and when `getProjects` fails on its text (unparsable, no `map`, a null element); otherwise it is the revived records |
| ProjectStorage.SavedFirst | lib/project-storage.ts:20 | after a save the saved project is first |
| ProjectStorage.SavedShape | lib/project-storage.ts:20 | exactly one record has the saved id; the rest are the old records with other ids, in their old order, none lost; the length is 1 plus the old length minus the old records with that id |
| ProjectStorage.NoneWithId | lib/project-storage.ts:20 | a list where no record has the id counts zero records with it |
| ProjectStorage.SavedIdempotent | lib/project-storage.ts:16-23 | saving the same project twice leaves what saving it once leaves |
| ProjectStorage.Updated | lib/project-storage.ts:44-46 | `updateProject` keeps the list length |
| ProjectStorage.UpdatedAt | lib/project-storage.ts:44-46 | a record with the id gets the update merged and `lastActivity` set to now, whatever the update supplied; other records are untouched |
| ProjectStorage.UpdatedAbsent | lib/project-storage.ts:42-51 | with no record carrying the id the list is written back unchanged |
| ProjectStorage.UpdatedKeepsIds | lib/project-storage.ts:44-46 | unless the update supplies another id, every record keeps its id |
| ProjectStorage.UpdateCanRename | lib/project-storage.ts:45 | an update that supplies another id renames the matching record |
| ProjectStorage.Store.constructor | lib/project-storage.ts:17 | the store starts with the given entries and the given browser flag |
| ProjectStorage.Store.SaveProject | lib/project-storage.ts:16-23 | outside a browser nothing changes; otherwise the key is overwritten with the saved list (even when it held unparsable text), which then reads back with the project first |
| ProjectStorage.Store.UpdateProject | lib/project-storage.ts:42-51 | outside a browser nothing changes; otherwise the key holds the updated list, which reads back as `Updated` of what was read |
| ProjectStorage.SaveThenRead | lib/project-storage.ts:16-40 | in a browser a save followed by a read gives the saved project first and exactly once |
| Text.ToLowerIdempotent | components/upload/file-manager.tsx:83 | lower-casing twice is lower-casing once |
| Text.ToLowerSlice | components/upload/file-upload-area.tsx:54 | lower-casing commutes with taking a slice, so `endsWith` after `toLowerCase` looks at the lower-cased tail |
| Text.ContainsAt | components/upload/file-manager.tsx:83 | an occurrence at a position is an `includes` match |
| Text.ContainsWitness | components/upload/file-manager.tsx:83 | every `includes` match sits at some position |
| Text.ContainsHasChars | components/chat/base-chat-interface.tsx:45-52 | every character of an included string occurs in the string |
| Text.TrimEndEmptyIffBlank | components/chat/base-chat-interface.tsx:126 | trimming the end leaves nothing exactly for blank strings |
| Text.TrimStartKeepsNonBlank | components/chat/base-chat-interface.tsx:126 | trimming the start keeps a string blank exactly when it was blank |
| Text.TrimEmptyIffBlank | components/chat/base-chat-interface.tsx:126 | `!s.trim()` holds exactly for empty and all-whitespace strings |
| Text.Split | components/chat/chat-message.tsx:22 | `split` always yields at least one part |
| Text.JoinSplit | components/chat/chat-message.tsx:22 | joining the parts of a split with the separator gives the string back |
| Text.SplitShape | components/chat/chat-message.tsx:22 | there is one part more than there are separators, and no part holds one |
| Text.NatToString | components/upload/file-manager.tsx:77 | the decimal text of a whole number is non-empty and all digits |
| Text.NatToStringValue | components/upload/file-manager.tsx:77-79 | the decimal text reads back as the same number |
| Common.Filter | components/upload/file-upload-area.tsx:109 | `filter` keeps no more elements than there were, and every kept one passes |
| Common.FilterMembership | components/upload/file-upload-area.tsx:109 | an element is kept exactly when it is in the list and passes |
| Common.FilterIsSubsequence | components/upload/file-upload-area.tsx:109 | the kept elements keep their order |
| Common.FilterIdempotent | components/upload/file-manager.tsx:82-86 | filtering twice by the same test is filtering once |
| Common.FilterAppend | components/export/export-dashboard.tsx:56 | filtering distributes over concatenation |
| Common.FilterLength | components/compliance/compliance-details.tsx:156 | `filter` keeps exactly as many elements as pass, and drops the others |
| Common.FilterDistinct | components/export/export-dashboard.tsx:93-94 | filtering a list without repeats gives one without repeats |
| Common.DistinctCard | components/compliance/compliance-details.tsx:349 | a list without repeats has as many elements as its set |
| Common.RoundedPercentRange | components/compliance/compliance-details.tsx:155-158 | of at most `total` passed, `Math.round(passed / total * 100)` is at most 100; all passed gives 100, none gives 0 |
| Common.RoundedPercentNearest | components/compliance/compliance-details.tsx:157 | the model's percentage is the whole number nearest to the exact rational share, exact halves going up; the double arithmetic of the source is not modelled (see "Left out") |
| Classify.MatchesSome | components/chat/base-chat-interface.tsx:47 | a keyword group matches exactly when one of its keywords occurs |
| Classify.FirstMatchIsFirst | components/chat/base-chat-interface.tsx:45-52 | the first matching rule decides, whatever later rules say |
| Classify.FirstMatchNone | components/chat/base-chat-interface.tsx:51 | with no rule matching the fallback is returned |
| Classify.FirstMatchRange | components/chat/base-chat-interface.tsx:45-52 | the result is some rule's tag or the fallback |
| Classify.FirstMatchFallbackIff | components/chat/base-chat-interface.tsx:45-52 | when no rule carries the fallback tag, the fallback comes out exactly when no rule matches |
| Discipline.DetectDiscipline | components/chat/base-chat-interface.tsx:45-52 | the label is one of HVAC, Electrical, Mechanical, Structural, General |
| Discipline.MatchesThree | components/chat/base-chat-interface.tsx:47 | a three-keyword group matches exactly when one of the three occurs |
| Discipline.DetectDisciplineIsFirstMatch | components/chat/base-chat-interface.tsx:45-52 | the if-chain is first-match-wins over the table HVAC, Electrical, Mechanical, Structural on the lower-cased name |
| Discipline.DetectDisciplineCaseInsensitive | components/chat/base-chat-interface.tsx:46 | case does not matter |
| Discipline.DetectDisciplinePriority | components/chat/base-chat-interface.tsx:47-50 | the first group in table order that has a keyword in the name decides |
| Discipline.DetectDisciplineGeneral | components/chat/base-chat-interface.tsx:51 | "General" exactly when none of the twelve keywords occurs |
| Discipline.GeneralWhenLacking | components/chat/base-chat-interface.tsx:45-52 | a name without any of h, v, c, g, p, b, t is General |
| Discipline.GeneralExample | components/chat/base-chat-interface.tsx:51 | "randomfile.dxf" is General |
| Discipline.HvacMentionWins | components/chat/base-chat-interface.tsx:47 | a name that mentions "hvac" is HVAC even when it also names another discipline |
| Discipline.HvacElectricalExample | components/chat/base-chat-interface.tsx:47 | "hvac_electrical.dxf" is HVAC |
| Discipline.HvacFloorPlanExample | components/chat/base-chat-interface.tsx:46-47 | "HVAC_Floor_Plan_L1.dxf" is HVAC |
| Discipline.ElectricalWhenNoHvac | components/chat/base-chat-interface.tsx:47-48 | a name starting with "electrical" and lacking v and g is Electrical |
| Discipline.ElectricalExample | components/chat/base-chat-interface.tsx:48 | "Electrical_Schematic_Main.dxf" is Electrical |
| Uploads.AcceptedFilesSpec | components/upload/file-upload-area.tsx:53-57 | the accepted files are exactly the DXF files of at most 100 MiB, in input order |
| Uploads.AcceptedExamples | components/upload/file-upload-area.tsx:54-55 | the extension test ignores case and the size limit is inclusive |
| Uploads.Clamp | components/upload/file-upload-area.tsx:83 | `Math.min(progress, 100)` is at most 100, is the progress below 100, and is non-negative for non-negative progress |
| Uploads.AfterTick | components/upload/file-upload-area.tsx:79-91 | a tick grows the file's accumulator; at 100 or more the interval is cleared and the completion is scheduled; other timers are untouched |
| Uploads.AfterFinish | components/upload/file-upload-area.tsx:93-95 | the completion of one file removes only its pending completion |
| Uploads.AfterStart | components/upload/file-upload-area.tsx:72-74 | each new file gets an interval at 0; other timers are untouched |
| Uploads.TickKeepsInStep | components/upload/file-upload-area.tsx:79-91 | a tick keeps every record in step with the timers; the ticked file was uploading, moves only forward, and stays within 100 |
| Uploads.FinishKeepsInStep | components/upload/file-upload-area.tsx:93-95 | a completion keeps every record in step; the completed file was processing |
| Uploads.StartKeepsInStep | components/upload/file-upload-area.tsx:59-74 | starting intervals for fresh ids keeps old records in step, and each new uploading record at 0 is in step |
| ChatUploads.AllFilesAppend | components/project/project-chat-interface.tsx:250 | the files of the messages with one more appended are the old files followed by its files |
| ChatUploads.NewChatFiles | components/project/project-chat-interface.tsx:136-143 | one record per accepted file |
| ChatUploads.IntakeSpec | components/project/project-chat-interface.tsx:122-161 | intake appends one message: the rejection notice exactly when nothing is accepted, else a user message "Uploaded n file(s)" whose files are the accepted ones in order, uploading at 0, each with the discipline of its name |
| ChatUploads.ChangeFiles | components/project/project-chat-interface.tsx:189 | a write into the files of one message keeps their number |
| ChatUploads.ChangeMessages | components/project/project-chat-interface.tsx:187-192 | a write into all messages keeps their number |
| ChatUploads.ChangeFilesAppend | components/project/project-chat-interface.tsx:189 | the file write distributes over concatenation |
| ChatUploads.AllFilesChange | components/project/project-chat-interface.tsx:187-192 | changing inside every message is changing the flat file list |
| ChatUploads.ChangeMessagesFrame | components/project/project-chat-interface.tsx:187-192 | a write touches only files: each message keeps role, content, contexts and the number and ids of its files |
| ChatUploads.ChangeAbsent | components/project/project-chat-interface.tsx:187-192 | with no file carrying the id nothing changes |
| ChatUploads.IntakeKeepsTracked | components/project/project-chat-interface.tsx:150-161 | intake with fresh ids keeps every file in step with the timers once the intervals start |
| ChatUploads.TickKeepsTracked | components/project/project-chat-interface.tsx:185-205 | a tick keeps the files in step, changes only the ticked file, moves its status only forward and stores at most 100 |
| ChatUploads.FinishKeepsTracked | components/project/project-chat-interface.tsx:207-213 | a completion keeps the files in step; only the processing file with the id changes, to completed |
| ChatUploads.CompletedNames | components/project/project-chat-interface.tsx:249-252 | the names of completed files are never more than the files |
| ChatUploads.CompletedNamesSpec | components/project/project-chat-interface.tsx:249-252 | a name is listed exactly when some completed file carries it |
| ChatUploads.CompletedNamesEmpty | components/project/project-chat-interface.tsx:249-252 | the list is empty exactly when no file is completed |
| BaseChat.Shell.constructor | components/chat/base-chat-interface.tsx:73-82 | the shell starts with the owner's messages and loading flag, an empty input and no drag highlight |
| BaseChat.Shell.ResetMessages | components/chat/base-chat-interface.tsx:93-95 | a new `initialMessages` replaces the whole list and nothing else |
| BaseChat.Shell.SetInput | components/chat/base-chat-interface.tsx:299 | typing sets only the input |
| BaseChat.Shell.DragOver | components/chat/base-chat-interface.tsx:97-105 | dragging lights the shell only when uploads are handled |
| BaseChat.Shell.DragLeave | components/chat/base-chat-interface.tsx:107-110 | leaving clears the highlight |
| BaseChat.Shell.Drop | components/chat/base-chat-interface.tsx:112-123 | a drop clears the highlight; the files, unfiltered, reach the owner only when it handles uploads |
| BaseChat.Shell.SendMessage | components/chat/base-chat-interface.tsx:125-129 | blank input is neither sent nor cleared; other input goes to the owner exactly as typed and the box empties |
| BaseChat.Shell.KeyPress | components/chat/base-chat-interface.tsx:131-136 | Enter without Shift sends; every other key leaves everything as it is |
| BaseChat.Shell.SetLoading | components/chat/base-chat-interface.tsx:73 | a new `isLoading` from the owner changes only that flag |
| BaseChat.Shell.InputChange | components/chat/base-chat-interface.tsx:299-303 | typing changes the input only while not loading |
| BaseChat.Shell.ClickSend | components/chat/base-chat-interface.tsx:306-307 | the Send button does nothing while loading or with blank input; otherwise the text as typed goes to the owner and the box empties |
| BaseChat.Shell.InputKeyPress | components/chat/base-chat-interface.tsx:300-303 | a key in the disabled box is lost while loading; otherwise Enter without Shift sends |
| ChatInterface.ContextOf | components/chat/chat-interface.tsx:234-235 | `value \|\| undefined` records a context exactly when it is present and not empty, and then records it unchanged |
| ChatInterface.ContextPrefixCases | components/chat/chat-interface.tsx:38-45 | each selection case has its own opening, "Based on your", "For your", "Looking at your" or nothing, and conversely |
| ChatInterface.ReplyShape | components/chat/chat-interface.tsx:37-55 | every reply is the context opening followed by one of the four fixed bodies |
| ChatInterface.AckTextAsWrittenDiffers | components/chat/chat-interface.tsx:168 | the acknowledgement as written carries U+201A where the project chat's has the bullet U+2022, so the two chats send different texts |
| ChatInterface.NoticesAsWrittenDiffer | components/chat/chat-interface.tsx:277 | the creation and added notices as written open with mis-decoded characters instead of U+2705 and U+1F4C1, and are 2 and 3 characters longer |
| ChatInterface.EditForm | components/chat/chat-interface.tsx:357-418 | editing a dialog field changes that field only |
| ChatInterface.ReplyMessage | components/chat/chat-interface.tsx:243-256 | the reply to a question is an assistant message without files |
| ChatInterface.Chat.constructor | components/chat/chat-interface.tsx:58-83 | the chat opens with the welcome message, no selection, no loading, an empty form and no timers |
| ChatInterface.Chat.SetInput | components/chat/chat-interface.tsx:679 | typing sets only the input |
| ChatInterface.Chat.SelectFile | components/chat/chat-interface.tsx:68 | selecting a file sets only the file context |
| ChatInterface.Chat.SelectProject | components/chat/chat-interface.tsx:69 | selecting a project sets only the project context |
| ChatInterface.Chat.EditProjectForm | components/chat/chat-interface.tsx:357-418 | one field of the dialog changes |
| ChatInterface.Chat.DragOver | components/chat/chat-interface.tsx:102-105 | dragging sets the highlight |
| ChatInterface.Chat.DragLeave | components/chat/chat-interface.tsx:107-110 | leaving clears it |
| ChatInterface.Chat.HandleFileUpload | components/chat/chat-interface.tsx:120-173 | one message is appended; with nothing accepted it is the rejection notice and nothing starts; otherwise one interval per file starts and an acknowledgement is owed; files stay in step with timers |
| ChatInterface.Chat.Drop | components/chat/chat-interface.tsx:112-118 | the highlight clears and the dropped files go to intake: one message, the new intervals and the owed acknowledgement exactly as `HandleFileUpload`; nothing else changes |
| ChatInterface.Chat.Tick | components/chat/chat-interface.tsx:186-205 | a tick writes the clamped progress (and processing at 100) into the file with the id in every message, keeping files in step |
| ChatInterface.Chat.Finish | components/chat/chat-interface.tsx:207-213 | the completion timeout marks the file completed |
| ChatInterface.Chat.SendMessage | components/chat/chat-interface.tsx:227-257 | blank input does nothing; otherwise the untrimmed text is appended with the current contexts, the input clears, loading starts and a reply with those contexts is owed |
| ChatInterface.Chat.KeyPress | components/chat/chat-interface.tsx:259-264 | Enter without Shift has exactly the effect of `SendMessage` (nothing for blank input, otherwise the message, cleared input, loading and an owed reply); other keys change nothing |
| ChatInterface.Chat.ClickSend | components/chat/chat-interface.tsx:694-695 | the Send button does nothing while loading or with blank input; otherwise it sends as `SendMessage` does |
| ChatInterface.Chat.InputChange | components/chat/chat-interface.tsx:679-691 | typing changes the input only while no reply is loading |
| ChatInterface.Chat.InputKeyPress | components/chat/chat-interface.tsx:680-691 | a key in the disabled box is lost while loading; otherwise it is `KeyPress` |
| ChatInterface.Chat.SetCreateProjectOpen | components/chat/chat-interface.tsx:335 | the dialog's open state changes and nothing else |
| ChatInterface.Chat.ToggleProjectPicker | components/chat/chat-interface.tsx:622 | the picker button flips the picker's open state and nothing else |
| ChatInterface.Chat.CloseProjectPicker | components/chat/chat-interface.tsx:667 | Cancel closes the picker and nothing else |
| ChatInterface.Chat.DeliverReply | components/chat/chat-interface.tsx:243-256 | an owed reply arrives with the contexts of the moment it was asked, and loading ends |
| ChatInterface.Chat.DeliverAck | components/chat/chat-interface.tsx:159-172 | an owed acknowledgement arrives with the count of accepted files; loading is untouched |
| ChatInterface.Chat.AppendPlain | components/chat/chat-interface.tsx:131 | appending a message without files keeps the files in step and changes nothing else |
| ChatInterface.Chat.CreateProject | components/chat/chat-interface.tsx:266-291 | a blank name does nothing; otherwise the name is selected, one system notice is appended, the form is reset and the dialog closes |
| ChatInterface.Chat.AddExistingProject | components/chat/chat-interface.tsx:293-305 | the name is selected, the picker closes and a notice is appended |
| ProjectChat.CreationFirst | components/project/project-chat-interface.tsx:84-87 | the creation reply comes exactly when the text mentions "create project", "save project" or "new project" |
| ProjectChat.ReplyAgreesWithDiscipline | components/project/project-chat-interface.tsx:89-101 | without a creation phrase the reply is HVAC, Electrical or Mechanical exactly when the discipline classifier gives that label, and the default for Structural or General |
| ProjectChat.CreationExample | components/project/project-chat-interface.tsx:84 | a creation request that names a discipline still opens the form |
| ProjectChat.EditDetails | components/project/project-chat-interface.tsx:401-440 | editing a form field changes that field only |
| ProjectChat.NewProjectSpec | components/project/project-chat-interface.tsx:249-267 | the new project lists exactly the completed uploads; progress is 25 exactly when there is one and 10 exactly when there is none; it is an "In Progress" review of its discipline with compliance 0 and 15 checks |
| ProjectChat.Chat.constructor | components/project/project-chat-interface.tsx:35-54 | the chat opens with the welcome message, an empty input and form, and no timers |
| ProjectChat.Chat.SetInput | components/project/project-chat-interface.tsx:517 | typing sets only the input |
| ProjectChat.Chat.EditProjectDetails | components/project/project-chat-interface.tsx:401-440 | one field of the form changes |
| ProjectChat.Chat.SetProjectFormOpen | components/project/project-chat-interface.tsx:390 | the form dialog opens or closes |
| ProjectChat.Chat.AppendPlain | components/project/project-chat-interface.tsx:133 | appending a message without files keeps files in step |
| ProjectChat.Chat.SendMessage | components/project/project-chat-interface.tsx:56-79 | blank input does nothing; otherwise the untrimmed text is appended, the input clears and an answer to that text is owed |
| ProjectChat.Chat.KeyPress | components/project/project-chat-interface.tsx:520 | Enter, whatever the modifiers, has exactly the effect of `SendMessage`; other keys change nothing |
| ProjectChat.Chat.DeliverAnswer | components/project/project-chat-interface.tsx:70-102 | the keyword reply to the text sent arrives; a creation phrase opens the form, otherwise the form is untouched |
| ProjectChat.Chat.DeliverAck | components/project/project-chat-interface.tsx:163-172 | the acknowledgement of the upload count arrives |
| ProjectChat.Chat.HandleFileUpload | components/project/project-chat-interface.tsx:122-172 | one message is appended; the rejection notice starts nothing; otherwise intervals start and an acknowledgement is owed |
| ProjectChat.Chat.FileInputChange | components/project/project-chat-interface.tsx:235-242 | a missing file list does nothing, otherwise the files go to intake with exactly the message, intervals and owed acknowledgement of `HandleFileUpload`; the other fields never change |
| ProjectChat.Chat.DragOver | components/project/project-chat-interface.tsx:104-107 | dragging sets the highlight |
| ProjectChat.Chat.DragLeave | components/project/project-chat-interface.tsx:109-112 | leaving clears it |
| ProjectChat.Chat.Drop | components/project/project-chat-interface.tsx:114-120 | the highlight clears and the files go to intake with exactly the message, intervals and owed acknowledgement of `HandleFileUpload`; nothing else changes |
| ProjectChat.Chat.Tick | components/project/project-chat-interface.tsx:185-205 | a tick writes the file's progress and keeps files in step |
| ProjectChat.Chat.Finish | components/project/project-chat-interface.tsx:207-213 | the completion timeout marks the file completed |
| ProjectChat.Chat.CreateProject | components/project/project-chat-interface.tsx:244-282 | nothing unless name, type and discipline are filled; otherwise the new project is saved first in the store (browser only), the success notice is appended, the form closes and clears |
| FileUploadArea.MimeTypeOf | components/upload/file-upload-area.tsx:63 | an empty browser type becomes "application/dxf", any other is kept |
| FileUploadArea.NewRecords | components/upload/file-upload-area.tsx:59-67 | one record per accepted file |
| FileUploadArea.NewRecordsSpec | components/upload/file-upload-area.tsx:52-67 | each new record has its file's name and size, its own id, is uploading at 0, and its file was accepted |
| FileUploadArea.Written | components/upload/file-upload-area.tsx:83 | a write changes exactly the records with the id |
| FileUploadArea.TickedSpec | components/upload/file-upload-area.tsx:79-91 | a tick keeps every record in step, changes only the ticked id, never stores more than 100 and moves status only forward |
| FileUploadArea.TickedAbsent | components/upload/file-upload-area.tsx:79-91 | a tick for a removed file changes nothing |
| FileUploadArea.FinishedSpec | components/upload/file-upload-area.tsx:93-95 | the completion makes the processing record completed, all else unchanged and in step |
| FileUploadArea.RemovedSpec | components/upload/file-upload-area.tsx:108-110 | removal keeps exactly the other records, in order |
| FileUploadArea.RemovedInStep | components/upload/file-upload-area.tsx:108-110 | removal keeps the rest in step with timers that keep running |
| FileUploadArea.Area.constructor | components/upload/file-upload-area.tsx:24-25 | the area starts with no files and no timers |
| FileUploadArea.Area.HandleFiles | components/upload/file-upload-area.tsx:52-75 | the accepted files are appended, each with its own interval; rejected ones vanish |
| FileUploadArea.Area.HandleFileSelect | components/upload/file-upload-area.tsx:45-50 | no list does nothing, otherwise the files go to `handleFiles` |
| FileUploadArea.Area.DragOver | components/upload/file-upload-area.tsx:27-30 | dragging sets the highlight |
| FileUploadArea.Area.DragLeave | components/upload/file-upload-area.tsx:32-35 | leaving clears it |
| FileUploadArea.Area.Drop | components/upload/file-upload-area.tsx:37-43 | the highlight clears and the files are handled |
| FileUploadArea.Area.Tick | components/upload/file-upload-area.tsx:79-91 | one interval run writes the tick and keeps records in step |
| FileUploadArea.Area.Finish | components/upload/file-upload-area.tsx:93-95 | the completion timeout marks the record completed |
| FileUploadArea.Area.RemoveFile | components/upload/file-upload-area.tsx:108-110 | the record goes; timers keep running |
| BuildingCodesUpload.GetDocumentCategory | components/building-codes/building-codes-upload.tsx:104-112 | the category is one of the six |
| BuildingCodesUpload.MatchesTwo | components/building-codes/building-codes-upload.tsx:106 | a two-keyword group matches exactly when either occurs |
| BuildingCodesUpload.CategoryIsFirstMatch | components/building-codes/building-codes-upload.tsx:104-112 | the if-chain is first-match-wins over Building, Electrical, Mechanical, Plumbing, Fire Safety |
| BuildingCodesUpload.CategoryCaseInsensitive | components/building-codes/building-codes-upload.tsx:105 | case does not matter |
| BuildingCodesUpload.CategoryPriority | components/building-codes/building-codes-upload.tsx:106-110 | the first group with a keyword in the name decides |
| BuildingCodesUpload.CategoryGeneral | components/building-codes/building-codes-upload.tsx:111 | "General" exactly when none of the ten keywords occurs |
| BuildingCodesUpload.CategoryExample | components/building-codes/building-codes-upload.tsx:106 | "IBC_2021_Electrical.pdf" is filed under Building |
| BuildingCodesUpload.NewDocuments | components/building-codes/building-codes-upload.tsx:51-68 | one uploading document at 0 per file, in order |
| BuildingCodesUpload.WriteAll | components/building-codes/building-codes-upload.tsx:74 | a write changes exactly the documents with the id |
| BuildingCodesUpload.ApplyWrites | components/building-codes/building-codes-upload.tsx:70-102 | a script of writes keeps the list length |
| BuildingCodesUpload.FoldDoc | components/building-codes/building-codes-upload.tsx:70-102 | no write changes a document's id or name |
| BuildingCodesUpload.ApplyWritesSnoc | components/building-codes/building-codes-upload.tsx:70-102 | one more write is one more map over the list |
| BuildingCodesUpload.ApplyWritesAppend | components/building-codes/building-codes-upload.tsx:70-102 | running two scripts one after the other is running their concatenation |
| BuildingCodesUpload.ApplyWritesAt | components/building-codes/building-codes-upload.tsx:70-102 | a script touches the documents with its id, each as if alone, and nothing else |
| BuildingCodesUpload.ApplyWritesAbsent | components/building-codes/building-codes-upload.tsx:114-116 | once no document carries the id, the rest of its script changes nothing |
| BuildingCodesUpload.ProgressSteps | components/building-codes/building-codes-upload.tsx:72 | the loop writes 0, step, 2·step, …, count values |
| BuildingCodesUpload.PhasesRise | components/building-codes/building-codes-upload.tsx:72-86 | each phase writes strictly rising values from 0 to exactly 100, all within [0, 100] |
| BuildingCodesUpload.ProgressOnly | components/building-codes/building-codes-upload.tsx:74 | progress writes change only the progress, to the last value written |
| BuildingCodesUpload.KeepsTheRest | components/building-codes/building-codes-upload.tsx:72-86 | before the final write only status and progress change |
| BuildingCodesUpload.UploadPhaseKeepsStatus | components/building-codes/building-codes-upload.tsx:72-75 | during the upload loop the status stays |
| BuildingCodesUpload.SimulationOutcome | components/building-codes/building-codes-upload.tsx:70-102 | after the whole script the document is completed at 100 with the category of its name and the drawn count |
| BuildingCodesUpload.Library.constructor | components/building-codes/building-codes-upload.tsx:26-27 | the library starts empty |
| BuildingCodesUpload.Library.HandleFiles | components/building-codes/building-codes-upload.tsx:51-68 | one uploading document per file is appended, without any extension or size check |
| BuildingCodesUpload.Library.HandleFileSelect | components/building-codes/building-codes-upload.tsx:46-49 | an absent list counts as no files |
| BuildingCodesUpload.Library.DragOver | components/building-codes/building-codes-upload.tsx:29-32 | dragging sets the highlight |
| BuildingCodesUpload.Library.DragLeave | components/building-codes/building-codes-upload.tsx:34-37 | leaving clears it |
| BuildingCodesUpload.Library.Drop | components/building-codes/building-codes-upload.tsx:39-44 | the highlight clears and the files are handled |
| BuildingCodesUpload.Library.UploadLoop | components/building-codes/building-codes-upload.tsx:72-75 | the first loop writes 0, 10, …, 100 into the document |
| BuildingCodesUpload.Library.ProcessingLoop | components/building-codes/building-codes-upload.tsx:83-86 | the second loop writes 0, 20, …, 100 |
| BuildingCodesUpload.Library.SimulateUpload | components/building-codes/building-codes-upload.tsx:70-102 | the whole simulation applies the upload loop, the switch to processing, the processing loop and the final write |
| BuildingCodesUpload.Library.RemoveDocument | components/building-codes/building-codes-upload.tsx:114-116 | every document with another id stays, in order |
| BuildingCodesUpload.SimulationResult | components/building-codes/building-codes-upload.tsx:89-99 | a run ends with the document completed at 100, categorised, with 10 to 59 sections, name and size kept; others untouched |
| BuildingCodesUpload.RemovedThenWritten | components/building-codes/building-codes-upload.tsx:114-116 | after removal the rest of the document's running script leaves the list unchanged |
| ProjectSetupForm.WithField | components/project/project-setup-form.tsx:39-41 | `{ ...prev, [field]: value }` changes exactly the named field |
| ProjectSetupForm.FormValidIgnores | components/project/project-setup-form.tsx:115-121 | client, description and which CAD files there are never matter, only that there is one |
| ProjectSetupForm.FormInvalidWhenMissing | components/project/project-setup-form.tsx:115-121 | any empty required field, or no CAD file, makes the form invalid |
| ProjectSetupForm.FormValidExample | components/project/project-setup-form.tsx:115-121 | the fresh form is invalid; five fields and one CAD file make it valid |
| ProjectSetupForm.NewFiles | components/project/project-setup-form.tsx:46-53 | one uploading record at 0 per file, of the given list kind |
| ProjectSetupForm.WithProgress | components/project/project-setup-form.tsx:72-73 | `updateFiles` writes the progress into exactly the files with the id |
| ProjectSetupForm.Completing | components/project/project-setup-form.tsx:84-85 | `completeFiles` makes exactly the files with the id completed at 100 |
| ProjectSetupForm.TickedListSpec | components/project/project-setup-form.tsx:67-94 | a tick keeps its list in step, changes only its id, stores at most 100 and completes only uploading files |
| ProjectSetupForm.OtherListUntouched | components/project/project-setup-form.tsx:75-79 | a tick leaves the other list in step |
| ProjectSetupForm.WithoutSpec | components/project/project-setup-form.tsx:96-102 | removal keeps exactly the other files, in order and in step |
| ProjectSetupForm.Started | components/project/project-setup-form.tsx:62-64 | each new file gets an interval at 0 writing to its list; others untouched |
| ProjectSetupForm.StartedKeepsList | components/project/project-setup-form.tsx:62-64 | starting fresh intervals keeps existing files in step |
| ProjectSetupForm.Form.constructor | components/project/project-setup-form.tsx:25-37 | the form starts empty with no files and no timers |
| ProjectSetupForm.Form.HandleInputChange | components/project/project-setup-form.tsx:39-41 | only the named field changes |
| ProjectSetupForm.Form.HandleFileUpload | components/project/project-setup-form.tsx:43-65 | null does nothing; otherwise the files, unfiltered, go uploading into the named list only, each with an interval |
| ProjectSetupForm.Form.Tick | components/project/project-setup-form.tsx:67-94 | one interval run writes only the list of its kind |
| ProjectSetupForm.Form.RemoveFile | components/project/project-setup-form.tsx:96-102 | only that id leaves, only from the named list |
| ProjectSetupForm.Form.Submit | components/project/project-setup-form.tsx:104-105 | submitting raises the flag |
| ProjectSetupForm.Form.ClickSubmit | components/project/project-setup-form.tsx:431-432 | the button starts a submission only of a valid form with none under way; every submission it starts was of a valid form |
| ProjectSetupForm.Form.SubmitDone | components/project/project-setup-form.tsx:108-109 | its timeout lowers it |
| FileManager.HoursAgo | components/upload/file-manager.tsx:74 | the whole hours are the floor of the age in hours |
| FileManager.JustNow | components/upload/file-manager.tsx:76 | under an hour (or in the future) the age reads "Just now" |
| FileManager.HoursAgoText | components/upload/file-manager.tsx:77 | from 1 to 23 hours the text is the hour count in decimal followed by "h ago" |
| FileManager.DaysAgoText | components/upload/file-manager.tsx:78-79 | from 24 hours on it is the floor of hours/24 followed by "d ago" |
| FileManager.MockAges | components/upload/file-manager.tsx:28-62 | the library shows "2h ago", "5h ago" and "1d ago" |
| FileManager.FilteredFilesSpec | components/upload/file-manager.tsx:82-86 | exactly the files whose name contains the term and whose discipline is selected are shown, in library order |
| FileManager.FilteredFilesShowAll | components/upload/file-manager.tsx:82-86 | an empty term with "all" shows everything |
| FileManager.FilteredFilesIgnoreTermCase | components/upload/file-manager.tsx:83 | the case of the term does not matter |
| FileManager.UpperCaseSelectionShowsNothing | components/upload/file-manager.tsx:84 | a selection with a capital letter (other than "all") shows nothing; the select of lines 118-122 offers only lower-case values, so the UI cannot produce one |
| FileManager.FilteredFilesExample | components/upload/file-manager.tsx:82-86 | "electrical" shows only the schematic |
| BuildingCodesSearch.SearchResultsSpec | components/building-codes/building-codes-search.tsx:82-87 | the results are exactly the entries whose title, content or category contains the query, in catalogue order |
| BuildingCodesSearch.SearchIgnoresCase | components/building-codes/building-codes-search.tsx:84-86 | case does not matter |
| BuildingCodesSearch.NoSpaceNoMatch | components/building-codes/building-codes-search.tsx:84 | a text without spaces contains no query that has one |
| BuildingCodesSearch.SpacesTakePart | components/building-codes/building-codes-search.tsx:82-87 | the query is not trimmed, so a query with a space matches nothing without one |
| BuildingCodesSearch.Search.constructor | components/building-codes/building-codes-search.tsx:23-25 | no query, no results, not searching |
| BuildingCodesSearch.Search.SetQuery | components/building-codes/building-codes-search.tsx:117 | typing sets only the query |
| BuildingCodesSearch.Search.HandleSearch | components/building-codes/building-codes-search.tsx:74-79 | a blank query changes nothing; otherwise the flag rises and a search for the query as typed starts |
| BuildingCodesSearch.Search.KeyPress | components/building-codes/building-codes-search.tsx:118 | Enter searches exactly as `HandleSearch` does, even while a search is in flight; other keys change nothing |
| BuildingCodesSearch.Search.ClickSearch | components/building-codes/building-codes-search.tsx:122 | the button does nothing while a search is in flight; otherwise it is `HandleSearch` |
| BuildingCodesSearch.Search.CompleteSearch | components/building-codes/building-codes-search.tsx:82-90 | a finished search replaces the results with its matches and lowers the flag |
| ExportDashboard.IdsOf | components/export/export-dashboard.tsx:93-94 | the ids of a catalogue in its order |
| ExportDashboard.FindProject | components/export/export-dashboard.tsx:90 | a found project is in the list with that id; nothing is found exactly when no project has it |
| ExportDashboard.ToggleMembership | components/export/export-dashboard.tsx:52-66 | after a toggle an id is selected exactly when it is the toggled one and was checked, or another id that was selected |
| ExportDashboard.UncheckKeepsOrder | components/export/export-dashboard.tsx:56 | unchecking keeps the other ids in order |
| ExportDashboard.CheckThenUncheck | components/export/export-dashboard.tsx:52-58 | unchecking a just-checked id restores the selection |
| ExportDashboard.ClickKeepsSelectionValid | components/export/export-dashboard.tsx:151-157 | a checkbox click keeps the selection free of repeats and within the catalogue |
| ExportDashboard.PreviewSpec | components/export/export-dashboard.tsx:93-94 | the preview lists exactly the selected catalogue entries, in catalogue order |
| ExportDashboard.PreviewIgnoresOrder | components/export/export-dashboard.tsx:93-94 | the order of checking and repeats do not change the preview |
| ExportDashboard.IdsOfFilter | components/export/export-dashboard.tsx:93-94 | filtering entries by id and taking ids commute |
| ExportDashboard.PreviewCount | components/export/export-dashboard.tsx:92-103 | for checkbox selections the preview has one entry per selected id |
| ExportDashboard.CataloguesDistinct | components/export/export-dashboard.tsx:36-50 | no catalogue repeats an id |
| ExportDashboard.DefaultSelectionsValid | components/export/export-dashboard.tsx:23-24 | the opening selections, PDF and compliance plus summary, are ones the checkboxes can produce: listed ids, none twice |
| ExportDashboard.EstimatedPagesBounds | components/export/export-dashboard.tsx:100 | the estimate lies in 2..20 and is 3 per selected section plus 2 |
| ExportDashboard.PreviewDisabledIffEmpty | components/export/export-dashboard.tsx:257 | the buttons are disabled exactly when the preview would list no format or no section |
| ExportDashboard.ThresholdsReached | components/export/export-dashboard.tsx:231-237 | at most three thresholds are reached |
| ExportDashboard.PhaseLabelByThresholds | components/export/export-dashboard.tsx:231-237 | the message is the phase numbered by the thresholds 30, 60, 90 reached |
| ExportDashboard.PhasesInOrder | components/export/export-dashboard.tsx:231-237 | the phases never go back as progress rises |
| ExportDashboard.ProjectBadgeAgrees | components/export/export-dashboard.tsx:133-138 | the project cards colour with the overview's thresholds and classes |
| ExportDashboard.ProjectBands | components/export/export-dashboard.tsx:30-34 | the office and facility show green, the tower yellow |
| ExportDashboard.SummaryLine | components/export/export-dashboard.tsx:243-249 | the summary shows exactly when the selected project is known, and starts with "Selected: " and its name |
| ExportDashboard.Dashboard.constructor | components/export/export-dashboard.tsx:22-28 | the dashboard starts on the office project with PDF, compliance and summary selected, not exporting |
| ExportDashboard.Dashboard.SelectProject | components/export/export-dashboard.tsx:118-126 | a card click sets only the project |
| ExportDashboard.Dashboard.HandleFormatChange | components/export/export-dashboard.tsx:52-58 | the formats are toggled |
| ExportDashboard.Dashboard.HandleSectionChange | components/export/export-dashboard.tsx:60-66 | the sections are toggled |
| ExportDashboard.Dashboard.ClickFormat | components/export/export-dashboard.tsx:151-157 | a format box passes the opposite of its state and keeps the selections valid |
| ExportDashboard.Dashboard.ClickSection | components/export/export-dashboard.tsx:175-181 | a section box passes the opposite of its state and keeps the selections valid |
| ExportDashboard.Dashboard.SetDateRange | components/export/export-dashboard.tsx:197-219 | the date inputs set only the range |
| ExportDashboard.Dashboard.OpenPreview | components/export/export-dashboard.tsx:252-259 | the dialog opens unless the trigger is disabled |
| ExportDashboard.Dashboard.ClosePreview | components/export/export-dashboard.tsx:356 | the dialog closes |
| ExportDashboard.Dashboard.HandleExport | components/export/export-dashboard.tsx:68-73 | the flag rises, progress restarts at 0 and a timer capturing the project starts |
| ExportDashboard.Dashboard.ClickGenerate | components/export/export-dashboard.tsx:371-373 | the main button does nothing while disabled, otherwise it starts an export |
| ExportDashboard.Dashboard.GenerateFromPreview | components/export/export-dashboard.tsx:359-363 | the dialog closes and an export starts even while one runs |
| ExportDashboard.Dashboard.ExportTick | components/export/export-dashboard.tsx:73-87 | at 100 or more the timer stops, the flag clears, progress pins at 100 and the captured project's report downloads; below, the step is added; progress stays under 115 |
| ComplianceOverview.BandOf | components/compliance/compliance-overview.tsx:57-67 | green from 80, yellow from 60 to 79, red below 60, each exactly |
| ComplianceOverview.ColorFollowsBand | components/compliance/compliance-overview.tsx:57-61 | the colour class stands for the reference band |
| ComplianceOverview.BadgeFollowsBand | components/compliance/compliance-overview.tsx:63-67 | the badge class stands for the reference band |
| ComplianceOverview.ColorAndBadgeAgree | components/compliance/compliance-overview.tsx:57-67 | colour and badge always show the same band |
| ComplianceOverview.BandMonotone | components/compliance/compliance-overview.tsx:57-67 | a higher percentage never gets a worse band |
| ComplianceOverview.StatsConsistent | components/compliance/compliance-overview.tsx:8-55 | the counts add up overall and per discipline, the disciplines sum to the overall counts, and each shown percentage is the rounded pass rate |
| ComplianceOverview.OverallRate | components/compliance/compliance-overview.tsx:80 | 48 of 67 rounds to 72, a yellow rate |
| ComplianceOverview.DisciplineBands | components/compliance/compliance-overview.tsx:18-55 | HVAC and Electrical show green, Mechanical and Structural red |
| ComplianceDetails.DisciplineProgress | components/compliance/compliance-details.tsx:155-158 | no value exactly for an empty list (NaN); otherwise at most 100 |
| ComplianceDetails.ProgressExtremes | components/compliance/compliance-details.tsx:155-158 | all passed shows 100, none passed shows 0 |
| ComplianceDetails.ProgressExtremesExact | components/compliance/compliance-details.tsx:157 | below 200 checks, 100 exactly when all passed and 0 exactly when none did |
| ComplianceDetails.ProgressRoundingExamples | components/compliance/compliance-details.tsx:157 | 199 of 200 shows 100 and 1 of 201 shows 0 |
| ComplianceDetails.HvacProgress | components/compliance/compliance-details.tsx:23-123 | the office HVAC checks show 60 |
| ComplianceDetails.ElectricalProgress | components/compliance/compliance-details.tsx:23-123 | the office electrical checks show 60 |
| ComplianceDetails.MechanicalProgress | components/compliance/compliance-details.tsx:23-123 | the office mechanical checks show 50 |
| ComplianceDetails.GenericAnalysisSpec | components/compliance/compliance-details.tsx:214-220 | a check without an entry gets the generic analysis: summary ending with its name, three findings, two recommendations |
| ComplianceDetails.OwnAnalysisSpec | components/compliance/compliance-details.tsx:165-213 | a check with an entry gets it whatever its other fields, never a generic one |
| ComplianceDetails.TotalEffortAppend | components/compliance/compliance-details.tsx:717 | the effort of two lists is the sum of their efforts |
| ComplianceDetails.ReviewActionSpec | components/compliance/compliance-details.tsx:309-320 | a check without a template gets one 24-hour review item naming the check |
| ComplianceDetails.TemplatesSpec | components/compliance/compliance-details.tsx:229-320 | the templates hold 3, 2, 2 items of 80, 52, 64 hours, none the review item; every lookup gives at least one |
| ComplianceDetails.Indices | components/compliance/compliance-details.tsx:349 | the indices of a list of length n are exactly 0..n-1 |
| ComplianceDetails.IndicesCard | components/compliance/compliance-details.tsx:349 | there are n of them |
| ComplianceDetails.Details.constructor | components/compliance/compliance-details.tsx:12-21 | nothing selected or open, no items, empty task sets |
| ComplianceDetails.Details.ViewDetails | components/compliance/compliance-details.tsx:160-163 | the check is selected and its dialog opens |
| ComplianceDetails.Details.CreateActionItem | components/compliance/compliance-details.tsx:326-328 | the dialog opens and generation starts for the check |
| ComplianceDetails.Details.GenerationDone | components/compliance/compliance-details.tsx:309-323 | the looked-up items replace the list and the flag clears; the task sets stay |
| ComplianceDetails.Details.AssignTask | components/compliance/compliance-details.tsx:331-342 | the index joins both sets; assigning twice is assigning once; every assigned task is created |
| ComplianceDetails.Details.CreateAllTasks | components/compliance/compliance-details.tsx:344-347 | the flag rises and the list length at the click is captured |
| ComplianceDetails.Details.ClickCreateAll | components/compliance/compliance-details.tsx:726-727 | the button does nothing while creating or once every item is created; otherwise it is `CreateAllTasks` |
| ComplianceDetails.Details.SetDetailsOpen | components/compliance/compliance-details.tsx:517-563 | the details dialog opens or closes and nothing else changes |
| ComplianceDetails.Details.SetActionItemOpen | components/compliance/compliance-details.tsx:581-721 | the action dialog opens or closes, leaving generation and the task sets alone |
| ComplianceDetails.Details.CreateAllDone | components/compliance/compliance-details.tsx:349-353 | both sets become exactly the captured indices, as many as the captured length; the success message shows |
| ComplianceDetails.Details.HideSuccess | components/compliance/compliance-details.tsx:355-357 | the success message hides |
| ChatMessage.Inner | components/chat/chat-message.tsx:27 | `slice(2, -2)` is the line without its two first and two last characters, and empty once they meet |
| ChatMessage.DropTwo | components/chat/chat-message.tsx:42 | `slice(2)` is the line without its first two characters |
| ChatMessage.DigitsThenDotSound | components/chat/chat-message.tsx:54 | a match of `/^\d+\./` has a dot after one or more leading digits |
| ChatMessage.DigitsThenDotComplete | components/chat/chat-message.tsx:54 | a dot after one or more leading digits matches `/^\d+\./` |
| ChatMessage.FormatLines | components/chat/chat-message.tsx:23-69 | one block per line, block k classifying line k |
| ChatMessage.FormatContentShape | components/chat/chat-message.tsx:20-70 | one block per newline plus one, in order |
| ChatMessage.BoldRoundTrip | components/chat/chat-message.tsx:24-30 | a text wrapped in `**` shows as a heading of that text |
| ChatMessage.ShortBold | components/chat/chat-message.tsx:24-30 | "**" and "***" show an empty heading |
| ChatMessage.BulletKept | components/chat/chat-message.tsx:31-37 | a bullet line is kept whole |
| ChatMessage.CheckRoundTrip | components/chat/chat-message.tsx:38-45 | a check line shows what follows the mark and space |
| ChatMessage.WarningKeepsSpace | components/chat/chat-message.tsx:46-53 | a warning line shows its text with a leading space |
| ChatMessage.NumberedKept | components/chat/chat-message.tsx:54-60 | a line matching `/^\d+\./` is kept whole |
| ChatMessage.StartNotBlank | components/chat/chat-message.tsx:61 | a line starting with a visible mark is not blank |
| ChatMessage.NumberedNotBlank | components/chat/chat-message.tsx:61 | a numbered line is not blank |
| ChatMessage.SpacerIffBlank | components/chat/chat-message.tsx:61-63 | a line shows as a spacer exactly when it is blank |
| ChatMessage.VerbatimKinds | components/chat/chat-message.tsx:31-68 | bullets, numbered lines and paragraphs show the line unchanged |
| ChatMessage.HeadingFirst | components/chat/chat-message.tsx:24 | the heading test comes first: "**1. Scope**" is a heading |
| ChatMessage.Badge | components/chat/chat-message.tsx:107 | the badge shows exactly for a present, non-empty file context, and shows it |
| ChatMessage.RenderSpec | components/chat/chat-message.tsx:72-114 | a user's text shows whole; an assistant's has one block per line |

## Left out

- Rendering, icons, styling and scrolling. Only the decisions behind what is
  shown are modelled: the classes chosen, the labels and the line blocks.
- `getStatusColor`, `getPriorityColor`, `getCategoryColor`: these are display
  lookups with no behaviour beyond a table.
- Clock, dates and time formatting. Message ids and timestamps
  (`Date.now`, `new Date`), `formatTime`, `toISOString`, upload dates and the
  `now` of `updateProject` are not computed; the model takes them as
  parameters or omits them.
- Random draws. Ids come from `Math.random().toString(36)`; the model takes
  them as parameters, kept fresh by precondition. Progress steps and section
  counts are bounded parameters.
- `formatFileSize` and the export's `estimatedSize`: they use floating-point
  logarithms and `toFixed`.
- IEEE arithmetic. Progress is `real`, so there is no rounding error.
  `Math.round` is modelled on whole counts only.
- ToLower: maps only ASCII letters. JavaScript's full Unicode case mapping is
  not modelled.
- Text indexing. Strings are sequences of code points, while the source sees
  UTF-16 units. The markers used are all in the Basic Multilingual Plane, so
  the two agree except on astral characters in user text.
- `JSON.parse`/`JSON.stringify` as text. The stored entry is either parsed
  records or text on which `getProjects` fails (`JSON.parse` throws, the value
  has no `map`, or an element is null); an empty stored string counts as the
  latter, which gives the same empty list. An array holding other values,
  such as `[1]`, revives without throwing into objects with an invalid date;
  the model does not represent such an array.
- The file status "error": it is declared in the sources but never assigned.
- `handleSubmit`'s `console.log` and the redirect it comments on.
- Interleavings inside `simulateUpload` of the code-book upload. Its awaits
  are modelled as loops run to the end; other events may interleave between
  the writes. `ApplyWritesAt`, `ApplyWritesAbsent` and `RemovedThenWritten`
  cover a removal arriving mid-script.
- Dynamic property lookup. Lookups by check name (`analyses[check.name]`,
  `actionTemplates[check.name]`) are modelled as string matches. JavaScript
  would also find inherited names such as "constructor".
- `[field]` keys on the setup form: the model takes only the seven known
  field names.
- The chat's `setTimeout(() => {}, 500)` of `handleAssignTask`: it does nothing.
- Minimise toggles, refs and the hidden file input's `click()`: these are
  UI-only state.
- ComplianceDetails.ProgressExtremes: states only the direction "all passed
  gives 100". The converse holds only below 200 checks, and
  `ProgressExtremesExact` states it there.
- Common.RoundedPercentNearest: states the rounding of the exact rational
  share. The source divides and multiplies in doubles, and an exact half can
  land just below it: 23 of 40 gives 57.49999999999999 and shows 57, where
  `RoundedPercent` gives 58 (likewise 46 of 80, 29 of 200). No count in the
  mock data is such a case. `RoundedPercentRange` holds in doubles too.
- ChatInterface.Chat.DeliverAck: appends the acknowledgement with the intended
  bullet U+2022 (`ChatUploads.AckText`). The mis-decoded text of
  components/chat/chat-interface.tsx:168 is `ChatInterface.AckTextAsWritten`;
  "## Findings" relates the two.
- ChatInterface.Chat.CreateProject: appends the notice with the intended check
  mark (`ChatInterface.CreatedNotice`). The text as written at line 277 is
  `ChatInterface.CreatedNoticeAsWritten`; "## Findings" relates the two.
- ChatInterface.Chat.AddExistingProject: appends the notice with the intended
  folder symbol (`ChatInterface.AddedNotice`). The text as written at line
  301 is `ChatInterface.AddedNoticeAsWritten`; "## Findings" relates the two.

## Findings

| source | as written | input that shows it | evidently intended | confidence | as-written member | corrected member |
|---|---|---|---|---|---|---|
| components/chat/chat-interface.tsx:168 | the upload acknowledgement's bullets are "‚Ä¢", the UTF-8 bytes of U+2022 read as Mac Roman | any accepted upload, e.g. one DXF file | the bullet U+2022, as in project-chat-interface.tsx:167 | not executed | ChatInterface.AckTextAsWrittenDiffers | ChatUploads.AckText |
| components/chat/chat-interface.tsx:277 | the creation notice opens with "‚úÖ", the mis-decoded bytes of U+2705 | creating a project named "Tower" | the check mark U+2705 | not executed | ChatInterface.NoticesAsWrittenDiffer | ChatInterface.CreatedNotice |
| components/chat/chat-interface.tsx:301 | the added notice opens with U+F8FF U+00FC U+00EC U+00C5, the mis-decoded bytes of U+1F4C1 | adding "University Library" from the picker | the folder U+1F4C1 | not executed | ChatInterface.NoticesAsWrittenDiffer | ChatInterface.AddedNotice |
