/** The shared chat shell: it keeps the message list, the text in the input box
    and the drag-over flag, and hands sent text and dropped files to the
    callbacks of its owner. The callbacks are recorded as the lists of the
    arguments they were called with. */
module BaseChat {
  import opened Text
  import opened Uploads
  import opened ChatUploads

  class Shell {
    var messages: seq<Message>
    var inputValue: string
    var isDragOver: bool
    /** Whether the owner supplied `onFileUpload`. */
    const hasUploadHandler: bool
    /** The owner's `isLoading`, false when it passes none; it disables the
        input box and the Send button. */
    var isLoading: bool
    /** The arguments `onSendMessage` received, oldest first. */
    var sent: seq<string>
    /** The file lists `onFileUpload` received, oldest first. */
    var uploads: seq<seq<FileInput>>

    constructor (initialMessages: seq<Message>, hasUploadHandler: bool, isLoading: bool)
      ensures messages == initialMessages && inputValue == "" && !isDragOver
      ensures this.hasUploadHandler == hasUploadHandler && this.isLoading == isLoading
      ensures sent == [] && uploads == []
    {
      this.isLoading := isLoading;
      messages := initialMessages;
      inputValue := "";
      isDragOver := false;
      this.hasUploadHandler := hasUploadHandler;
      sent := [];
      uploads := [];
    }

    /** A new `initialMessages` from the owner replaces the whole list. */
    method ResetMessages(initialMessages: seq<Message>)
      modifies this
      ensures messages == initialMessages
      ensures inputValue == old(inputValue) && isDragOver == old(isDragOver)
      ensures sent == old(sent) && uploads == old(uploads)
      ensures isLoading == old(isLoading)
    {
      messages := initialMessages;
    }

    method SetInput(value: string)
      modifies this
      ensures inputValue == value
      ensures messages == old(messages) && isDragOver == old(isDragOver)
      ensures sent == old(sent) && uploads == old(uploads)
      ensures isLoading == old(isLoading)
    {
      inputValue := value;
    }

    /** Dragging over the shell lights it up only when uploads are handled. */
    method DragOver()
      modifies this
      ensures isDragOver == (hasUploadHandler || old(isDragOver))
      ensures messages == old(messages) && inputValue == old(inputValue)
      ensures sent == old(sent) && uploads == old(uploads)
      ensures isLoading == old(isLoading)
    {
      if hasUploadHandler {
        isDragOver := true;
      }
    }

    method DragLeave()
      modifies this
      ensures !isDragOver
      ensures messages == old(messages) && inputValue == old(inputValue)
      ensures sent == old(sent) && uploads == old(uploads)
      ensures isLoading == old(isLoading)
    {
      isDragOver := false;
    }

    /** A drop always clears the flag; the files reach the owner only when it
        handles uploads, and then all of them, unfiltered. */
    method Drop(files: seq<FileInput>)
      modifies this
      ensures !isDragOver
      ensures hasUploadHandler ==> uploads == old(uploads) + [files]
      ensures !hasUploadHandler ==> uploads == old(uploads)
      ensures messages == old(messages) && inputValue == old(inputValue) && sent == old(sent)
      ensures isLoading == old(isLoading)
    {
      isDragOver := false;
      if hasUploadHandler {
        uploads := uploads + [files];
      }
    }

    /** Blank input is neither sent nor cleared; other input goes to the owner
        exactly as typed, surrounding whitespace included, and the box empties. */
    method SendMessage()
      modifies this
      ensures IsBlank(old(inputValue)) ==> sent == old(sent) && inputValue == old(inputValue)
      ensures !IsBlank(old(inputValue)) ==> sent == old(sent) + [old(inputValue)] && inputValue == ""
      ensures messages == old(messages) && isDragOver == old(isDragOver) && uploads == old(uploads)
      ensures isLoading == old(isLoading)
    {
      TrimEmptyIffBlank(inputValue);
      if Trim(inputValue) == [] {
        return;
      }
      sent := sent + [inputValue];
      inputValue := "";
    }

    /** Enter without Shift sends; every other key leaves everything as it is. */
    method KeyPress(key: string, shift: bool)
      modifies this
      ensures key == "Enter" && !shift && IsBlank(old(inputValue)) ==>
                sent == old(sent) && inputValue == old(inputValue)
      ensures key == "Enter" && !shift && !IsBlank(old(inputValue)) ==>
                sent == old(sent) + [old(inputValue)] && inputValue == ""
      ensures !(key == "Enter" && !shift) ==> sent == old(sent) && inputValue == old(inputValue)
      ensures messages == old(messages) && isDragOver == old(isDragOver) && uploads == old(uploads)
      ensures isLoading == old(isLoading)
    {
      if key == "Enter" && !shift {
        SendMessage();
      }
    }

    /** The owner passes a new `isLoading`. */
    method SetLoading(loading: bool)
      modifies this
      ensures isLoading == loading
      ensures messages == old(messages) && inputValue == old(inputValue) && isDragOver == old(isDragOver)
      ensures sent == old(sent) && uploads == old(uploads)
    {
      isLoading := loading;
    }

    /** Typing into the input box, which is disabled while loading. */
    method InputChange(value: string)
      modifies this
      ensures inputValue == if old(isLoading) then old(inputValue) else value
      ensures messages == old(messages) && isDragOver == old(isDragOver) && isLoading == old(isLoading)
      ensures sent == old(sent) && uploads == old(uploads)
    {
      if !isLoading {
        SetInput(value);
      }
    }

    /** The Send button, disabled while loading or while the input is blank. */
    method ClickSend()
      modifies this
      ensures old(isLoading) || IsBlank(old(inputValue)) ==>
                sent == old(sent) && inputValue == old(inputValue)
      ensures !old(isLoading) && !IsBlank(old(inputValue)) ==>
                sent == old(sent) + [old(inputValue)] && inputValue == ""
      ensures messages == old(messages) && isDragOver == old(isDragOver) && uploads == old(uploads)
      ensures isLoading == old(isLoading)
    {
      if !isLoading {
        SendMessage();
      }
    }

    /** A key pressed in the input box: lost while loading, otherwise handled
        by `handleKeyPress`. */
    method InputKeyPress(key: string, shift: bool)
      modifies this
      ensures old(isLoading) || !(key == "Enter" && !shift) || IsBlank(old(inputValue)) ==>
                sent == old(sent) && inputValue == old(inputValue)
      ensures !old(isLoading) && key == "Enter" && !shift && !IsBlank(old(inputValue)) ==>
                sent == old(sent) + [old(inputValue)] && inputValue == ""
      ensures messages == old(messages) && isDragOver == old(isDragOver) && uploads == old(uploads)
      ensures isLoading == old(isLoading)
    {
      if !isLoading {
        KeyPress(key, shift);
      }
    }
  }
}
