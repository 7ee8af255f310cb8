/** The message pane of components/chat/ChatWindow.tsx: which bubbles are the
    operator's own, and the composer (text box, attached file, Enter key,
    send button) with what a send hands to the page and how it resets. */
module ChatWindow {
  import opened Wrappers
  import opened Strings
  import opened Types
  import opened ChatApi

  /** The id of a message's sender, whether sent as an id or as a participant. */
  function SenderId(p: Party): string {
    match p
    case PartyId(id) => id
    case PartyRecord(q) => q.id
  }

  /** `isOwn`: a bubble is the operator's when the sender string, or the
      sender object's `_id`, is the current user's id. */
  function IsOwn(msg: Message, currentUserId: string): (b: bool)
    ensures b <==> SenderId(msg.sender) == currentUserId
    ensures msg.sender.PartyId? ==> (b <==> msg.sender.id == currentUserId)
    ensures msg.sender.PartyRecord? ==> (b <==> msg.sender.participant.id == currentUserId)
  {
    match msg.sender
    case PartyId(s) => s == currentUserId
    case PartyRecord(q) => q.id == currentUserId
  }

  /** What `handleSend` passes to `onSendMessage`, if it calls it: nothing
      when the trimmed text is empty and no file is attached; otherwise the
      trimmed text together with the current file. */
  function SendIntent(text: string, file: Option<FileRef>): (r: Option<(string, Option<FileRef>)>)
    ensures r.None? <==> IsBlank(text) && file.None?
    ensures r.Some? ==> r.value.0 == Trim(text) && r.value.1 == file
  {
    if IsBlank(text) && file.None? then None else Some((Trim(text), file))
  }

  /** A send never passes text with whitespace at either end, and passes
      empty text only alongside a file. */
  lemma SentTextTrimmed(text: string, file: Option<FileRef>)
    requires SendIntent(text, file).Some?
    ensures var t := SendIntent(text, file).value.0;
      (t == [] || (!IsWhitespace(t[0]) && !IsWhitespace(t[|t| - 1]))) &&
      (t == [] ==> file.Some?)
  {
  }

  /** `e.key === "Enter" && !e.shiftKey`: Enter sends, Shift+Enter does not. */
  predicate KeyTriggersSend(key: string, shift: bool) {
    key == "Enter" && !shift
  }

  /** The text box is disabled without a (truthy) conversation id. */
  function InputDisabled(conversationId: Option<string>): (b: bool)
    ensures b <==> conversationId.None? || conversationId.value == ""
  {
    !(conversationId.Some? && conversationId.value != "")
  }

  /** The send button is disabled without a conversation, and when there is
      nothing to send. */
  function SendButtonDisabled(conversationId: Option<string>, text: string, file: Option<FileRef>): (b: bool)
    ensures InputDisabled(conversationId) ==> b
    ensures SendIntent(text, file).None? ==> b
  {
    InputDisabled(conversationId) || (IsBlank(text) && file.None?)
  }

  /** An enabled send button always leads to a call of `onSendMessage`, and
      with a conversation open the button is disabled only when nothing
      would be sent. */
  lemma EnabledButtonSends(conversationId: Option<string>, text: string, file: Option<FileRef>)
    ensures !SendButtonDisabled(conversationId, text, file) ==> SendIntent(text, file).Some?
    ensures !InputDisabled(conversationId) ==>
      (SendButtonDisabled(conversationId, text, file) <==> SendIntent(text, file).None?)
  {
  }

  /** The composer state: the text box, the chosen file, and the file
      input's own value. */
  class Composer {
    var newMessage: string
    var file: Option<FileRef>
    var fileInputValue: string

    /** A fresh composer is empty. */
    constructor ()
      ensures newMessage == "" && file == None && fileInputValue == ""
    {
      newMessage := "";
      file := None;
      fileInputValue := "";
    }

    /** The text box's `onChange`. */
    method SetText(text: string)
      modifies this
      ensures newMessage == text && file == old(file) && fileInputValue == old(fileInputValue)
    {
      newMessage := text;
    }

    /** `handleFileChange`: the first chosen file replaces the current one;
        an empty choice keeps it. */
    method HandleFileChange(files: seq<FileRef>, inputValue: string)
      modifies this
      ensures newMessage == old(newMessage)
      ensures file == if files != [] then Some(files[0]) else old(file)
      ensures fileInputValue == inputValue
    {
      fileInputValue := inputValue;
      if files != [] {
        file := Some(files[0]);
      }
    }

    /** `handleSend`: returns what was handed to `onSendMessage`. The reset
        to an empty composer runs only once that call resolved (`delivered`);
        a rejected call skips it and leaves the draft in place. */
    method HandleSend(delivered: bool) returns (sent: Option<(string, Option<FileRef>)>)
      modifies this
      ensures sent == SendIntent(old(newMessage), old(file))
      ensures sent.Some? && delivered ==> newMessage == "" && file == None && fileInputValue == ""
      ensures sent.None? || !delivered ==>
        newMessage == old(newMessage) && file == old(file) && fileInputValue == old(fileInputValue)
    {
      sent := SendIntent(newMessage, file);
      if sent.None? {
        return;
      }
      if delivered {
        newMessage := "";
        file := None;
        fileInputValue := "";
      }
    }

    /** `handleKeyDown`: Enter without Shift runs `handleSend`; any other key
        changes nothing and sends nothing. */
    method HandleKeyDown(key: string, shift: bool, delivered: bool) returns (sent: Option<(string, Option<FileRef>)>)
      modifies this
      ensures !KeyTriggersSend(key, shift) ==>
        sent.None? && newMessage == old(newMessage) && file == old(file) && fileInputValue == old(fileInputValue)
      ensures KeyTriggersSend(key, shift) ==> sent == SendIntent(old(newMessage), old(file))
      ensures KeyTriggersSend(key, shift) && sent.Some? && delivered ==>
        newMessage == "" && file == None && fileInputValue == ""
      ensures KeyTriggersSend(key, shift) && (sent.None? || !delivered) ==>
        newMessage == old(newMessage) && file == old(file) && fileInputValue == old(fileInputValue)
    {
      sent := None;
      if KeyTriggersSend(key, shift) {
        sent := HandleSend(delivered);
      }
    }
  }
}
