/** `AddAttachmentsInput`: the attachment-link editor of the task form. */
module AddAttachmentsInput {
  import opened JsText
  import opened ListEditor

  const AttachmentMessages := Messages("Attachment can't be empty", "Attachment already exists", "Attachment added", "Attachment removed")

  /** `handleAddOption` on the attachment links. */
  function HandleAddOption(attachments: seq<string>, option: string): (r: AddResult)
    ensures AllWhitespace(option) ==> r.items == attachments && r.toast == "Attachment can't be empty"
    ensures !AllWhitespace(option) && Trim(option) in attachments ==>
      r.items == attachments && r.input == option && r.toast == "Attachment already exists"
    ensures r.outcome == Added <==> !AllWhitespace(option) && Trim(option) !in attachments
    ensures r.outcome == Added ==> r.items == attachments + [Trim(option)] && r.input == ""
    ensures WellFormed(attachments) ==> WellFormed(r.items)
  {
    AddKeepsWellFormed(attachments, option, AttachmentMessages);
    AddOption(attachments, option, AttachmentMessages)
  }

  /** `handleRemoveOption(index)` on the attachment links. */
  function HandleRemoveOption(attachments: seq<string>, index: int): (r: seq<string>)
    ensures 0 <= index < |attachments| ==> r == attachments[..index] + attachments[index + 1..]
    ensures !(0 <= index < |attachments|) ==> r == attachments
    ensures WellFormed(attachments) ==> WellFormed(r)
  {
    RemoveKeepsWellFormed(attachments, index);
    RemoveOption(attachments, index, AttachmentMessages).items
  }

  /** From an empty list, every run of adds and removes leaves the links
      pairwise distinct, trimmed and non-empty. */
  lemma LinksStayWellFormed(edits: seq<Edit>)
    ensures WellFormed(Replay([], edits, AttachmentMessages))
  {
    ReplayKeepsWellFormed([], edits, AttachmentMessages);
  }
}
