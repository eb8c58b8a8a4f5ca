/** The list editing shared by the checklist input and the attachments input:
    add the trimmed input unless it is blank or already present, and remove an
    entry by position. */
module ListEditor {
  import opened JsText

  /** The toast texts of one editor. */
  datatype Messages = Messages(blank: string, duplicate: string, added: string, removed: string)

  datatype AddOutcome = Added | RejectedBlank | RejectedDuplicate

  /** The list after an add, the text left in the input box, and the toast shown. */
  datatype AddResult = AddResult(items: seq<string>, input: string, outcome: AddOutcome, toast: string)

  /** `handleAddOption`. */
  function AddOption(items: seq<string>, input: string, msgs: Messages): (r: AddResult)
    ensures AllWhitespace(input) ==> r == AddResult(items, input, RejectedBlank, msgs.blank)
    ensures !AllWhitespace(input) && Trim(input) in items ==>
      r == AddResult(items, input, RejectedDuplicate, msgs.duplicate)
    ensures !AllWhitespace(input) && Trim(input) !in items ==>
      r == AddResult(items + [Trim(input)], "", Added, msgs.added)
  {
    TrimEmptyIffBlank(input);
    var t := Trim(input);
    if t == "" then AddResult(items, input, RejectedBlank, msgs.blank)
    else if t in items then AddResult(items, input, RejectedDuplicate, msgs.duplicate)
    else AddResult(items + [t], "", Added, msgs.added)
  }

  /** `items.filter((_, i) => i !== index)`: drop the entry at `index`. */
  function RemoveAt<T>(items: seq<T>, index: int): (r: seq<T>)
    ensures 0 <= index < |items| ==> r == items[..index] + items[index + 1..]
    ensures !(0 <= index < |items|) ==> r == items
    decreases |items|
  {
    if |items| == 0 then []
    else
      var rest := RemoveAt(items[1..], index - 1);
      if index == 0 then rest else [items[0]] + rest
  }

  /** The list after a remove and the toast shown. */
  datatype RemoveResult = RemoveResult(items: seq<string>, toast: string)

  /** `handleRemoveOption(index)`. */
  function RemoveOption(items: seq<string>, index: int, msgs: Messages): (r: RemoveResult)
    ensures 0 <= index < |items| ==> |r.items| == |items| - 1
    ensures 0 <= index < |items| ==>
      forall j | 0 <= j < |r.items| :: r.items[j] == items[if j < index then j else j + 1]
    ensures !(0 <= index < |items|) ==> r.items == items
    ensures r.toast == msgs.removed
  {
    RemoveResult(RemoveAt(items, index), msgs.removed)
  }

  predicate Distinct<T(==)>(s: seq<T>) {
    forall i, j | 0 <= i < j < |s| :: s[i] != s[j]
  }

  /** What the editors keep true of their list: entries are distinct,
      non-empty and trimmed. */
  predicate WellFormed(items: seq<string>) {
    && Distinct(items)
    && forall i | 0 <= i < |items| :: items[i] != "" && IsTrimmed(items[i])
  }

  /** Adding keeps the list well formed. */
  lemma AddKeepsWellFormed(items: seq<string>, input: string, msgs: Messages)
    ensures WellFormed(items) ==> WellFormed(AddOption(items, input, msgs).items)
  {
    if WellFormed(items) {
      AddToWellFormed(items, input, msgs);
    }
  }

  lemma AddToWellFormed(items: seq<string>, input: string, msgs: Messages)
    requires WellFormed(items)
    ensures WellFormed(AddOption(items, input, msgs).items)
  {
    var r := AddOption(items, input, msgs);
    if r.outcome == Added {
      TrimEmptyIffBlank(input);
      var t := Trim(input);
      assert r.items == items + [t];
      forall i, j | 0 <= i < j < |r.items|
        ensures r.items[i] != r.items[j]
      {
        if j == |items| {
          assert r.items[i] == items[i];
        }
      }
    }
  }

  /** Removing keeps the list well formed. */
  lemma RemoveKeepsWellFormed(items: seq<string>, index: int)
    ensures WellFormed(items) ==> WellFormed(RemoveAt(items, index))
  {
    if WellFormed(items) && 0 <= index < |items| {
      var r := RemoveAt(items, index);
      forall i | 0 <= i < |r|
        ensures r[i] == items[if i < index then i else i + 1]
      {
      }
    }
  }

  /** A successful add is undone by removing the last entry. */
  lemma AddThenRemoveLast(items: seq<string>, input: string, msgs: Messages)
    requires AddOption(items, input, msgs).outcome == Added
    ensures RemoveAt(AddOption(items, input, msgs).items, |items|) == items
  {
    var added := AddOption(items, input, msgs).items;
    assert added[..|items|] == items;
  }

  /** A user action on an editor. */
  datatype Edit = Add(input: string) | Remove(index: int)

  function Apply(items: seq<string>, e: Edit, msgs: Messages): seq<string> {
    match e
    case Add(input) => AddOption(items, input, msgs).items
    case Remove(index) => RemoveOption(items, index, msgs).items
  }

  /** The list after a run of edits, applied in order. */
  function Replay(items: seq<string>, edits: seq<Edit>, msgs: Messages): seq<string>
    decreases |edits|
  {
    if |edits| == 0 then items else Replay(Apply(items, edits[0], msgs), edits[1..], msgs)
  }

  /** Starting from an empty list, any run of edits leaves the entries distinct,
      non-empty and trimmed. */
  lemma {:induction false} ReplayKeepsWellFormed(items: seq<string>, edits: seq<Edit>, msgs: Messages)
    requires WellFormed(items)
    ensures WellFormed(Replay(items, edits, msgs))
    decreases |edits|
  {
    if |edits| > 0 {
      match edits[0] {
        case Add(input) => AddKeepsWellFormed(items, input, msgs);
        case Remove(index) => RemoveKeepsWellFormed(items, index);
      }
      ReplayKeepsWellFormed(Apply(items, edits[0], msgs), edits[1..], msgs);
    }
  }
}
