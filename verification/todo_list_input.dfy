/** `TodoListInput`: the checklist editor of the task form. */
module TodoListInput {
  import opened JsText
  import opened ListEditor

  const TodoMessages := Messages("Checklist item can't be empty", "Item already exists", "Checklist item added", "Item removed")

  /** `handleAddOption` on the checklist. */
  function HandleAddOption(todoList: seq<string>, option: string): (r: AddResult)
    ensures AllWhitespace(option) ==> r.items == todoList && r.toast == "Checklist item can't be empty"
    ensures !AllWhitespace(option) && Trim(option) in todoList ==>
      r.items == todoList && r.input == option && r.toast == "Item already exists"
    ensures r.outcome == Added <==> !AllWhitespace(option) && Trim(option) !in todoList
    ensures r.outcome == Added ==>
      r.items == todoList + [Trim(option)] && r.input == "" && |r.items| == |todoList| + 1
    ensures WellFormed(todoList) ==> WellFormed(r.items)
  {
    AddKeepsWellFormed(todoList, option, TodoMessages);
    AddOption(todoList, option, TodoMessages)
  }

  /** `handleRemoveOption(index)` on the checklist. */
  function HandleRemoveOption(todoList: seq<string>, index: int): (r: seq<string>)
    ensures 0 <= index < |todoList| ==> r == todoList[..index] + todoList[index + 1..]
    ensures !(0 <= index < |todoList|) ==> r == todoList
    ensures WellFormed(todoList) ==> WellFormed(r)
  {
    RemoveKeepsWellFormed(todoList, index);
    RemoveOption(todoList, index, TodoMessages).items
  }

  /** The number shown before the entry at `index`: two digits with a leading
      zero below the tenth entry, plain `index + 1` from then on. */
  function RowLabel(index: nat): (text: string)
    ensures forall i | 0 <= i < |text| :: '0' <= text[i] <= '9'
    ensures index < 99 ==> |text| == 2
    ensures |text| >= 2
    ensures text[0] == '0' <==> index < 9
  {
    NatToStringLength(index + 1);
    if index < 9 then "0" + NatToString(index + 1) else NatToString(index + 1)
  }

  /** Reading the label as a decimal number gives the one-based row number. */
  lemma RowLabelReadsBack(index: nat)
    ensures ParseDecimal(RowLabel(index)) == index + 1
  {
    ParseNatToString(index + 1);
    if index < 9 {
      ParseLeadingZero(NatToString(index + 1));
    }
  }
}
