/** `SelectUsers`: toggling users in and out of a task's assignee list, and
    the label of the selector button. */
module SelectUsers {
  import opened Wrappers

  /** A user as the user list returns it. */
  datatype UserSummary = UserSummary(id: string, name: string)

  /** An entry of the assignee list: a user object picked in the selector, or
      a bare id string, which is what the task form loads for an existing task. */
  datatype Assignee = Picked(user: UserSummary) | BareId(id: string)

  /** `entry._id`: a string has no `_id`. */
  function IdOf(a: Assignee): (r: Option<string>)
    ensures r.Some? <==> a.Picked?
  {
    match a
    case Picked(u) => Some(u.id)
    case BareId(_) => None
  }

  /** `entry.name`, rendered as "" when undefined. */
  function NameOf(a: Assignee): string {
    match a
    case Picked(u) => u.name
    case BareId(_) => ""
  }

  /** `selected.find(u => u._id === id)` finds something. */
  predicate IsSelected(selected: seq<Assignee>, id: string) {
    exists i | 0 <= i < |selected| :: IdOf(selected[i]) == Some(id)
  }

  /** `selected.filter(u => u._id !== id)`. */
  function WithoutId(selected: seq<Assignee>, id: string): (r: seq<Assignee>)
    ensures |r| <= |selected|
    ensures !IsSelected(r, id)
    ensures forall a | a in r :: a in selected
    ensures forall a | a in selected && IdOf(a) != Some(id) :: a in r
  {
    if |selected| == 0 then []
    else
      var rest := WithoutId(selected[1..], id);
      if IdOf(selected[0]) == Some(id) then rest else [selected[0]] + rest
  }

  /** `handleUserSelect(user)`: remove the user if an entry carries its id,
      otherwise append it. */
  function Toggle(selected: seq<Assignee>, user: UserSummary): (r: seq<Assignee>)
    ensures !IsSelected(selected, user.id) ==> r == selected + [Picked(user)]
    ensures IsSelected(selected, user.id) ==> r == WithoutId(selected, user.id) && |r| < |selected|
    ensures IsSelected(r, user.id) <==> !IsSelected(selected, user.id)
  {
    if IsSelected(selected, user.id) then
      var i :| 0 <= i < |selected| && IdOf(selected[i]) == Some(user.id);
      WithoutIdDrops(selected, user.id, i);
      WithoutId(selected, user.id)
    else
      assert IdOf((selected + [Picked(user)])[|selected|]) == Some(user.id);
      selected + [Picked(user)]
  }

  /** Removing drops at least the matching entry at `i`. */
  lemma {:induction false} WithoutIdDrops(selected: seq<Assignee>, id: string, i: nat)
    requires i < |selected| && IdOf(selected[i]) == Some(id)
    ensures |WithoutId(selected, id)| < |selected|
  {
    if i > 0 {
      WithoutIdDrops(selected[1..], id, i - 1);
    }
  }

  /** Filtering distributes over concatenation, so the other entries keep
      their relative order. */
  lemma {:induction false} WithoutIdAppend(a: seq<Assignee>, b: seq<Assignee>, id: string)
    ensures WithoutId(a + b, id) == WithoutId(a, id) + WithoutId(b, id)
  {
    if |a| == 0 {
      assert a + b == b;
    } else {
      assert (a + b)[1..] == a[1..] + b;
      WithoutIdAppend(a[1..], b, id);
    }
  }

  /** Filtering out an id nobody carries changes nothing. */
  lemma {:induction false} WithoutAbsentId(selected: seq<Assignee>, id: string)
    requires !IsSelected(selected, id)
    ensures WithoutId(selected, id) == selected
  {
    if |selected| > 0 {
      assert IdOf(selected[0]) != Some(id);
      assert !IsSelected(selected[1..], id) by {
        forall i | 0 <= i < |selected[1..]|
          ensures IdOf(selected[1..][i]) != Some(id)
        {
          assert selected[1..][i] == selected[i + 1];
        }
      }
      WithoutAbsentId(selected[1..], id);
    }
  }

  /** Toggling a user who is not selected twice returns the original list. */
  lemma ToggleTwice(selected: seq<Assignee>, user: UserSummary)
    requires !IsSelected(selected, user.id)
    ensures Toggle(Toggle(selected, user), user) == selected
  {
    var once := selected + [Picked(user)];
    WithoutIdAppend(selected, [Picked(user)], user.id);
    WithoutAbsentId(selected, user.id);
    assert WithoutId([Picked(user)], user.id) == [];
  }

  /** No two picked entries carry the same id. */
  predicate UniqueIds(selected: seq<Assignee>) {
    forall i, j | 0 <= i < j < |selected| :: IdOf(selected[i]).Some? ==> IdOf(selected[i]) != IdOf(selected[j])
  }

  /** Filtering keeps the ids unique. */
  lemma {:induction false} WithoutIdKeepsUnique(selected: seq<Assignee>, id: string)
    requires UniqueIds(selected)
    ensures UniqueIds(WithoutId(selected, id))
  {
    if |selected| > 0 {
      assert UniqueIds(selected[1..]) by {
        forall i, j | 0 <= i < j < |selected[1..]|
          ensures IdOf(selected[1..][i]).Some? ==> IdOf(selected[1..][i]) != IdOf(selected[1..][j])
        {
          assert selected[1..][i] == selected[i + 1] && selected[1..][j] == selected[j + 1];
        }
      }
      WithoutIdKeepsUnique(selected[1..], id);
      var rest := WithoutId(selected[1..], id);
      if IdOf(selected[0]) != Some(id) {
        var r := [selected[0]] + rest;
        assert r[1..] == rest;
        forall i, j | 0 <= i < j < |r|
          ensures IdOf(r[i]).Some? ==> IdOf(r[i]) != IdOf(r[j])
        {
          if i == 0 {
            assert r[j] in selected[1..];
            var k :| 0 <= k < |selected[1..]| && selected[1..][k] == r[j];
            assert selected[k + 1] == r[j];
          } else {
            assert r[i] == r[1..][i - 1];
            assert r[j] == r[1..][j - 1];
          }
        }
      }
    }
  }

  /** Toggling keeps the ids unique. */
  lemma ToggleKeepsUnique(selected: seq<Assignee>, user: UserSummary)
    requires UniqueIds(selected)
    ensures UniqueIds(Toggle(selected, user))
  {
    if IsSelected(selected, user.id) {
      WithoutIdKeepsUnique(selected, user.id);
    } else {
      var r := selected + [Picked(user)];
      forall i, j | 0 <= i < j < |r|
        ensures IdOf(r[i]).Some? ==> IdOf(r[i]) != IdOf(r[j])
      {
        if j == |selected| {
          assert r[i] == selected[i];
        }
      }
    }
  }

  /** A bare id never matches, so toggling a user whose id is already assigned
      as a bare string appends a second entry for that user. */
  lemma BareIdIsNotRecognised(selected: seq<Assignee>, user: UserSummary)
    requires forall i | 0 <= i < |selected| :: selected[i].BareId?
    ensures Toggle(selected, user) == selected + [Picked(user)]
  {
  }

  const Placeholder := "Select Users"

  /** `items.join(sep)`. */
  function Join(items: seq<string>, sep: string): string
    decreases |items|
  {
    if |items| == 0 then ""
    else if |items| == 1 then items[0]
    else Join(items[..|items| - 1], sep) + sep + items[|items| - 1]
  }

  function Names(selected: seq<Assignee>): (names: seq<string>)
    ensures |names| == |selected|
    ensures forall i | 0 <= i < |selected| :: names[i] == NameOf(selected[i])
  {
    seq(|selected|, i requires 0 <= i < |selected| => NameOf(selected[i]))
  }

  /** The text on the selector button. */
  function ButtonLabel(selected: seq<Assignee>): (text: string)
    ensures |selected| == 0 ==> text == Placeholder
    ensures |selected| == 1 ==> text == NameOf(selected[0])
    ensures |selected| > 0 ==> text == Join(Names(selected), ", ")
  {
    if |selected| == 0 then Placeholder else Join(Names(selected), ", ")
  }

  /** Selecting one more user appends ", " and its name to the label. */
  lemma LabelAfterToggle(selected: seq<Assignee>, user: UserSummary)
    requires |selected| > 0 && !IsSelected(selected, user.id)
    ensures ButtonLabel(Toggle(selected, user)) == ButtonLabel(selected) + ", " + user.name
  {
    var r := selected + [Picked(user)];
    assert Names(r)[..|r| - 1] == Names(selected);
  }
}
