/**
 * The todo list as a value: the record type, the seed list, the id rule of
 * addTodo and the list transformations that editTodo, toggleTodo and
 * deleteTodo apply before they reassign the model's list.
 */
module TodoList {

  /** One todo record `{id, text, complete}`. */
  datatype Todo = Todo(id: int, text: string, complete: bool)

  /** Ids strictly increase along the list (insertion order). */
  ghost predicate IdsIncreasing(s: seq<Todo>) {
    forall i, j :: 0 <= i < j < |s| ==> s[i].id < s[j].id
  }

  /** No two todos share an id. */
  ghost predicate IdsUnique(s: seq<Todo>) {
    forall i, j :: 0 <= i < |s| && 0 <= j < |s| && s[i].id == s[j].id ==> i == j
  }

  /** Some todo of the list carries `id`. */
  ghost predicate HasId(s: seq<Todo>, id: int) {
    exists k :: 0 <= k < |s| && s[k].id == id
  }

  /** The two todos a fresh model starts with. */
  function Seed(): (s: seq<Todo>)
    ensures IdsIncreasing(s)
  {
    [Todo(1, "Run a marathon", false), Todo(2, "Go to the moon", false)]
  }

  /** The id addTodo gives a new todo: the last todo's id plus one, or 1 on an empty list. */
  function NextId(s: seq<Todo>): (r: int)
    ensures IdsIncreasing(s) ==> forall k :: 0 <= k < |s| ==> s[k].id < r
  {
    if |s| > 0 then s[|s| - 1].id + 1 else 1
  }

  /** The largest id in a non-empty list: a reference definition independent of list order. */
  function MaxId(s: seq<Todo>): (m: int)
    requires s != []
    ensures exists k :: 0 <= k < |s| && s[k].id == m
    ensures forall k :: 0 <= k < |s| ==> s[k].id <= m
  {
    if |s| == 1 then s[0].id
    else
      var rest := MaxId(s[1..]);
      assert forall k :: 1 <= k < |s| ==> s[k] == s[1..][k - 1];
      if s[0].id < rest then rest else s[0].id
  }

  /** editTodo's map step: every todo with a matching id gets the new text. */
  function Edited(s: seq<Todo>, id: int, text: string): (r: seq<Todo>)
    ensures |r| == |s|
    ensures forall k :: 0 <= k < |s| ==> r[k].id == s[k].id && r[k].complete == s[k].complete
    ensures forall k :: 0 <= k < |s| ==> r[k].text == if s[k].id == id then text else s[k].text
  {
    if s == [] then []
    else
      var head := if s[0].id == id then Todo(s[0].id, text, s[0].complete) else s[0];
      [head] + Edited(s[1..], id, text)
  }

  /** toggleTodo's map step: every todo with a matching id has its flag negated. */
  function Toggled(s: seq<Todo>, id: int): (r: seq<Todo>)
    ensures |r| == |s|
    ensures forall k :: 0 <= k < |s| ==> r[k].id == s[k].id && r[k].text == s[k].text
    ensures forall k :: 0 <= k < |s| ==> r[k].complete == if s[k].id == id then !s[k].complete else s[k].complete
  {
    if s == [] then []
    else
      var head := if s[0].id == id then Todo(s[0].id, s[0].text, !s[0].complete) else s[0];
      [head] + Toggled(s[1..], id)
  }

  /** deleteTodo's filter step: keep exactly the todos whose id differs. */
  function Deleted(s: seq<Todo>, id: int): (r: seq<Todo>)
    ensures |r| <= |s|
    ensures forall t :: t in r <==> t in s && t.id != id
  {
    if s == [] then []
    else if s[0].id == id then Deleted(s[1..], id)
    else [s[0]] + Deleted(s[1..], id)
  }

  // ---------------------------------------------------------------------------
  // The id invariant

  /** Strictly increasing ids are unique ids. */
  lemma IncreasingIsUnique(s: seq<Todo>)
    requires IdsIncreasing(s)
    ensures IdsUnique(s)
  {
  }

  /** On an ordered list the last id is the largest, so addTodo's rule is "largest id plus one". */
  lemma NextIdIsMaxPlusOne(s: seq<Todo>)
    requires IdsIncreasing(s)
    ensures NextId(s) == if s == [] then 1 else MaxId(s) + 1
  {
  }

  /** The id addTodo picks is larger than every id already present. */
  lemma NextIdIsFresh(s: seq<Todo>)
    requires IdsIncreasing(s)
    ensures forall k :: 0 <= k < |s| ==> s[k].id < NextId(s)
    ensures !HasId(s, NextId(s))
  {
  }

  /** Appending a todo with addTodo's id keeps ids increasing. */
  lemma AddKeepsIdsIncreasing(s: seq<Todo>, text: string)
    requires IdsIncreasing(s)
    ensures IdsIncreasing(s + [Todo(NextId(s), text, false)])
  {
  }

  /** editTodo keeps ids increasing. */
  lemma EditKeepsIdsIncreasing(s: seq<Todo>, id: int, text: string)
    requires IdsIncreasing(s)
    ensures IdsIncreasing(Edited(s, id, text))
  {
  }

  /** toggleTodo keeps ids increasing. */
  lemma ToggleKeepsIdsIncreasing(s: seq<Todo>, id: int)
    requires IdsIncreasing(s)
    ensures IdsIncreasing(Toggled(s, id))
  {
  }

  /** deleteTodo keeps ids increasing: the filter keeps the survivors in their order. */
  lemma {:induction false} DeleteKeepsIdsIncreasing(s: seq<Todo>, id: int)
    requires IdsIncreasing(s)
    ensures IdsIncreasing(Deleted(s, id))
  {
    if s != [] {
      var tail := s[1..];
      assert IdsIncreasing(tail) by {
        forall i, j | 0 <= i < j < |tail| ensures tail[i].id < tail[j].id {
          assert tail[i] == s[i + 1] && tail[j] == s[j + 1];
        }
      }
      DeleteKeepsIdsIncreasing(tail, id);
      if s[0].id != id {
        var r := Deleted(tail, id);
        forall k | 0 <= k < |r| ensures s[0].id < r[k].id {
          assert r[k] in tail;
          var m :| 0 <= m < |tail| && tail[m] == r[k];
          assert tail[m] == s[m + 1];
        }
        assert Deleted(s, id) == [s[0]] + r;
      }
    }
  }

  // ---------------------------------------------------------------------------
  // What each transformation does

  /** editTodo with an id that no todo carries leaves the list as it was. */
  lemma EditAbsentIsNoOp(s: seq<Todo>, id: int, text: string)
    requires !HasId(s, id)
    ensures Edited(s, id, text) == s
  {
  }

  /** toggleTodo with an id that no todo carries leaves the list as it was. */
  lemma ToggleAbsentIsNoOp(s: seq<Todo>, id: int)
    requires !HasId(s, id)
    ensures Toggled(s, id) == s
  {
  }

  /** Two toggles of the same id restore the original list. */
  lemma ToggleTwiceIsIdentity(s: seq<Todo>, id: int)
    ensures Toggled(Toggled(s, id), id) == s
  {
  }

  /** deleteTodo with an id that no todo carries leaves the list as it was. */
  lemma {:induction false} DeleteAbsentIsNoOp(s: seq<Todo>, id: int)
    requires !HasId(s, id)
    ensures Deleted(s, id) == s
  {
    if s != [] {
      assert s[0].id != id;
      assert !HasId(s[1..], id) by {
        forall k | 0 <= k < |s| - 1 ensures s[1..][k].id != id {
          assert s[1..][k] == s[k + 1];
        }
      }
      DeleteAbsentIsNoOp(s[1..], id);
      assert s == [s[0]] + s[1..];
    }
  }

  /**
   * The filter distributes over concatenation; with the one-element cases
   * (kept when the id differs, dropped when it matches) this pins down the
   * result completely, order included.
   */
  lemma {:induction false} DeleteDistributes(a: seq<Todo>, b: seq<Todo>, id: int)
    ensures Deleted(a + b, id) == Deleted(a, id) + Deleted(b, id)
  {
    if a != [] {
      assert (a + b)[0] == a[0];
      assert (a + b)[1..] == a[1..] + b;
      DeleteDistributes(a[1..], b, id);
    } else {
      assert a + b == b;
    }
  }

  /** A single todo is kept exactly when its id differs. */
  lemma DeleteSingle(t: Todo, id: int)
    ensures Deleted([t], id) == if t.id == id then [] else [t]
  {
  }

  /** With unique ids, deleteTodo shortens the list by one if the id is present and by zero otherwise. */
  lemma {:induction false} DeleteLength(s: seq<Todo>, id: int)
    requires IdsUnique(s)
    ensures |Deleted(s, id)| == if HasId(s, id) then |s| - 1 else |s|
  {
    if s == [] {
    } else {
      var tail := s[1..];
      assert forall k :: 0 <= k < |tail| ==> tail[k] == s[k + 1];
      assert IdsUnique(tail) by {
        forall i, j | 0 <= i < |tail| && 0 <= j < |tail| && tail[i].id == tail[j].id
          ensures i == j
        {
          assert s[i + 1].id == s[j + 1].id;
        }
      }
      if s[0].id == id {
        assert !HasId(tail, id) by {
          forall k | 0 <= k < |tail| ensures tail[k].id != id {
            assert s[k + 1].id != s[0].id;
          }
        }
        DeleteAbsentIsNoOp(tail, id);
        assert HasId(s, id) by { assert s[0].id == id; }
      } else {
        DeleteLength(tail, id);
        assert HasId(s, id) <==> HasId(tail, id) by {
          if HasId(s, id) {
            var k :| 0 <= k < |s| && s[k].id == id;
            assert k != 0 && tail[k - 1].id == id;
          }
          if HasId(tail, id) {
            var k :| 0 <= k < |tail| && tail[k].id == id;
            assert s[k + 1].id == id;
          }
        }
      }
    }
  }

  /** The list after adding "Food Shopping" to the seed list: the new todo gets id 3. */
  function Shopping(): seq<Todo> {
    [Todo(1, "Run a marathon", false), Todo(2, "Go to the moon", false), Todo(3, "Food Shopping", false)]
  }

  /** Worked example, first step: adding "Food Shopping" to the seed list gives it id 3. */
  lemma ScenarioAdd()
    ensures Seed() + [Todo(NextId(Seed()), "Food Shopping", false)] == Shopping()
  {
  }

  /** Worked example, second step: toggling id 1 completes the first todo only. */
  lemma ScenarioToggle()
    ensures Toggled(Shopping(), 1) ==
            [Todo(1, "Run a marathon", true), Todo(2, "Go to the moon", false), Todo(3, "Food Shopping", false)]
  {
  }

  /** Worked example, third step: deleting id 2 leaves ids 1 and 3, in that order. */
  lemma ScenarioDelete()
    ensures Deleted([Todo(1, "Run a marathon", true), Todo(2, "Go to the moon", false), Todo(3, "Food Shopping", false)], 2) ==
            [Todo(1, "Run a marathon", true), Todo(3, "Food Shopping", false)]
  {
  }

  /** Deleting the newest todo and adding again hands out its id a second time. */
  lemma ScenarioIdReuse()
    ensures NextId(Deleted(Shopping(), 3)) == 3
  {
  }
}
