/**
 * The Model class: it owns the todo list, changes it with addTodo, editTodo,
 * deleteTodo and toggleTodo, and hands the resulting list to the one change
 * callback bound with bindTodoListChanged.
 *
 * The callback is represented by whether one is bound and by the ghost
 * history of the lists it has been called with.
 */
module TodoModel {
  import opened TodoList

  class Model {
    /** The todo list, in insertion (= display) order. */
    var todos: seq<Todo>
    /** Whether bindTodoListChanged has installed a change callback. */
    var bound: bool
    /** The lists passed to the currently bound callback, oldest first. */
    ghost var notified: seq<seq<Todo>>

    /**
     * The model's invariant: ids strictly increase along the list, and the
     * callback's most recent call, if any, carried the current list.
     */
    ghost predicate Valid()
      reads this
    {
      && IdsIncreasing(todos)
      && (notified != [] ==> notified[|notified| - 1] == todos)
    }

    /** A new model holds the two seed todos and has no callback yet. */
    constructor ()
      ensures todos == Seed()
      ensures !bound && notified == []
      ensures Valid()
    {
      todos := Seed();
      bound := false;
      notified := [];
    }

    /** Appends a todo with the next id and the given text, incomplete, then notifies once. */
    method AddTodo(text: string)
      requires bound
      modifies this
      ensures todos == old(todos) + [Todo(NextId(old(todos)), text, false)]
      ensures bound && notified == old(notified) + [todos]
      ensures old(Valid()) ==> Valid()
    {
      var todo := Todo(NextId(todos), text, false);
      if IdsIncreasing(todos) {
        AddKeepsIdsIncreasing(todos, text);
      }
      todos := todos + [todo];
      notified := notified + [todos];
    }

    /** Gives every todo with id `id` the text `text`, then notifies once, matched or not. */
    method EditTodo(id: int, text: string)
      requires bound
      modifies this
      ensures todos == Edited(old(todos), id, text)
      ensures bound && notified == old(notified) + [todos]
      ensures old(Valid()) ==> Valid()
      ensures !HasId(old(todos), id) ==> todos == old(todos)
    {
      if !HasId(todos, id) {
        EditAbsentIsNoOp(todos, id, text);
      }
      todos := Edited(todos, id, text);
      notified := notified + [todos];
    }

    /** Removes every todo with id `id`, then notifies once, matched or not. */
    method DeleteTodo(id: int)
      requires bound
      modifies this
      ensures todos == Deleted(old(todos), id)
      ensures bound && notified == old(notified) + [todos]
      ensures old(Valid()) ==> Valid()
      ensures old(Valid()) ==> |todos| == if HasId(old(todos), id) then |old(todos)| - 1 else |old(todos)|
      ensures !HasId(old(todos), id) ==> todos == old(todos)
    {
      if !HasId(todos, id) {
        DeleteAbsentIsNoOp(todos, id);
      }
      if IdsIncreasing(todos) {
        DeleteKeepsIdsIncreasing(todos, id);
        IncreasingIsUnique(todos);
        DeleteLength(todos, id);
      }
      todos := Deleted(todos, id);
      notified := notified + [todos];
    }

    /** Negates the flag of every todo with id `id`, then notifies once, matched or not. */
    method ToggleTodo(id: int)
      requires bound
      modifies this
      ensures todos == Toggled(old(todos), id)
      ensures bound && notified == old(notified) + [todos]
      ensures old(Valid()) ==> Valid()
      ensures !HasId(old(todos), id) ==> todos == old(todos)
    {
      if !HasId(todos, id) {
        ToggleAbsentIsNoOp(todos, id);
      }
      todos := Toggled(todos, id);
      notified := notified + [todos];
    }

    /** Installs the change callback; a new callback has not been called yet. */
    method BindTodoListChanged()
      modifies this
      ensures bound && notified == []
      ensures todos == old(todos)
      ensures old(Valid()) ==> Valid()
    {
      bound := true;
      notified := [];
    }
  }
}
