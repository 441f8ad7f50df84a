# Todo list MVC: Model and Controller

A model of the logic of a small browser todo-list application built as a
Model-View-Controller split (`index.js`):

- **Model** owns the todo list, a sequence of records `{id, text, complete}`
  seeded with two todos ("Run a marathon", "Go to the moon"; ids 1 and 2;
  incomplete). `addTodo` appends a todo whose id is the last todo's id plus
  one (1 on an empty list). `editTodo` and `toggleTodo` map over the list and
  replace the text, or negate the flag, of the todo with the matching id.
  `deleteTodo` filters that id out. Each operation then calls the single
  change callback installed with `bindTodoListChanged`, with the new list.
  It does this once, even when no todo matched.
- **Controller** paints the model's list once, registers its render function
  as the model's callback, and forwards each of its handlers to exactly one
  Model operation.

The project has three modules:

- `TodoList` (`todo_list.dfy`) holds the `Todo` datatype, the seed list, the
  id rule, and the map and filter steps as recursive functions. It also holds
  the lemmas about them: the id invariant (ids strictly increase along the
  list, hence are unique), no-op on an absent id, the double-toggle identity,
  the delete length, and the filter's order.
- `TodoModel` (`model.dfy`) holds the `Model` class. It has a `todos: seq<Todo>`
  field and a `bound` flag for the callback. A ghost `notified` history lists
  the lists the bound callback received. Each method states the new list
  exactly, states that the callback received it once, and states that the
  invariant `Valid()` is preserved.
- `TodoController` (`controller.dfy`) holds the `Controller` class. Its ghost
  `rendered` log records what the view was given. The controller's `Valid()`
  says that the initial paint followed by the model's notifications is exactly
  what was rendered, so the view shows `model.todos` after every handler.

The id rule is last id + 1, or 1 on an empty list (index.js:12). On lists whose
ids increase it equals largest id + 1 (`NextIdIsMaxPlusOne`). Every operation
keeps that invariant, and a new model starts with it.

## Model

| member | source | states |
|---|---|---|
| TodoList.Seed | index.js:3-6 | the seed list has strictly increasing ids |
| TodoList.NextId | index.js:12 | on a list whose ids increase, the id addTodo assigns is larger than every existing id |
| TodoList.MaxId | index.js:12 | reference for the id rule: the result is some todo's id and no id exceeds it |
| TodoList.Edited | index.js:23-25 | length kept; every id and `complete` flag kept; a matching todo gets the new text, any other keeps its text |
| TodoList.Toggled | index.js:38-40 | length kept; every id and text kept; `complete` is negated exactly on matching todos |
| TodoList.Deleted | index.js:32 | a todo is in the result iff it is in the input and its id differs; never longer than the input |
| TodoList.IncreasingIsUnique | index.js:12 | strictly increasing ids are pairwise distinct |
| TodoList.NextIdIsMaxPlusOne | index.js:12 | on a list with increasing ids, "last id + 1, or 1 when empty" equals "largest id + 1, or 1" |
| TodoList.NextIdIsFresh | index.js:12 | the id addTodo assigns exceeds every existing id, so no todo already carries it |
| TodoList.AddKeepsIdsIncreasing | index.js:10-17 | appending the new todo keeps ids strictly increasing |
| TodoList.EditKeepsIdsIncreasing | index.js:22-25 | editing keeps ids strictly increasing |
| TodoList.ToggleKeepsIdsIncreasing | index.js:37-40 | toggling keeps ids strictly increasing |
| TodoList.DeleteKeepsIdsIncreasing | index.js:31-32 | filtering keeps ids strictly increasing (survivors stay in order) |
| TodoList.EditAbsentIsNoOp | index.js:22-25 | editing an id no todo carries gives back the same list |
| TodoList.ToggleAbsentIsNoOp | index.js:37-40 | toggling an id no todo carries gives back the same list |
| TodoList.ToggleTwiceIsIdentity | index.js:37-40 | toggling the same id twice restores the original list |
| TodoList.DeleteAbsentIsNoOp | index.js:31-32 | deleting an id no todo carries gives back the same list |
| TodoList.DeleteDistributes | index.js:32 | the filter of a concatenation is the concatenation of the filters (order preserved) |
| TodoList.DeleteSingle | index.js:32 | a single todo is kept exactly when its id differs from the deleted id |
| TodoList.DeleteLength | index.js:31-32 | with unique ids, deleting shortens the list by one when the id is present, by zero otherwise |
| TodoList.ScenarioAdd | index.js:10-17 | adding "Food Shopping" to the seed list gives it id 3, incomplete, at the end |
| TodoList.ScenarioToggle | index.js:37-40 | then toggling id 1 completes the first todo and leaves the others alone |
| TodoList.ScenarioDelete | index.js:31-32 | then deleting id 2 leaves ids 1 and 3, in that order |
| TodoList.ScenarioIdReuse | index.js:12 | deleting the newest todo (id 3) and adding again hands out id 3 again |
| TodoModel.Model.constructor | index.js:2-7 | a new model holds exactly the seed list, has no callback, and satisfies the invariant |
| TodoModel.Model.AddTodo | index.js:10-19 | the list becomes the old list plus `{NextId(old), text, false}`; the callback gets the new list once; the invariant is kept |
| TodoModel.Model.EditTodo | index.js:22-28 | the list becomes `Edited(old, id, text)`, equal to the old list when the id is absent; one notification; invariant kept |
| TodoModel.Model.DeleteTodo | index.js:31-34 | the list becomes `Deleted(old, id)`, equal to the old list when the id is absent; under `Valid()`, one shorter if the id was present and as long otherwise; one notification; invariant kept |
| TodoModel.Model.ToggleTodo | index.js:37-42 | the list becomes `Toggled(old, id)`, equal to the old list when the id is absent; one notification; invariant kept |
| TodoModel.Model.BindTodoListChanged | index.js:44-46 | a callback is bound, it has not been called yet, and the list is untouched |
| TodoController.Controller.constructor | index.js:178-191 | renders the model's list once, then binds the callback; the wiring invariant holds |
| TodoController.Controller.OnTodoListChanged | index.js:193 | the view is handed the given list once |
| TodoController.Controller.HandleAddTodo | index.js:195 | exactly `Model.AddTodo`'s effect, one render of the new list, view shows `model.todos` |
| TodoController.Controller.HandleEditTodo | index.js:197 | exactly `Model.EditTodo`'s effect, one render of the new list, view shows `model.todos` |
| TodoController.Controller.HandleDeleteTodo | index.js:199 | exactly `Model.DeleteTodo`'s effect, one render of the new list, view shows `model.todos` |
| TodoController.Controller.HandleToggleTodo | index.js:201 | exactly `Model.ToggleTodo`'s effect, one render of the new list, view shows `model.todos` |
| TodoController.SeedScenario | index.js:205 | a controller over a fresh model, after add "Food Shopping", toggle 1 and delete 2, shows ids 1 (complete) and 3 |

## Left out

- The `View` class (index.js:50-175): DOM lookup, element creation, clearing and drawing nodes, and event listeners. It is browser I/O. `renderTodos` is represented only by the controller's ghost `rendered` log.
- Reading ids back from DOM element ids with `parseInt` (index.js:157, 167) and the truthiness test on the input text (index.js:147). Both depend on the DOM and on JavaScript coercion. Handlers take an `int` id and any string.
- The view's event bindings in the Controller constructor (index.js:186-188). These only register DOM listeners.
- Reference aliasing: `addTodo` pushes onto the same array object that earlier callback calls received (index.js:17). Notifications are modelled as value snapshots.
- Calling a Model operation before a callback is bound: in JavaScript it updates the list and then throws (index.js:17-18). Here a bound callback is a precondition.
- Callback dispatch: a Dafny object cannot store a method closure. So the model records each notification in `notified`, and the controller's handler then runs its render callback. `Controller.Valid` ties the two logs together one to one.
- Ids and JavaScript numbers: ids are unbounded integers. Floating-point precision beyond 2^53 and non-integer ids are not modelled.
- The bootstrap line `new Controller(new Model(), new View())` (index.js:205) appears only as the client method `SeedScenario`.
