/**
 * The Controller: it paints the model's list once, registers its render
 * callback with the model, and forwards each handler to one Model operation.
 *
 * The view's renderTodos is represented by the ghost log of the lists it was
 * given; the newest entry is what the view shows.
 */
module TodoController {
  import opened TodoList
  import opened TodoModel

  class Controller {
    const model: Model
    /** The lists handed to the view's renderTodos, oldest first. */
    ghost var rendered: seq<seq<Todo>>

    /**
     * The wiring invariant: the controller's callback is bound in the model,
     * every list the model has notified was rendered once, in order, after
     * the initial paint, and the view shows the model's current list.
     */
    ghost predicate Valid()
      reads this, model
    {
      && model.bound
      && |rendered| == |model.notified| + 1
      && rendered[1..] == model.notified
      && rendered[|rendered| - 1] == model.todos
    }

    /** The list the view currently shows. */
    ghost function Shown(): seq<Todo>
      reads this
      requires rendered != []
    {
      rendered[|rendered| - 1]
    }

    /** Paints the model's current list, then binds the render callback to the model. */
    constructor (model: Model)
      modifies model
      ensures this.model == model && Valid()
      ensures rendered == [old(model.todos)]
      ensures model.todos == old(model.todos) && model.notified == []
      ensures old(model.Valid()) ==> model.Valid()
    {
      this.model := model;
      rendered := [];
      new;
      OnTodoListChanged(model.todos);
      model.BindTodoListChanged();
    }

    /** The render callback: hands `todos` to the view. */
    method OnTodoListChanged(todos: seq<Todo>)
      modifies this
      ensures rendered == old(rendered) + [todos]
    {
      rendered := rendered + [todos];
    }

    /** Forwards to Model.AddTodo; the view then shows the new list. */
    method HandleAddTodo(text: string)
      requires Valid()
      modifies this, model
      ensures Valid()
      ensures model.todos == old(model.todos) + [Todo(NextId(old(model.todos)), text, false)]
      ensures rendered == old(rendered) + [model.todos] && Shown() == model.todos
      ensures old(model.Valid()) ==> model.Valid()
    {
      model.AddTodo(text);
      OnTodoListChanged(model.todos);
    }

    /** Forwards to Model.EditTodo; the view then shows the new list. */
    method HandleEditTodo(id: int, text: string)
      requires Valid()
      modifies this, model
      ensures Valid()
      ensures model.todos == Edited(old(model.todos), id, text)
      ensures rendered == old(rendered) + [model.todos] && Shown() == model.todos
      ensures old(model.Valid()) ==> model.Valid()
    {
      model.EditTodo(id, text);
      OnTodoListChanged(model.todos);
    }

    /** Forwards to Model.DeleteTodo; the view then shows the new list. */
    method HandleDeleteTodo(id: int)
      requires Valid()
      modifies this, model
      ensures Valid()
      ensures model.todos == Deleted(old(model.todos), id)
      ensures rendered == old(rendered) + [model.todos] && Shown() == model.todos
      ensures old(model.Valid()) ==> model.Valid()
    {
      model.DeleteTodo(id);
      OnTodoListChanged(model.todos);
    }

    /** Forwards to Model.ToggleTodo; the view then shows the new list. */
    method HandleToggleTodo(id: int)
      requires Valid()
      modifies this, model
      ensures Valid()
      ensures model.todos == Toggled(old(model.todos), id)
      ensures rendered == old(rendered) + [model.todos] && Shown() == model.todos
      ensures old(model.Valid()) ==> model.Valid()
    {
      model.ToggleTodo(id);
      OnTodoListChanged(model.todos);
    }
  }

  /**
   * A controller over a fresh model, driven through the worked example: add
   * "Food Shopping", toggle id 1, delete id 2. The view ends up showing ids
   * 1 and 3, the first one complete.
   */
  method SeedScenario() returns (shown: seq<Todo>)
    ensures shown == [Todo(1, "Run a marathon", true), Todo(3, "Food Shopping", false)]
  {
    var model := new Model();
    var controller := new Controller(model);
    ScenarioAdd();
    controller.HandleAddTodo("Food Shopping");
    ScenarioToggle();
    controller.HandleToggleTodo(1);
    ScenarioDelete();
    controller.HandleDeleteTodo(2);
    shown := model.todos;
    assert controller.Shown() == shown;
  }
}
