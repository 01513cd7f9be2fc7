/**
 * `TodoItemCommandService`: create, update and delete items through the item
 * repository. Domain errors and the unknown-id error are returned as
 * `Failure` where the source throws.
 */
module Commands {
  import opened Wrappers
  import opened Dates
  import opened Errors
  import opened Text
  import opened DomainCommon
  import opened TodoItems
  import opened Sequences
  import opened Persistence
  import opened Repositories

  const NotFoundPrefix := "TodoItem with id "
  const NotFoundSuffix := " not found"

  /**
   * The message of the `InvalidOperationException` for an id that no stored
   * item has: the fixed prefix and suffix around the id in decimal.
   */
  function NotFoundMessage(id: int): (r: string)
    ensures |r| > |NotFoundPrefix| + |NotFoundSuffix|
    ensures r[..|NotFoundPrefix|] == NotFoundPrefix
    ensures r[|r| - |NotFoundSuffix|..] == NotFoundSuffix
    ensures r[|NotFoundPrefix|..|r| - |NotFoundSuffix|] == IntToString(id)
  {
    var r := NotFoundPrefix + IntToString(id) + NotFoundSuffix;
    assert r[..|NotFoundPrefix|] == NotFoundPrefix;
    assert r[|r| - |NotFoundSuffix|..] == NotFoundSuffix;
    assert r[|NotFoundPrefix|..|r| - |NotFoundSuffix|] == IntToString(id);
    r
  }

  /** The message names the id: two ids give the same message only when they are equal. */
  lemma NotFoundMessageNamesId(a: int, b: int)
    requires NotFoundMessage(a) == NotFoundMessage(b)
    ensures a == b
  {
    var m := NotFoundMessage(a);
    assert IntToString(a) == m[|NotFoundPrefix|..|m| - |NotFoundSuffix|] == IntToString(b);
    IntToStringInjective(a, b);
  }

  class TodoItemCommandService {
    const repository: TodoItemRepository

    constructor (repository: TodoItemRepository)
      ensures this.repository == repository
    {
      this.repository := repository;
    }

    /**
     * `CreateTodoItemAsync`: builds the item through `TodoItem.Create` and
     * adds it. A rejected item never reaches the store; an accepted one is
     * stored last, under the next item id, with exactly the given fields, and
     * is found again by that id.
     */
    method CreateTodoItem(title: Option<string>, description: Option<string>, priority: Priority,
                          dueDate: Option<DateTime>, today: nat, now: DateTime)
      returns (r: Result<TodoItem, Exception>)
      requires repository.context.Valid()
      modifies repository.context
      ensures repository.context.Valid()
      ensures r.Failure? <==> CheckRules(title, priority, dueDate, today).Fail?
      ensures r.Failure? ==> CheckRules(title, priority, dueDate, today) == Fail(r.error)
      ensures r.Failure? ==> unchanged(repository.context)
      ensures r.Success? ==>
        && fresh(r.value)
        && r.value.Record() == ItemRecord(EntityState(old(repository.context.todoItemIdCounter), now, None, []),
             title.value, description, priority, false, dueDate)
        && repository.context.todoItems == old(repository.context.todoItems) + [r.value]
        && repository.context.todoItemIdCounter == old(repository.context.todoItemIdCounter) + 1
        && repository.GetById(r.value.base.id) == Some(r.value)
      ensures repository.context.todoLists == old(repository.context.todoLists)
    {
      var created := TodoItem.Create(title, description, priority, dueDate, today, now);
      if created.Failure? {
        return Failure(created.error);
      }
      var todoItem := created.value;
      var added := repository.Add(todoItem);
      r := Success(added);
    }

    /**
     * `UpdateTodoItemAsync`: an unknown id is refused with
     * `InvalidOperationException` and nothing changes. Otherwise the stored
     * item with that id goes through `TodoItem.Update`: a domain error leaves
     * it as it was, success replaces its four editable fields, and every item
     * with another id is untouched either way. The collection itself never
     * changes.
     */
    method UpdateTodoItem(id: int, title: Option<string>, description: Option<string>, priority: Priority,
                          dueDate: Option<DateTime>, today: nat, now: DateTime)
      returns (r: Result<TodoItem, Exception>)
      requires repository.context.Valid()
      modifies repository.context.todoItems, repository.context.ItemBases()
      ensures repository.context.Valid()
      ensures old(repository.GetById(id)).None? ==>
        && r == Failure(InvalidOperationException(NotFoundMessage(id)))
        && forall i :: 0 <= i < |repository.context.todoItems| ==>
             repository.context.todoItems[i].Record() == old(repository.context.todoItems[i].Record())
      ensures old(repository.GetById(id)).Some? ==>
        var item := old(repository.GetById(id)).value;
        && (r.Success? <==> CheckRules(title, priority, dueDate, today).Pass?)
        && (r.Failure? ==> CheckRules(title, priority, dueDate, today) == Fail(r.error) && item.Record() == old(item.Record()))
        && (r.Success? ==> r.value == item && item.Record() == old(item.Record()).(
              entity := old(item.base.State()).(updatedAt := Some(now)),
              title := title.value, description := description, priority := priority, dueDate := dueDate))
      ensures forall i :: 0 <= i < |repository.context.todoItems| && repository.context.todoItems[i].base.id != id ==>
        repository.context.todoItems[i].Record() == old(repository.context.todoItems[i].Record())
    {
      var found := repository.GetById(id);
      if found.None? {
        return Failure(InvalidOperationException(NotFoundMessage(id)));
      }
      var todoItem := found.value;
      var outcome := todoItem.Update(title, description, priority, dueDate, today, now);
      if outcome.Fail? {
        return Failure(outcome.error);
      }
      repository.Update(todoItem);
      r := Success(todoItem);
    }

    /**
     * `DeleteTodoItemAsync`: removes the item with that id if there is one;
     * afterwards no stored item has that id.
     */
    method DeleteTodoItem(id: int)
      requires repository.context.Valid()
      modifies repository.context`todoLists, repository.context`todoItems
      ensures repository.context.Valid()
      ensures repository.GetById(id).None?
      ensures old(repository.GetById(id)).None? ==> repository.context.todoItems == old(repository.context.todoItems)
      ensures old(repository.GetById(id)).Some? ==>
        repository.context.todoItems == RemoveFirst(old(repository.context.todoItems), old(repository.GetById(id)).value)
      ensures repository.context.todoLists == old(repository.context.todoLists)
    {
      repository.Delete(id);
    }
  }
}
