/**
 * The `TodoList` aggregate: a named, archivable list of todo items with
 * counts derived from it. Items are shared references, as in the source.
 */
module TodoLists {
  import opened Wrappers
  import opened Dates
  import opened Text
  import opened Errors
  import opened DomainCommon
  import opened TodoItems
  import Sequences

  const NameEmpty: string := "Todo list name cannot be empty"
  const NameTooLong: string := "Todo list name cannot exceed 100 characters"
  const ArchivedList: string := "Cannot add items to an archived list"
  const MaxNameLength: nat := 100

  /** The name guards shared by `Create` and `Update`: not null or white space, then at most 100 characters. */
  function CheckName(name: Option<string>): (r: Outcome<Exception>)
    ensures r == Fail(ArgumentException(PlainArgument, NameEmpty, Some("name"))) <==> IsNullOrWhiteSpace(name)
    ensures r == Fail(ArgumentException(PlainArgument, NameTooLong, Some("name"))) <==>
      !IsNullOrWhiteSpace(name) && |name.value| > MaxNameLength
    ensures r.Pass? <==> name.Some? && !AllWhiteSpace(name.value) && |name.value| <= MaxNameLength
  {
    if IsNullOrWhiteSpace(name) then
      Fail(ArgumentException(PlainArgument, NameEmpty, Some("name")))
    else if |name.value| > MaxNameLength then
      Fail(ArgumentException(PlainArgument, NameTooLong, Some("name")))
    else
      Pass
  }

  /** How many of `items` are completed. */
  function CountCompleted(items: seq<TodoItem>): (r: nat)
    reads items
    ensures r <= |items|
    ensures r == |items| <==> forall i :: 0 <= i < |items| ==> items[i].isCompleted
    ensures r == 0 <==> forall i :: 0 <= i < |items| ==> !items[i].isCompleted
  {
    if items == [] then 0
    else (if items[0].isCompleted then 1 else 0) + CountCompleted(items[1..])
  }

  /** Counting over a concatenation adds the counts of the parts. */
  lemma {:induction false} CountCompletedConcat(a: seq<TodoItem>, b: seq<TodoItem>)
    ensures CountCompleted(a + b) == CountCompleted(a) + CountCompleted(b)
  {
    if a != [] {
      assert (a + b)[1..] == a[1..] + b;
      CountCompletedConcat(a[1..], b);
    } else {
      assert a + b == b;
    }
  }

  /** Removing the first occurrence of `x` removes one completed item exactly when `x` is a completed member. */
  lemma CountCompletedRemoveFirst(items: seq<TodoItem>, x: TodoItem)
    ensures CountCompleted(Sequences.RemoveFirst(items, x)) ==
      CountCompleted(items) - (if x in items && x.isCompleted then 1 else 0)
  {
    var k := Sequences.FirstIndex(items, x);
    if k < |items| {
      assert items == items[..k] + [items[k]] + items[k + 1..];
      CountCompletedConcat(items[..k] + [items[k]], items[k + 1..]);
      CountCompletedConcat(items[..k], [items[k]]);
      CountCompletedConcat(items[..k], items[k + 1..]);
    }
  }

  /** Everything observable about a `TodoList` except the items' own state. */
  datatype ListRecord = ListRecord(
    entity: EntityState,
    name: string,
    description: Option<string>,
    isArchived: bool,
    todoItems: seq<TodoItem>)

  /** A share of `completed` out of `total` items, scaled to 100, lies between 0 and 100. */
  lemma PercentageBounds(completed: nat, total: nat)
    requires 0 < total && completed <= total
    ensures 0.0 <= (completed as real) / (total as real) * 100.0 <= 100.0
    ensures (completed as real) / (total as real) * 100.0 * (total as real) == (completed as real) * 100.0
  {
    var q := (completed as real) / (total as real);
    assert q * (total as real) == completed as real;
    assert 0.0 <= q;
    assert q <= 1.0;
  }

  class TodoList {
    const base: BaseEntity
    var name: string
    var description: Option<string>
    var isArchived: bool
    var todoItems: seq<TodoItem>

    function Record(): ListRecord
      reads this, base
    {
      ListRecord(base.State(), name, description, isArchived, todoItems)
    }

    /** `TotalItems`: how many items the list holds, completed or not. */
    function TotalItems(): (r: nat)
      reads this
      ensures r == |todoItems|
    {
      |todoItems|
    }

    function CompletedItems(): (r: nat)
      reads this, todoItems
      ensures r <= TotalItems()
    {
      CountCompleted(todoItems)
    }

    /**
     * `CompletionPercentage`: 0 for an empty list, otherwise the share of
     * completed items scaled to 100, as an exact ratio.
     */
    function CompletionPercentage(): (r: real)
      reads this, todoItems
      ensures 0.0 <= r <= 100.0
      ensures TotalItems() == 0 ==> r == 0.0
      ensures TotalItems() > 0 ==> r * (TotalItems() as real) == (CompletedItems() as real) * 100.0
    {
      if TotalItems() == 0 then 0.0
      else
        PercentageBounds(CompletedItems(), TotalItems());
        (CompletedItems() as real) / (TotalItems() as real) * 100.0
    }

    /**
     * The private constructor. The creation event carries Id 0: the store
     * assigns the real Id only later.
     */
    constructor (name: string, description: Option<string>, now: DateTime)
      ensures fresh(base)
      ensures Record() == ListRecord(EntityState(0, now, None, [TodoListCreated(0, name, now)]), name, description, false, [])
    {
      base := new BaseEntity(now);
      this.name := name;
      this.description := description;
      isArchived := false;
      todoItems := [];
      new;
      base.AddDomainEvent(TodoListCreated(base.id, name, now));
    }

    /** The factory: checks the name, then builds an unarchived, empty list that has raised one creation event. */
    static method Create(name: Option<string>, description: Option<string> := None, now: DateTime)
      returns (r: Result<TodoList, Exception>)
      ensures r.Failure? <==> CheckName(name).Fail?
      ensures r.Failure? ==> CheckName(name) == Fail(r.error)
      ensures r.Success? ==> fresh(r.value) && fresh(r.value.base)
      ensures r.Success? ==>
        r.value.Record() == ListRecord(EntityState(0, now, None, [TodoListCreated(0, name.value, now)]), name.value, description, false, [])
    {
      var check := CheckName(name);
      if check.Fail? {
        return Failure(check.error);
      }
      var list := new TodoList(name.value, description, now);
      r := Success(list);
    }

    /** Renames the list and replaces its description; a rejected name leaves the list untouched. */
    method Update(name: Option<string>, description: Option<string>, now: DateTime)
      returns (outcome: Outcome<Exception>)
      modifies this`name, this`description, base`updatedAt, base`domainEvents
      ensures outcome == CheckName(name)
      ensures outcome.Fail? ==> Record() == old(Record())
      ensures outcome.Pass? ==> Record() == old(Record()).(
        entity := old(base.State()).(updatedAt := Some(now),
          domainEvents := old(base.domainEvents) + [TodoListUpdated(base.id, name.value, now)]),
        name := name.value, description := description)
    {
      outcome := CheckName(name);
      if outcome.Fail? {
        return;
      }
      this.name := name.value;
      this.description := description;
      base.SetUpdatedAt(now);
      base.AddDomainEvent(TodoListUpdated(base.id, name.value, now));
    }

    /** Archives the list. There is no guard: archiving twice keeps the flag and raises a second event. */
    method Archive(now: DateTime)
      modifies this`isArchived, base`updatedAt, base`domainEvents
      ensures Record() == old(Record()).(
        entity := old(base.State()).(updatedAt := Some(now),
          domainEvents := old(base.domainEvents) + [TodoListArchived(base.id, name, now)]),
        isArchived := true)
    {
      isArchived := true;
      base.SetUpdatedAt(now);
      base.AddDomainEvent(TodoListArchived(base.id, name, now));
    }

    /** Restores the list. There is no guard: restoring an active list raises an event all the same. */
    method Restore(now: DateTime)
      modifies this`isArchived, base`updatedAt, base`domainEvents
      ensures Record() == old(Record()).(
        entity := old(base.State()).(updatedAt := Some(now),
          domainEvents := old(base.domainEvents) + [TodoListRestored(base.id, name, now)]),
        isArchived := false)
    {
      isArchived := false;
      base.SetUpdatedAt(now);
      base.AddDomainEvent(TodoListRestored(base.id, name, now));
    }

    /** Appends an item unless the list is archived, in which case nothing changes. */
    method AddTodoItem(todoItem: TodoItem, now: DateTime) returns (outcome: Outcome<Exception>)
      modifies this`todoItems, base`updatedAt
      ensures old(isArchived) ==> outcome == Fail(InvalidOperationException(ArchivedList)) && Record() == old(Record())
      ensures !old(isArchived) ==> outcome == Pass && Record() == old(Record()).(
        entity := old(base.State()).(updatedAt := Some(now)), todoItems := old(todoItems) + [todoItem])
      ensures !old(isArchived) ==> TotalItems() == old(TotalItems()) + 1
      ensures !old(isArchived) ==> CompletedItems() == old(CompletedItems()) + (if todoItem.isCompleted then 1 else 0)
    {
      if isArchived {
        return Fail(InvalidOperationException(ArchivedList));
      }
      CountCompletedConcat(todoItems, [todoItem]);
      todoItems := todoItems + [todoItem];
      base.SetUpdatedAt(now);
      outcome := Pass;
    }

    /**
     * Removes the first occurrence of the item, whether or not the list is
     * archived; an absent item leaves the items as they were, though
     * UpdatedAt is stamped in either case.
     */
    method RemoveTodoItem(todoItem: TodoItem, now: DateTime)
      modifies this`todoItems, base`updatedAt
      ensures Record() == old(Record()).(
        entity := old(base.State()).(updatedAt := Some(now)),
        todoItems := Sequences.RemoveFirst(old(todoItems), todoItem))
      ensures todoItem !in old(todoItems) ==> todoItems == old(todoItems)
      ensures CompletedItems() == old(CompletedItems()) - (if todoItem in old(todoItems) && todoItem.isCompleted then 1 else 0)
    {
      CountCompletedRemoveFirst(todoItems, todoItem);
      todoItems := Sequences.RemoveFirst(todoItems, todoItem);
      base.SetUpdatedAt(now);
    }
  }
}
