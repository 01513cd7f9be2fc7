/**
 * The two repositories over the in-memory store: find-first-by-id, the
 * whole collection in insertion order, add (which lets the store assign the
 * id), a no-op update, and delete.
 */
module Repositories {
  import opened Wrappers
  import opened Dates
  import opened DomainCommon
  import opened TodoItems
  import opened TodoLists
  import opened Sequences
  import opened Persistence

  class TodoItemRepository {
    const context: ApplicationDbContext

    constructor (context: ApplicationDbContext)
      ensures this.context == context
    {
      this.context := context;
    }

    /**
     * `GetByIdAsync`: the first stored item whose Id is `id`, or `None` when
     * no stored item has that Id.
     */
    function GetById(id: int): (r: Option<TodoItem>)
      reads context, context.ItemBases()
      ensures r.None? <==> forall i :: 0 <= i < |context.todoItems| ==> context.todoItems[i].base.id != id
      ensures r.Some? ==> exists k :: (0 <= k < |context.todoItems| && context.todoItems[k] == r.value
        && r.value.base.id == id
        && forall i :: 0 <= i < k ==> context.todoItems[i].base.id != id)
    {
      var k := ItemIndexById(context.todoItems, id);
      if k < |context.todoItems| then Some(context.todoItems[k]) else None
    }

    /** `GetAllAsync`: every stored item, in the order they were added. */
    function GetAll(): (r: seq<TodoItem>)
      reads context
      ensures |r| == |context.todoItems| && forall i :: 0 <= i < |r| ==> r[i] == context.todoItems[i]
    {
      context.todoItems
    }

    /**
     * `AddAsync`: the store gives the item the next item id and appends it;
     * the same item comes back, and looking its new id up finds it.
     */
    method Add(todoItem: TodoItem) returns (r: TodoItem)
      requires context.Valid() && context.NotStored(ItemEntity(todoItem))
      modifies context, todoItem.base
      ensures context.Valid()
      ensures r == todoItem
      ensures todoItem.base.State() == old(todoItem.base.State()).(id := old(context.todoItemIdCounter))
      ensures context.todoItems == old(context.todoItems) + [todoItem]
      ensures context.todoItemIdCounter == old(context.todoItemIdCounter) + 1
      ensures context.todoLists == old(context.todoLists) && context.todoListIdCounter == old(context.todoListIdCounter)
      ensures GetById(todoItem.base.id) == Some(todoItem)
    {
      context.Add(ItemEntity(todoItem));
      var _ := context.SaveChanges();
      FindAppendedItem(old(context.todoItems), todoItem);
      r := todoItem;
    }

    /** `UpdateAsync`: the store already holds the changed object, so nothing changes. */
    method Update(todoItem: TodoItem)
      requires context.Valid()
      ensures context.Valid()
    {
      context.Update(ItemEntity(todoItem));
      var _ := context.SaveChanges();
    }

    /**
     * `DeleteAsync(int)`: removes the item found by id, if any. Afterwards no
     * stored item has that id, because ids are unique; an unknown id leaves
     * the store as it was.
     */
    method Delete(id: int)
      requires context.Valid()
      modifies context`todoLists, context`todoItems
      ensures context.Valid()
      ensures GetById(id).None?
      ensures old(GetById(id)).None? ==> context.todoItems == old(context.todoItems)
      ensures old(GetById(id)).Some? ==>
        context.todoItems == RemoveFirst(old(context.todoItems), old(GetById(id)).value)
        && |context.todoItems| == |old(context.todoItems)| - 1
      ensures context.todoLists == old(context.todoLists)
    {
      var todoItem := GetById(id);
      if todoItem.Some? {
        context.Remove(ItemEntity(todoItem.value));
        var _ := context.SaveChanges();
      }
    }
  }

  class TodoListRepository {
    const context: ApplicationDbContext

    constructor (context: ApplicationDbContext)
      ensures this.context == context
    {
      this.context := context;
    }

    /** `GetByIdAsync`: the first stored list whose Id is `id`, or `None`. */
    function GetById(id: int): (r: Option<TodoList>)
      reads context, context.ListBases()
      ensures r.None? <==> forall i :: 0 <= i < |context.todoLists| ==> context.todoLists[i].base.id != id
      ensures r.Some? ==> exists k :: (0 <= k < |context.todoLists| && context.todoLists[k] == r.value
        && r.value.base.id == id
        && forall i :: 0 <= i < k ==> context.todoLists[i].base.id != id)
    {
      var k := ListIndexById(context.todoLists, id);
      if k < |context.todoLists| then Some(context.todoLists[k]) else None
    }

    /** `GetAllAsync`: every stored list, in the order they were added. */
    function GetAll(): (r: seq<TodoList>)
      reads context
      ensures |r| == |context.todoLists| && forall i :: 0 <= i < |r| ==> r[i] == context.todoLists[i]
    {
      context.todoLists
    }

    /** `AddAsync`: the list takes the next list id, is appended, and comes back. */
    method Add(todoList: TodoList) returns (r: TodoList)
      requires context.Valid() && context.NotStored(ListEntity(todoList))
      modifies context, todoList.base
      ensures context.Valid()
      ensures r == todoList
      ensures todoList.base.State() == old(todoList.base.State()).(id := old(context.todoListIdCounter))
      ensures context.todoLists == old(context.todoLists) + [todoList]
      ensures context.todoListIdCounter == old(context.todoListIdCounter) + 1
      ensures context.todoItems == old(context.todoItems) && context.todoItemIdCounter == old(context.todoItemIdCounter)
      ensures GetById(todoList.base.id) == Some(todoList)
    {
      context.Add(ListEntity(todoList));
      var _ := context.SaveChanges();
      FindAppendedList(old(context.todoLists), todoList);
      r := todoList;
    }

    /** `UpdateAsync`: nothing changes. */
    method Update(todoList: TodoList)
      requires context.Valid()
      ensures context.Valid()
    {
      context.Update(ListEntity(todoList));
      var _ := context.SaveChanges();
    }

    /**
     * `DeleteAsync(TodoList)`: removes the list's first occurrence; a stored
     * list's id is then no longer found, and the items stay.
     */
    method Delete(todoList: TodoList)
      requires context.Valid()
      modifies context`todoLists, context`todoItems
      ensures context.Valid()
      ensures context.todoLists == RemoveFirst(old(context.todoLists), todoList)
      ensures todoList !in old(context.todoLists) ==> context.todoLists == old(context.todoLists)
      ensures todoList in old(context.todoLists) ==> GetById(todoList.base.id).None?
      ensures context.todoItems == old(context.todoItems)
    {
      context.Remove(ListEntity(todoList));
      var _ := context.SaveChanges();
    }
  }

  /**
   * A fresh store seen through the list repository: exactly the two seed
   * lists, in order, found under ids 1 and 2.
   */
  method SeededLists(now: DateTime) returns (repository: TodoListRepository)
    ensures fresh(repository.context)
    ensures repository.context.Valid()
    ensures |repository.GetAll()| == 2
    ensures repository.GetById(1) == Some(repository.GetAll()[0])
    ensures repository.GetById(2) == Some(repository.GetAll()[1])
    ensures repository.GetAll()[0].name == "Personal Tasks" && repository.GetAll()[1].name == "Work Tasks"
    ensures repository.GetById(3).None?
  {
    var context := new ApplicationDbContext(now);
    repository := new TodoListRepository(context);
  }
}
