/**
 * `ApplicationDbContext`: the in-memory store. Two collections, one of
 * lists and one of items, each with its own auto-increment id counter.
 */
module Persistence {
  import opened Wrappers
  import opened Dates
  import opened DomainCommon
  import opened TodoItems
  import opened TodoLists
  import opened Sequences

  /** The argument of the generic `Add<T>`/`Remove<T>`: a list, an item, or an object of any other class. */
  datatype Entity = ListEntity(list: TodoList) | ItemEntity(item: TodoItem) | OtherEntity {
    /** The base entity whose Id `Add` assigns. */
    function Bases(): set<BaseEntity> {
      match this
      case ListEntity(l) => {l.base}
      case ItemEntity(t) => {t.base}
      case OtherEntity => {}
    }
  }

  /** `FirstOrDefault(x => x.Id == id)` over lists, as an index: `|lists|` when none matches. */
  function ListIndexById(lists: seq<TodoList>, id: int): (k: nat)
    reads set l | l in lists :: l.base
    ensures k <= |lists|
    ensures k < |lists| ==> lists[k].base.id == id
    ensures forall i :: 0 <= i < k ==> lists[i].base.id != id
  {
    if lists == [] then 0
    else if lists[0].base.id == id then 0
    else 1 + ListIndexById(lists[1..], id)
  }

  /** `FirstOrDefault(x => x.Id == id)` over items, as an index: `|items|` when none matches. */
  function ItemIndexById(items: seq<TodoItem>, id: int): (k: nat)
    reads set t | t in items :: t.base
    ensures k <= |items|
    ensures k < |items| ==> items[k].base.id == id
    ensures forall i :: 0 <= i < k ==> items[i].base.id != id
  {
    if items == [] then 0
    else if items[0].base.id == id then 0
    else 1 + ItemIndexById(items[1..], id)
  }

  ghost predicate ListIdsIncreasing(lists: seq<TodoList>)
    reads set l | l in lists :: l.base
  {
    forall i, j :: 0 <= i < j < |lists| ==> lists[i].base.id < lists[j].base.id
  }

  ghost predicate ItemIdsIncreasing(items: seq<TodoItem>)
    reads set t | t in items :: t.base
  {
    forall i, j :: 0 <= i < j < |items| ==> items[i].base.id < items[j].base.id
  }

  /**
   * The part of the store invariant about one collection: ids increase
   * strictly in insertion order (so they are distinct), each was issued by
   * the collection's counter, and every issued id lies below the counter.
   */
  ghost predicate ListsWellFormed(lists: seq<TodoList>, issued: set<int>, counter: int)
    reads set l | l in lists :: l.base
  {
    && 1 <= counter
    && ListIdsIncreasing(lists)
    && (forall i :: 0 <= i < |lists| ==> lists[i].base.id in issued)
    && (forall k :: k in issued ==> 1 <= k < counter)
  }

  /** The same for the item collection. */
  ghost predicate ItemsWellFormed(items: seq<TodoItem>, issued: set<int>, counter: int)
    reads set t | t in items :: t.base
  {
    && 1 <= counter
    && ItemIdsIncreasing(items)
    && (forall i :: 0 <= i < |items| ==> items[i].base.id in issued)
    && (forall k :: k in issued ==> 1 <= k < counter)
  }

  /** No list shares its base entity with an item. */
  predicate BasesDisjoint(lists: seq<TodoList>, items: seq<TodoItem>) {
    forall i, j :: 0 <= i < |lists| && 0 <= j < |items| ==> lists[i].base != items[j].base
  }

  /** Removing a list keeps the list collection well formed. */
  lemma RemoveListWellFormed(lists: seq<TodoList>, issued: set<int>, counter: int, x: TodoList)
    requires ListsWellFormed(lists, issued, counter)
    ensures ListsWellFormed(RemoveFirst(lists, x), issued, counter)
  {
  }

  /** Removing an item keeps the item collection well formed. */
  lemma RemoveItemWellFormed(items: seq<TodoItem>, issued: set<int>, counter: int, x: TodoItem)
    requires ItemsWellFormed(items, issued, counter)
    ensures ItemsWellFormed(RemoveFirst(items, x), issued, counter)
  {
  }

  /** Removing a list keeps the bases disjoint. */
  lemma RemoveListDisjoint(lists: seq<TodoList>, items: seq<TodoItem>, x: TodoList)
    requires BasesDisjoint(lists, items)
    ensures BasesDisjoint(RemoveFirst(lists, x), items)
  {
  }

  /** Removing an item keeps the bases disjoint. */
  lemma RemoveItemDisjoint(lists: seq<TodoList>, items: seq<TodoItem>, x: TodoItem)
    requires BasesDisjoint(lists, items)
    ensures BasesDisjoint(lists, RemoveFirst(items, x))
  {
  }

  /** Appending a list that carries the counter as its id keeps the list collection well formed. */
  lemma AppendListWellFormed(lists: seq<TodoList>, issued: set<int>, counter: int, l: TodoList)
    requires ListsWellFormed(lists, issued, counter) && l.base.id == counter
    ensures ListsWellFormed(lists + [l], issued + {counter}, counter + 1)
  {
  }

  /** Appending an item that carries the counter as its id keeps the item collection well formed. */
  lemma AppendItemWellFormed(items: seq<TodoItem>, issued: set<int>, counter: int, t: TodoItem)
    requires ItemsWellFormed(items, issued, counter) && t.base.id == counter
    ensures ItemsWellFormed(items + [t], issued + {counter}, counter + 1)
  {
  }

  /**
   * With increasing ids, a stored item is the only one with its id, so
   * removing it leaves no item with that id.
   */
  lemma RemoveStoredItem(items: seq<TodoItem>, x: TodoItem)
    requires ItemIdsIncreasing(items) && x in items
    ensures forall i :: 0 <= i < |RemoveFirst(items, x)| ==> RemoveFirst(items, x)[i].base.id != x.base.id
  {
    var k := FirstIndex(items, x);
    var r := RemoveFirst(items, x);
    forall i | 0 <= i < |r| ensures r[i].base.id != x.base.id {
      if i < k {
        assert r[i] == items[i];
      } else {
        assert r[i] == items[i + 1];
      }
    }
  }

  /** The same for lists. */
  lemma RemoveStoredList(lists: seq<TodoList>, x: TodoList)
    requires ListIdsIncreasing(lists) && x in lists
    ensures forall i :: 0 <= i < |RemoveFirst(lists, x)| ==> RemoveFirst(lists, x)[i].base.id != x.base.id
  {
    var k := FirstIndex(lists, x);
    var r := RemoveFirst(lists, x);
    forall i | 0 <= i < |r| ensures r[i].base.id != x.base.id {
      if i < k {
        assert r[i] == lists[i];
      } else {
        assert r[i] == lists[i + 1];
      }
    }
  }

  /** With increasing ids below `t`'s, the search for `t`'s id after appending `t` finds `t`. */
  lemma FindAppendedItem(items: seq<TodoItem>, t: TodoItem)
    requires forall i :: 0 <= i < |items| ==> items[i].base.id < t.base.id
    ensures ItemIndexById(items + [t], t.base.id) == |items|
  {
    var s := items + [t];
    assert s[|items|] == t;
  }

  /** With increasing ids below `l`'s, the search for `l`'s id after appending `l` finds `l`. */
  lemma FindAppendedList(lists: seq<TodoList>, l: TodoList)
    requires forall i :: 0 <= i < |lists| ==> lists[i].base.id < l.base.id
    ensures ListIndexById(lists + [l], l.base.id) == |lists|
  {
    var s := lists + [l];
    assert s[|lists|] == l;
  }

  /** Both seed names pass the list's name guards. */
  lemma SeedNamesPass()
    ensures CheckName(Some("Personal Tasks")) == Pass
    ensures CheckName(Some("Work Tasks")) == Pass
  {
    assert !Text.IsWhiteSpace("Personal Tasks"[0]);
    assert !Text.IsWhiteSpace("Work Tasks"[0]);
  }

  class ApplicationDbContext {
    var todoLists: seq<TodoList>
    var todoItems: seq<TodoItem>
    var todoListIdCounter: int
    var todoItemIdCounter: int
    /** Every Id this store has ever handed to a list, including lists removed since. */
    ghost var issuedListIds: set<int>
    /** Every Id this store has ever handed to an item, including items removed since. */
    ghost var issuedItemIds: set<int>

    function ListBases(): set<BaseEntity>
      reads this
    {
      set l | l in todoLists :: l.base
    }

    function ItemBases(): set<BaseEntity>
      reads this
    {
      set t | t in todoItems :: t.base
    }

    /** The store invariant: both collections well formed, and no list shares its base with an item. */
    ghost predicate Valid()
      reads this, ListBases(), ItemBases()
    {
      && ListsWellFormed(todoLists, issuedListIds, todoListIdCounter)
      && ItemsWellFormed(todoItems, issuedItemIds, todoItemIdCounter)
      && BasesDisjoint(todoLists, todoItems)
    }

    /** The entity is not in the store yet (the source never adds one twice). */
    predicate NotStored(e: Entity)
      reads this
    {
      && (forall i :: 0 <= i < |todoLists| ==> todoLists[i].base !in e.Bases())
      && (forall j :: 0 <= j < |todoItems| ==> todoItems[j].base !in e.Bases())
    }

    /** The constructor runs `SeedData`, so a new store holds two lists and no items. */
    constructor (now: DateTime)
      ensures Valid()
      ensures |todoLists| == 2 && todoItems == []
      ensures todoLists[0].Record() == ListRecord(EntityState(1, now, None, [TodoListCreated(0, "Personal Tasks", now)]),
        "Personal Tasks", Some("My personal todo items"), false, [])
      ensures todoLists[1].Record() == ListRecord(EntityState(2, now, None, [TodoListCreated(0, "Work Tasks", now)]),
        "Work Tasks", Some("Work-related todo items"), false, [])
      ensures todoListIdCounter == 3 && todoItemIdCounter == 1
      ensures issuedListIds == {1, 2} && issuedItemIds == {}
    {
      todoLists := [];
      todoItems := [];
      todoListIdCounter := 1;
      todoItemIdCounter := 1;
      issuedListIds := {};
      issuedItemIds := {};
      new;
      SeedData(now);
    }

    /**
     * Runs once, from the constructor, on the empty store: creates the two
     * seed lists and adds them, so that they take list ids 1 and 2.
     */
    method SeedData(now: DateTime)
      requires todoLists == [] && todoItems == [] && todoListIdCounter == 1 && todoItemIdCounter == 1
      requires issuedListIds == {} && issuedItemIds == {}
      modifies this
      ensures Valid()
      ensures |todoLists| == 2 && todoItems == []
      ensures todoLists[0].Record() == ListRecord(EntityState(1, now, None, [TodoListCreated(0, "Personal Tasks", now)]),
        "Personal Tasks", Some("My personal todo items"), false, [])
      ensures todoLists[1].Record() == ListRecord(EntityState(2, now, None, [TodoListCreated(0, "Work Tasks", now)]),
        "Work Tasks", Some("Work-related todo items"), false, [])
      ensures todoListIdCounter == 3 && todoItemIdCounter == 1
      ensures issuedListIds == {1, 2} && issuedItemIds == {}
    {
      SeedNamesPass();
      var p := AddSeedList("Personal Tasks", "My personal todo items", now);
      var w := AddSeedList("Work Tasks", "Work-related todo items", now);
    }

    /** One step of `SeedData`: create a list whose name passes the guards, and add it. */
    method AddSeedList(name: string, description: string, now: DateTime) returns (l: TodoList)
      requires Valid() && CheckName(Some(name)) == Pass
      modifies this
      ensures Valid()
      ensures fresh(l) && fresh(l.base)
      ensures l.Record() == ListRecord(EntityState(old(todoListIdCounter), now, None, [TodoListCreated(0, name, now)]),
        name, Some(description), false, [])
      ensures todoLists == old(todoLists) + [l]
      ensures todoListIdCounter == old(todoListIdCounter) + 1
      ensures issuedListIds == old(issuedListIds) + {old(todoListIdCounter)}
      ensures todoItems == old(todoItems) && todoItemIdCounter == old(todoItemIdCounter)
      ensures issuedItemIds == old(issuedItemIds)
    {
      var created := TodoList.Create(Some(name), Some(description), now);
      l := created.value;
      AddList(l);
    }

    /** `SaveChangesAsync`: the in-memory store has nothing to flush and always reports 1. */
    method SaveChanges() returns (r: int)
      ensures r == 1
    {
      r := 1;
    }

    /**
     * `Add<T>`: a list or an item takes its collection's counter as its Id,
     * the counter moves on by one and the entity is appended; the other
     * collection is untouched, and an entity of another class is ignored.
     * The new Id was never issued before, so ids are never reused.
     */
    method Add(e: Entity)
      requires Valid() && NotStored(e)
      modifies this, e.Bases()
      ensures Valid()
      ensures e.ListEntity? ==>
        && e.list.base.State() == old(e.list.base.State()).(id := old(todoListIdCounter))
        && todoLists == old(todoLists) + [e.list]
        && todoListIdCounter == old(todoListIdCounter) + 1
        && old(todoListIdCounter) !in old(issuedListIds)
        && issuedListIds == old(issuedListIds) + {old(todoListIdCounter)}
        && todoItems == old(todoItems) && todoItemIdCounter == old(todoItemIdCounter) && issuedItemIds == old(issuedItemIds)
      ensures e.ItemEntity? ==>
        && e.item.base.State() == old(e.item.base.State()).(id := old(todoItemIdCounter))
        && todoItems == old(todoItems) + [e.item]
        && todoItemIdCounter == old(todoItemIdCounter) + 1
        && old(todoItemIdCounter) !in old(issuedItemIds)
        && issuedItemIds == old(issuedItemIds) + {old(todoItemIdCounter)}
        && todoLists == old(todoLists) && todoListIdCounter == old(todoListIdCounter) && issuedListIds == old(issuedListIds)
      ensures e.OtherEntity? ==> unchanged(this)
    {
      match e
      case ListEntity(l) => AddList(l);
      case ItemEntity(t) => AddItem(t);
      case OtherEntity =>
    }

    /** The `TodoList` branch of `Add`. */
    method AddList(l: TodoList)
      requires Valid() && NotStored(ListEntity(l))
      modifies this`todoLists, this`todoListIdCounter, this`issuedListIds, l.base`id
      ensures Valid()
      ensures l.base.id == old(todoListIdCounter)
      ensures todoLists == old(todoLists) + [l]
      ensures todoListIdCounter == old(todoListIdCounter) + 1
      ensures old(todoListIdCounter) !in old(issuedListIds)
      ensures issuedListIds == old(issuedListIds) + {old(todoListIdCounter)}
    {
      ghost var lists, issued, counter := todoLists, issuedListIds, todoListIdCounter;
      l.base.id := todoListIdCounter;
      issuedListIds := issuedListIds + {todoListIdCounter};
      todoListIdCounter := todoListIdCounter + 1;
      todoLists := todoLists + [l];
      assert ListsWellFormed(lists, issued, counter);
      AppendListWellFormed(lists, issued, counter, l);
    }

    /** The `TodoItem` branch of `Add`. */
    method AddItem(t: TodoItem)
      requires Valid() && NotStored(ItemEntity(t))
      modifies this`todoItems, this`todoItemIdCounter, this`issuedItemIds, t.base`id
      ensures Valid()
      ensures t.base.id == old(todoItemIdCounter)
      ensures todoItems == old(todoItems) + [t]
      ensures todoItemIdCounter == old(todoItemIdCounter) + 1
      ensures old(todoItemIdCounter) !in old(issuedItemIds)
      ensures issuedItemIds == old(issuedItemIds) + {old(todoItemIdCounter)}
    {
      ghost var items, issued, counter := todoItems, issuedItemIds, todoItemIdCounter;
      t.base.id := todoItemIdCounter;
      issuedItemIds := issuedItemIds + {todoItemIdCounter};
      todoItemIdCounter := todoItemIdCounter + 1;
      todoItems := todoItems + [t];
      assert ItemsWellFormed(items, issued, counter);
      AppendItemWellFormed(items, issued, counter, t);
    }

    /** `Update<T>`: the in-memory store already sees every change, so nothing happens. */
    method Update(e: Entity)
      requires Valid()
      ensures Valid()
    {
    }

    /**
     * `Remove<T>`: drops the first occurrence from the matching collection
     * only; an absent entity or one of another class changes nothing. The
     * counters and issued ids stay as they are.
     */
    method Remove(e: Entity)
      requires Valid()
      modifies this`todoLists, this`todoItems
      ensures Valid()
      ensures todoLists == if e.ListEntity? then RemoveFirst(old(todoLists), e.list) else old(todoLists)
      ensures todoItems == if e.ItemEntity? then RemoveFirst(old(todoItems), e.item) else old(todoItems)
      ensures e.ListEntity? && e.list !in old(todoLists) ==> todoLists == old(todoLists)
      ensures e.ItemEntity? && e.item !in old(todoItems) ==> todoItems == old(todoItems)
      ensures e.ListEntity? && e.list in old(todoLists) ==>
        forall i :: 0 <= i < |todoLists| ==> todoLists[i].base.id != e.list.base.id
      ensures e.ItemEntity? && e.item in old(todoItems) ==>
        forall i :: 0 <= i < |todoItems| ==> todoItems[i].base.id != e.item.base.id
    {
      match e
      case ListEntity(l) => RemoveList(l);
      case ItemEntity(t) => RemoveItem(t);
      case OtherEntity =>
    }

    /** The `TodoList` branch of `Remove`. */
    method RemoveList(l: TodoList)
      requires Valid()
      modifies this`todoLists
      ensures Valid()
      ensures todoLists == RemoveFirst(old(todoLists), l)
      ensures l !in old(todoLists) ==> todoLists == old(todoLists)
      ensures l in old(todoLists) ==> forall i :: 0 <= i < |todoLists| ==> todoLists[i].base.id != l.base.id
    {
      ghost var lists := todoLists;
      todoLists := RemoveFirst(todoLists, l);
      assert ListsWellFormed(lists, issuedListIds, todoListIdCounter);
      RemoveListWellFormed(lists, issuedListIds, todoListIdCounter, l);
      RemoveListDisjoint(lists, todoItems, l);
      if l in lists { RemoveStoredList(lists, l); }
    }

    /** The `TodoItem` branch of `Remove`. */
    method RemoveItem(t: TodoItem)
      requires Valid()
      modifies this`todoItems
      ensures Valid()
      ensures todoItems == RemoveFirst(old(todoItems), t)
      ensures t !in old(todoItems) ==> todoItems == old(todoItems)
      ensures t in old(todoItems) ==> forall i :: 0 <= i < |todoItems| ==> todoItems[i].base.id != t.base.id
    {
      ghost var items := todoItems;
      todoItems := RemoveFirst(todoItems, t);
      assert ItemsWellFormed(items, issuedItemIds, todoItemIdCounter);
      RemoveItemWellFormed(items, issuedItemIds, todoItemIdCounter, t);
      RemoveItemDisjoint(todoLists, items, t);
      if t in items { RemoveStoredItem(items, t); }
    }
  }
}
