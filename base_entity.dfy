/**
 * `BaseEntity<int>`: the identity, timestamps and pending domain events
 * that every entity carries. Entities hold their `BaseEntity` as a field
 * (Dafny has no class inheritance), so "the entity's Id" is `e.base.id`.
 */
module DomainCommon {
  import opened Wrappers
  import opened Dates
  import Sequences

  /**
   * The domain events the entities raise. `occurredOn` is the clock reading
   * taken when the event object is built.
   */
  datatype DomainEvent =
    | TodoListCreated(todoListId: int, name: string, occurredOn: DateTime)
    | TodoListUpdated(todoListId: int, name: string, occurredOn: DateTime)
    | TodoListArchived(todoListId: int, name: string, occurredOn: DateTime)
    | TodoListRestored(todoListId: int, name: string, occurredOn: DateTime)

  /** The observable state of a `BaseEntity`. */
  datatype EntityState = EntityState(
    id: int,
    createdAt: DateTime,
    updatedAt: Option<DateTime>,
    domainEvents: seq<DomainEvent>)

  class BaseEntity {
    var id: int
    var createdAt: DateTime
    var updatedAt: Option<DateTime>
    /** The `_domainEvents` list; the read-only `DomainEvents` view shows exactly this sequence. */
    var domainEvents: seq<DomainEvent>

    function State(): EntityState
      reads this
    {
      EntityState(id, createdAt, updatedAt, domainEvents)
    }

    /** The parameterless constructor: Id is `default(int)`, CreatedAt is the clock reading. */
    constructor (now: DateTime)
      ensures State() == EntityState(0, now, None, [])
    {
      id := 0;
      createdAt := now;
      updatedAt := None;
      domainEvents := [];
    }

    /** The constructor taking an explicit Id. */
    constructor WithId(id: int, now: DateTime)
      ensures State() == EntityState(id, now, None, [])
    {
      this.id := id;
      createdAt := now;
      updatedAt := None;
      domainEvents := [];
    }

    /** Stamps UpdatedAt with the clock reading; nothing else may change. */
    method SetUpdatedAt(now: DateTime)
      modifies this`updatedAt
      ensures State() == old(State()).(updatedAt := Some(now))
    {
      updatedAt := Some(now);
    }

    /** Appends one event after the existing ones. */
    method AddDomainEvent(e: DomainEvent)
      modifies this`domainEvents
      ensures State() == old(State()).(domainEvents := old(domainEvents) + [e])
      ensures |domainEvents| == |old(domainEvents)| + 1 && domainEvents[|domainEvents| - 1] == e
    {
      domainEvents := domainEvents + [e];
    }

    /** Removes the first event equal to `e`; an absent event leaves the list as it was. */
    method RemoveDomainEvent(e: DomainEvent)
      modifies this`domainEvents
      ensures State() == old(State()).(domainEvents := Sequences.RemoveFirst(old(domainEvents), e))
      ensures e !in old(domainEvents) ==> domainEvents == old(domainEvents)
    {
      domainEvents := Sequences.RemoveFirst(domainEvents, e);
    }

    method ClearDomainEvents()
      modifies this`domainEvents
      ensures State() == old(State()).(domainEvents := [])
    {
      domainEvents := [];
    }
  }
}
