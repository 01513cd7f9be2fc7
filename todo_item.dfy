/**
 * The `TodoItem` entity: a titled record whose creation and updates are
 * guarded by three ordered business rules, with a two-state completion
 * machine (`IsCompleted`).
 */
module TodoItems {
  import opened Wrappers
  import opened Dates
  import opened Text
  import opened Errors
  import opened DomainCommon

  /**
   * The `Priority` enum. A C# enum variable can hold any integer; `Other`
   * stands for a value that names none of the declared members.
   */
  datatype Priority = Low | Medium | High | Critical | Other(code: int)

  const TitleRequired: string := "Todo item must have a title"
  const DueDateInPast: string := "Due date cannot be in the past"
  const CriticalTooFar: string := "Critical priority items cannot have due dates more than 30 days out"
  const AlreadyCompleted: string := "Todo item is already completed"
  const NotCompleted: string := "Todo item is not completed"

  /** How many days ahead a Critical item may be due. */
  const CriticalHorizonDays: nat := 30

  /**
   * The guards shared by `Create` and `Update`, in their order: a title that
   * is not null or white space; a due date whose calendar day is not before
   * today; for Critical items, a due timestamp not later than midnight
   * `CriticalHorizonDays` days from today. The first failing guard decides the
   * error. The contract restates the rules on day numbers: the past check
   * ignores the time of day, while the Critical check rejects the last
   * allowed day at any time after midnight.
   */
  function CheckRules(title: Option<string>, priority: Priority, dueDate: Option<DateTime>, today: nat): (r: Outcome<Exception>)
    ensures r == Fail(DomainException(PlainDomain, TitleRequired)) <==> IsNullOrWhiteSpace(title)
    ensures r == Fail(DomainException(PlainDomain, DueDateInPast)) <==>
      !IsNullOrWhiteSpace(title) && dueDate.Some? && dueDate.value.day < today
    ensures r == Fail(DomainException(PlainDomain, CriticalTooFar)) <==>
      && !IsNullOrWhiteSpace(title) && priority == Critical && dueDate.Some? && today <= dueDate.value.day
      && (dueDate.value.day > today + 30 || (dueDate.value.day == today + 30 && dueDate.value.time > 0))
    ensures r.Pass? <==>
      && !IsNullOrWhiteSpace(title)
      && (dueDate.Some? ==> today <= dueDate.value.day)
      && (priority == Critical && dueDate.Some? ==>
            dueDate.value.day < today + 30 || dueDate.value == Midnight(today + 30))
  {
    if IsNullOrWhiteSpace(title) then
      Fail(DomainException(PlainDomain, TitleRequired))
    else if dueDate.Some? && Before(DateOf(dueDate.value), Midnight(today)) then
      Fail(DomainException(PlainDomain, DueDateInPast))
    else if priority == Critical && dueDate.Some? && Before(AddDays(Midnight(today), CriticalHorizonDays), dueDate.value) then
      Fail(DomainException(PlainDomain, CriticalTooFar))
    else
      Pass
  }

  /** Everything observable about a `TodoItem`. */
  datatype ItemRecord = ItemRecord(
    entity: EntityState,
    title: string,
    description: Option<string>,
    priority: Priority,
    isCompleted: bool,
    dueDate: Option<DateTime>)

  class TodoItem {
    const base: BaseEntity
    var title: string
    var description: Option<string>
    var priority: Priority
    var isCompleted: bool
    var dueDate: Option<DateTime>

    /** The invariant the public operations keep: the item has a title. */
    ghost predicate Valid()
      reads this
    {
      !AllWhiteSpace(title)
    }

    function Record(): ItemRecord
      reads this, base
    {
      ItemRecord(base.State(), title, description, priority, isCompleted, dueDate)
    }

    /** The private constructor that `Create` calls once the guards have passed. */
    constructor (title: string, description: Option<string>, priority: Priority, dueDate: Option<DateTime>, now: DateTime)
      ensures fresh(base)
      ensures Record() == ItemRecord(EntityState(0, now, None, []), title, description, priority, false, dueDate)
    {
      base := new BaseEntity(now);
      this.title := title;
      this.description := description;
      this.priority := priority;
      isCompleted := false;
      this.dueDate := dueDate;
    }

    /**
     * The factory. On success the item holds exactly the given fields, is not
     * completed, has never been updated and has no Id yet (the store assigns
     * one); otherwise it reports the first rule that fails.
     */
    static method Create(title: Option<string>, description: Option<string> := None, priority: Priority := Medium,
                         dueDate: Option<DateTime> := None, today: nat, now: DateTime)
      returns (r: Result<TodoItem, Exception>)
      ensures r.Failure? <==> CheckRules(title, priority, dueDate, today).Fail?
      ensures r.Failure? ==> CheckRules(title, priority, dueDate, today) == Fail(r.error)
      ensures r.Success? ==> fresh(r.value) && fresh(r.value.base) && r.value.Valid()
      ensures r.Success? ==>
        r.value.Record() == ItemRecord(EntityState(0, now, None, []), title.value, description, priority, false, dueDate)
    {
      var check := CheckRules(title, priority, dueDate, today);
      if check.Fail? {
        return Failure(check.error);
      }
      var item := new TodoItem(title.value, description, priority, dueDate, now);
      r := Success(item);
    }

    /**
     * Replaces the four editable fields and stamps UpdatedAt, under the same
     * guards as `Create`; a failing guard leaves the item untouched.
     * IsCompleted, Id and CreatedAt never change here.
     */
    method Update(title: Option<string>, description: Option<string>, priority: Priority, dueDate: Option<DateTime>,
                  today: nat, now: DateTime)
      returns (outcome: Outcome<Exception>)
      modifies this`title, this`description, this`priority, this`dueDate, base`updatedAt
      ensures outcome == CheckRules(title, priority, dueDate, today)
      ensures outcome.Fail? ==> Record() == old(Record())
      ensures outcome.Pass? ==> Record() == old(Record()).(
        entity := old(base.State()).(updatedAt := Some(now)),
        title := title.value, description := description, priority := priority, dueDate := dueDate)
      ensures outcome.Pass? ==> Valid()
      ensures old(Valid()) ==> Valid()
    {
      outcome := CheckRules(title, priority, dueDate, today);
      if outcome.Fail? {
        return;
      }
      this.title := title.value;
      this.description := description;
      this.priority := priority;
      this.dueDate := dueDate;
      base.SetUpdatedAt(now);
    }

    /** Marks a pending item completed; an item already completed is refused and left as it was. */
    method Complete(now: DateTime) returns (outcome: Outcome<Exception>)
      modifies this`isCompleted, base`updatedAt
      ensures old(isCompleted) ==> outcome == Fail(DomainException(PlainDomain, AlreadyCompleted)) && Record() == old(Record())
      ensures !old(isCompleted) ==> outcome == Pass && Record() == old(Record()).(
        entity := old(base.State()).(updatedAt := Some(now)), isCompleted := true)
    {
      if isCompleted {
        return Fail(DomainException(PlainDomain, AlreadyCompleted));
      }
      isCompleted := true;
      base.SetUpdatedAt(now);
      outcome := Pass;
    }

    /** Marks a completed item pending again; a pending item is refused and left as it was. */
    method Reopen(now: DateTime) returns (outcome: Outcome<Exception>)
      modifies this`isCompleted, base`updatedAt
      ensures !old(isCompleted) ==> outcome == Fail(DomainException(PlainDomain, NotCompleted)) && Record() == old(Record())
      ensures old(isCompleted) ==> outcome == Pass && Record() == old(Record()).(
        entity := old(base.State()).(updatedAt := Some(now)), isCompleted := false)
    {
      if !isCompleted {
        return Fail(DomainException(PlainDomain, NotCompleted));
      }
      isCompleted := false;
      base.SetUpdatedAt(now);
      outcome := Pass;
    }
  }

  /**
   * Completing and then reopening a pending item brings it back to where it
   * was, except for UpdatedAt, which holds the second clock reading.
   */
  method CompleteThenReopen(item: TodoItem, completedAt: DateTime, reopenedAt: DateTime)
    requires !item.isCompleted
    modifies item, item.base
    ensures item.Record() == old(item.Record()).(entity := old(item.base.State()).(updatedAt := Some(reopenedAt)))
  {
    var first := item.Complete(completedAt);
    assert first == Pass;
    var second := item.Reopen(reopenedAt);
    assert second == Pass;
  }
}
