/**
 * `TodoItemCreateRequestValidator`: the per-field rules on a create request,
 * modelled as the list of failure messages the rule set produces. Every rule
 * of a chain runs (the default cascade mode), so one field can contribute
 * several messages; the request is valid exactly when the list is empty.
 */
module Validators {
  import opened Wrappers
  import opened Dates
  import opened Errors
  import opened Text
  import opened TodoItems
  import ValueObjects

  /** The create request: Title, Description, Priority (Medium unless set) and DueDate. */
  datatype CreateRequest = CreateRequest(
    title: Option<string>,
    description: Option<string>,
    priority: Priority,
    dueDate: Option<DateTime>)

  const TitleRequired := "Title is required"
  const TitleLength := "Title must be between 1 and 200 characters"
  const TitleCharacters := "Title contains invalid characters"
  const DescriptionTooLong := "Description cannot exceed 1000 characters"
  const InvalidPriority := "Invalid priority value. Must be Low, Medium, High, or Critical"
  const InvalidDate := "Invalid date format"

  const MinTitleLength: nat := 1
  const MaxTitleLength: nat := 200

  /** One character of the class `[a-zA-Z0-9\s\-_.,!?()]`. */
  predicate TitleChar(c: char) {
    || ('a' <= c <= 'z')
    || ('A' <= c <= 'Z')
    || ('0' <= c <= '9')
    || IsWhiteSpace(c)
    || c in "-_.,!?()"
  }

  /** The pattern `^[a-zA-Z0-9\s\-_.,!?()]+$`: one or more characters, all of the class. */
  predicate MatchesTitlePattern(s: string) {
    |s| >= 1 && forall i :: 0 <= i < |s| ==> TitleChar(s[i])
  }

  /**
   * The title chain: `NotEmpty` (null, empty or white space fails), then
   * `Length(1, 200)` and `Matches`, both of which let null through.
   */
  function TitleErrors(title: Option<string>): (r: seq<string>)
    ensures |r| <= 3
    ensures TitleRequired in r <==> IsNullOrWhiteSpace(title)
    ensures TitleLength in r <==> title.Some? && !(MinTitleLength <= |title.value| <= MaxTitleLength)
    ensures TitleCharacters in r <==> title.Some? && !MatchesTitlePattern(title.value)
    ensures r == [] <==>
      title.Some? && !AllWhiteSpace(title.value) && |title.value| <= MaxTitleLength && MatchesTitlePattern(title.value)
  {
    (if IsNullOrWhiteSpace(title) then [TitleRequired] else [])
    + (if title.Some? && !(MinTitleLength <= |title.value| <= MaxTitleLength) then [TitleLength] else [])
    + (if title.Some? && !MatchesTitlePattern(title.value) then [TitleCharacters] else [])
  }

  /** `MaximumLength(1000)`, applied only when the description is neither null nor empty. */
  function DescriptionErrors(description: Option<string>): (r: seq<string>)
    ensures r == [] || r == [DescriptionTooLong]
    ensures r == [] <==> IsNullOrEmpty(description) || |description.value| <= ValueObjects.MaxDescriptionLength
  {
    if !IsNullOrEmpty(description) && |description.value| > ValueObjects.MaxDescriptionLength then [DescriptionTooLong] else []
  }

  /** `IsInEnum`: the value must name one of Low, Medium, High, Critical. */
  function PriorityErrors(priority: Priority): (r: seq<string>)
    ensures r == [] || r == [InvalidPriority]
    ensures r == [] <==> priority in {Low, Medium, High, Critical}
    ensures r == [] <==> !priority.Other?
  {
    if priority.Other? then [InvalidPriority] else []
  }

  /**
   * `BeValidDate`: an absent date, or one strictly later than
   * `DateTime.MinValue`. Nothing is earlier than `MinValue`, so this rejects
   * `MinValue` alone.
   */
  predicate BeValidDate(date: Option<DateTime>)
    ensures BeValidDate(date) <==> date.None? || date.value != MinValue
  {
    date.None? || Before(MinValue, date.value)
  }

  /** `Must(BeValidDate)`, applied only when a due date is present. */
  function DueDateErrors(dueDate: Option<DateTime>): (r: seq<string>)
    ensures r == [] || r == [InvalidDate]
    ensures r == [] <==> dueDate.None? || dueDate.value != MinValue
  {
    if dueDate.Some? && !BeValidDate(dueDate) then [InvalidDate] else []
  }

  /** Every failure message, in rule order: title, description, priority, due date. */
  function FailureMessages(request: CreateRequest): (r: seq<string>)
    ensures |r| <= 6
    ensures r == [] <==>
      && TitleErrors(request.title) == []
      && DescriptionErrors(request.description) == []
      && PriorityErrors(request.priority) == []
      && DueDateErrors(request.dueDate) == []
  {
    TitleErrors(request.title) + DescriptionErrors(request.description)
    + PriorityErrors(request.priority) + DueDateErrors(request.dueDate)
  }

  /**
   * The validator's verdict: the request is accepted exactly when it yields
   * no failure message, that is, when every field passes its rules.
   */
  predicate IsValid(request: CreateRequest)
    ensures IsValid(request) <==>
      && request.title.Some? && !AllWhiteSpace(request.title.value)
      && |request.title.value| <= MaxTitleLength && MatchesTitlePattern(request.title.value)
      && (IsNullOrEmpty(request.description) || |request.description.value| <= ValueObjects.MaxDescriptionLength)
      && !request.priority.Other?
      && (request.dueDate.None? || request.dueDate.value != MinValue)
  {
    FailureMessages(request) == []
  }

  /** A request that sets only an acceptable title, leaving the other fields at their defaults, passes. */
  lemma TitleOnlyPasses(title: string)
    requires !AllWhiteSpace(title) && |title| <= MaxTitleLength && MatchesTitlePattern(title)
    ensures IsValid(CreateRequest(Some(title), None, Medium, None))
  {
  }

  /** A title the validator accepts also passes the entity's own title rule. */
  lemma AcceptedTitlePassesDomainRule(request: CreateRequest, today: nat)
    requires IsValid(request)
    ensures CheckRules(request.title, request.priority, request.dueDate, today) !=
      Fail(DomainException(PlainDomain, TodoItems.TitleRequired))
  {
  }

  /**
   * The validator does not do the entity's date checks: a request it
   * accepts can still be refused by `TodoItem.Create` for a past due date.
   */
  lemma ValidatorAdmitsPastDueDate()
    ensures var request := CreateRequest(Some("Pay rent"), None, Medium, Some(DateTime(0, 1)));
      IsValid(request) && CheckRules(request.title, request.priority, request.dueDate, 1) ==
        Fail(DomainException(PlainDomain, TodoItems.DueDateInPast))
  {
    var title := "Pay rent";
    assert TitleErrors(Some(title)) == [] by {
      assert MatchesTitlePattern(title) by {
        assert forall i :: 0 <= i < |title| ==> TitleChar(title[i]);
      }
      assert !IsWhiteSpace(title[0]);
    }
  }
}
