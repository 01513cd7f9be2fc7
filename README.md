# Todo service business rules, in Dafny

This project models the core of a small layered todo service written in C#.
It proves properties of that model. The model covers these layers:

- **Entities.**
  - `TodoItem` has a title, a description, a priority and a due date, all behind three ordered guards. It also has a two-state completed/pending flag.
  - `TodoList` has a name guard, an archive flag and an item list with derived counts.
  - Both share `BaseEntity`, which holds the Id, the creation and update stamps and the domain-event list.
- **Value object.** `Description` is a normalise-and-check function.
- **Store.** `ApplicationDbContext` is an in-memory store. It keeps two collections and two auto-increment id counters, and is seeded with two lists.
- **Services.** Two repositories and the item command service run over the store.
- **API layer.**
  - The request validator is modelled as a list of failure messages.
  - The exception middleware maps an exception to a problem-details body and a status code. The body has the title/status/detail/type/instance shape of section 3.1 of RFC 7807. The statuses are those of sections 6.5.1, 6.5.4 and 6.6.1 of RFC 7231.

Modelling choices:

- **Classes.** Objects the C# code updates in place are Dafny classes: `BaseEntity`, `TodoItem`, `TodoList`, the store, the repositories, the command service and the HTTP response.
  - Dafny has no inheritance. `TodoItem` and `TodoList` therefore each hold their `BaseEntity` as a `const base`, and an entity's Id is `base.id`.
  - The entity classes `BaseEntity`, `TodoItem` and `TodoList` have field-level `modifies` frames. Each also has a `State()` or `Record()` snapshot, and every entity method's `ensures` gives the whole new snapshot in terms of the old one. So "nothing else changes" is part of its contract.
  - The store, the repositories, the command service and the HTTP response have no snapshot. Their methods state each field they change, one by one. What they leave alone follows from their `modifies` frames:
    - the store's `AddList`, `AddItem`, `RemoveList` and `RemoveItem` name single fields;
    - `SeedData`, `AddSeedList`, `Add`, the repositories' `Add`, `CreateTodoItem`, `HandleException` and `CompleteThenReopen` name whole objects.
- **Exceptions.** C# throws; the model returns an error value instead.
  - A guard that throws and otherwise changes state returns an `Outcome` (`Pass` or `Fail(e)`).
  - A factory returns a `Result`.
  - Exceptions are a datatype with one constructor per .NET family. A subclass (`TodoItemException`, `ArgumentNullException`, …) is an origin tag inside its family.
  - `Message` appends .NET's ` (Parameter 'name')` suffix to argument exceptions.
- **Clock.** The clock is a parameter.
  - `now` is a `DateTime`, written as a day number plus the ticks since midnight.
  - `today` is the day number of `DateTime.Today`.
  - The past-due check compares calendar days (`dueDate.Value.Date`). The Critical check compares the full timestamp with midnight 30 days on. `TodoItems.CheckRules` states both exactly.
- **Strings.** Strings are `seq<char>`. White space is the .NET `char.IsWhiteSpace` set, which is also the set that regex `\s` matches in .NET.
- **Store invariant.** `ApplicationDbContext.Valid()` holds for each collection, and every store operation keeps it:
  - ids strictly increase in insertion order, so they are distinct;
  - every stored id was issued by that collection's counter, and every issued id lies below the counter;
  - a ghost set of issued ids records every id ever handed out, so the invariant also says that ids are never reused after a removal;
  - no list shares its base entity with an item.

Where the code and its own declarations disagree, the model follows the code:

- **Status lifecycle.** The `TodoItemStatus` enum (src/Core/CleanArchitecture.Domain/Enums/TodoItemStatus.cs) names Pending/InProgress/Completed/Cancelled, but no code moves an item through those states. Only the boolean `IsCompleted` machine exists, and that is what is modelled.
- **Seeded items.** The integration tests read an "existing" item from a fresh service. The store's seed adds only the two lists and no items, and `Persistence.ApplicationDbContext.constructor` states exactly that.
- **Unknown id on update.** The command service reports this with `InvalidOperationException`. The middleware (registered at src/CleanArchitecture.API/Program.cs:77) has no arm for that exception, so if it reached the middleware it would become the generic 500, not a 404 (`Middleware.UnknownItemIsServerError`). No endpoint of `TodoItemsController` calls the update, so no client reaches this path today.

## Model

| member | source | states |
|---|---|---|
| `Text.Trim` | src/Core/CleanArchitecture.Domain/ValueObjects/Description.cs:22 | `string.Trim`: the result is never longer than the input, and neither starts nor ends with white space |
| `Text.TrimPiece` | src/Core/CleanArchitecture.Domain/ValueObjects/Description.cs:22 | `Trim(s)` is the slice of `s` that starts at the trim offset, and only white space lies before and after it |
| `Text.TrimEmptyIff` | src/Core/CleanArchitecture.Domain/ValueObjects/Description.cs:16-22 | trimming gives the empty string exactly when the input is all white space |
| `Text.TrimIdempotent` | src/Core/CleanArchitecture.Domain/ValueObjects/Description.cs:22 | trimming twice is trimming once |
| `Text.TrimStart` | src/Core/CleanArchitecture.Domain/ValueObjects/Description.cs:22 | the result is a suffix of the input, the dropped prefix is all white space, and the result does not start with white space |
| `Text.TrimEnd` | src/Core/CleanArchitecture.Domain/ValueObjects/Description.cs:22 | the result is a prefix of the input, the dropped suffix is all white space, and the result does not end with white space |
| `Text.NatToString` | src/Core/CleanArchitecture.Application/Commands/TodoItemCommandService.cs:26 | decimal digits that read back as the number, with no leading zero unless the number is 0 |
| `Text.IntToString` | src/Core/CleanArchitecture.Application/Commands/TodoItemCommandService.cs:26 | `int.ToString()`: a minus sign exactly for a negative number, then digits that read back as its magnitude, with no leading zero (the shortest form) |
| `Text.IntToStringInjective` | src/Core/CleanArchitecture.Application/Commands/TodoItemCommandService.cs:26 | different numbers print as different texts |
| `Errors.Message` | src/CleanArchitecture.API/Middleware/ExceptionHandlingMiddleware.cs:42-49 | `Exception.Message`: the own message for every family except arguments. An argument exception's message starts with its text, and gets the suffix ` (Parameter 'name')` exactly when a non-empty parameter name was given, as for the one `Description.Create` throws (src/Core/CleanArchitecture.Domain/ValueObjects/Description.cs:20) |
| `Sequences.FirstIndex` | src/Core/CleanArchitecture.Domain/Common/BaseEntity.cs:35 | `IndexOf`: the index of the first element equal to `x`, which is below the length exactly when `x` occurs, and the length otherwise |
| `Sequences.RemoveAt` | src/Core/CleanArchitecture.Domain/Common/BaseEntity.cs:35 | removing index `k` shortens by one, keeps the elements before `k` and shifts those after it down by one |
| `Sequences.RemoveFirst` | src/Core/CleanArchitecture.Domain/Common/BaseEntity.cs:35 | `List.Remove`: an absent `x` changes nothing; otherwise one element goes, those before the first `x` stay put, and those after it move down by one |
| `Sequences.RemoveFirstMultiset` | src/Core/CleanArchitecture.Domain/Common/BaseEntity.cs:35 | removal takes away exactly one copy of `x` when there is one, and no other element |
| `DomainCommon.BaseEntity.constructor` | src/Core/CleanArchitecture.Domain/Common/BaseEntity.cs:11-14 | a new entity has Id 0, CreatedAt = the clock reading, no UpdatedAt and no events |
| `DomainCommon.BaseEntity.WithId` | src/Core/CleanArchitecture.Domain/Common/BaseEntity.cs:16-19 | the same, with the given Id |
| `DomainCommon.BaseEntity.SetUpdatedAt` | src/Core/CleanArchitecture.Domain/Common/BaseEntity.cs:21-24 | only UpdatedAt changes, to the clock reading |
| `DomainCommon.BaseEntity.AddDomainEvent` | src/Core/CleanArchitecture.Domain/Common/BaseEntity.cs:28-31 | exactly one event is appended after the existing ones; nothing else changes |
| `DomainCommon.BaseEntity.RemoveDomainEvent` | src/Core/CleanArchitecture.Domain/Common/BaseEntity.cs:33-36 | the first equal event is removed, an absent event changes nothing, and no other field changes |
| `DomainCommon.BaseEntity.ClearDomainEvents` | src/Core/CleanArchitecture.Domain/Common/BaseEntity.cs:38-41 | the event list becomes empty; nothing else changes |
| `TodoItems.CheckRules` | src/Core/CleanArchitecture.Domain/Entities/TodoItem.cs:33-42 | each of the three errors happens exactly when: the title is blank; or the title is not blank and the due day is before today; or, failing both, the item is Critical and due after midnight 30 days on. The check passes exactly when all three rules hold |
| `TodoItems.TodoItem.constructor` | src/Core/CleanArchitecture.Domain/Entities/TodoItem.cs:19-26 | the new item holds the given fields, is not completed, and has a fresh base with Id 0 |
| `TodoItems.TodoItem.Create` | src/Core/CleanArchitecture.Domain/Entities/TodoItem.cs:28-45 | fails exactly when `CheckRules` fails, with its error. On success the new item holds exactly the given fields, is pending, has no UpdatedAt and has a title |
| `TodoItems.TodoItem.Update` | src/Core/CleanArchitecture.Domain/Entities/TodoItem.cs:47-64 | the outcome is `CheckRules`. On failure nothing changes. On success the four fields are replaced and UpdatedAt is stamped, while IsCompleted, Id, CreatedAt and the events stay. The title invariant is kept |
| `TodoItems.TodoItem.Complete` | src/Core/CleanArchitecture.Domain/Entities/TodoItem.cs:66-73 | a completed item is refused with "already completed" and left as it was. Otherwise it becomes completed and only UpdatedAt also changes |
| `TodoItems.TodoItem.Reopen` | src/Core/CleanArchitecture.Domain/Entities/TodoItem.cs:75-82 | a pending item is refused with "not completed" and left as it was. Otherwise it becomes pending and only UpdatedAt also changes |
| `TodoItems.CompleteThenReopen` | src/Core/CleanArchitecture.Domain/Entities/TodoItem.cs:66-82 | completing then reopening a pending item restores every field except UpdatedAt |
| `TodoLists.CheckName` | src/Core/CleanArchitecture.Domain/Entities/TodoList.cs:35-39 | "cannot be empty" exactly for a blank name, "cannot exceed 100" exactly for a non-blank name over 100, and passes otherwise |
| `TodoLists.CountCompleted` | src/Core/CleanArchitecture.Domain/Entities/TodoList.cs:17 | at most the number of items; equal to it exactly when all are completed; 0 exactly when none is |
| `TodoLists.CountCompletedConcat` | src/Core/CleanArchitecture.Domain/Entities/TodoList.cs:17 | the count over a concatenation is the sum of the counts |
| `TodoLists.CountCompletedRemoveFirst` | src/Core/CleanArchitecture.Domain/Entities/TodoList.cs:86 | removing an item lowers the count by one exactly when the item was present and completed |
| `TodoLists.PercentageBounds` | src/Core/CleanArchitecture.Domain/Entities/TodoList.cs:20 | a share of at most `total` completed items out of `total`, scaled to 100, lies between 0 and 100 and scales back to the count |
| `TodoLists.TodoList.TotalItems` | src/Core/CleanArchitecture.Domain/Entities/TodoList.cs:16 | the number of items the list holds, completed or not |
| `TodoLists.TodoList.CompletedItems` | src/Core/CleanArchitecture.Domain/Entities/TodoList.cs:17 | `0 <= CompletedItems <= TotalItems` |
| `TodoLists.TodoList.CompletionPercentage` | src/Core/CleanArchitecture.Domain/Entities/TodoList.cs:20 | between 0 and 100; 0 for an empty list; otherwise `r * TotalItems == CompletedItems * 100` |
| `TodoLists.TodoList.constructor` | src/Core/CleanArchitecture.Domain/Entities/TodoList.cs:24-31 | a new list is unarchived and empty, and holds exactly one creation event carrying Id 0 and the name |
| `TodoLists.TodoList.Create` | src/Core/CleanArchitecture.Domain/Entities/TodoList.cs:33-42 | fails exactly when `CheckName` fails, with its error; otherwise the new list is as the constructor states |
| `TodoLists.TodoList.Update` | src/Core/CleanArchitecture.Domain/Entities/TodoList.cs:44-57 | the outcome is `CheckName`. A rejection changes nothing. Success replaces the name and description, stamps UpdatedAt and appends one update event |
| `TodoLists.TodoList.Archive` | src/Core/CleanArchitecture.Domain/Entities/TodoList.cs:59-65 | the flag becomes true, UpdatedAt is stamped and one event is appended on every call, with no guard |
| `TodoLists.TodoList.Restore` | src/Core/CleanArchitecture.Domain/Entities/TodoList.cs:67-73 | the flag becomes false, UpdatedAt is stamped and one event is appended on every call, with no guard |
| `TodoLists.TodoList.AddTodoItem` | src/Core/CleanArchitecture.Domain/Entities/TodoList.cs:75-82 | an archived list refuses the item and nothing changes. Otherwise the item is appended at the end, TotalItems grows by one, and CompletedItems grows by one exactly when the item is completed |
| `TodoLists.TodoList.RemoveTodoItem` | src/Core/CleanArchitecture.Domain/Entities/TodoList.cs:84-88 | removes the first occurrence even from an archived list, leaves the items alone when the item is absent, and keeps CompletedItems consistent |
| `ValueObjects.Description.IsEmpty` | src/Core/CleanArchitecture.Domain/ValueObjects/Description.cs:33 | the empty description is the only one that is empty |
| `ValueObjects.Description.ToString` | src/Core/CleanArchitecture.Domain/ValueObjects/Description.cs:30-32 | the text and its implicit `string` conversion lose nothing: wrapping the text again gives back the same description |
| `ValueObjects.Description.Create` | src/Core/CleanArchitecture.Domain/ValueObjects/Description.cs:14-23 | blank input exactly gives the empty description, which is the only `IsEmpty` result. The `ArgumentException` happens exactly for non-blank input over 1000 characters, measured before trimming. Otherwise the value has at most 1000 characters and no white space at either end |
| `ValueObjects.CreateKeepsTrimmedInput` | src/Core/CleanArchitecture.Domain/ValueObjects/Description.cs:22 | a kept description is a slice of the input with only white space cut from either side |
| `ValueObjects.CreateIdempotent` | src/Core/CleanArchitecture.Domain/ValueObjects/Description.cs:14-23 | creating from a created value gives the same description |
| `Persistence.ListIndexById` | src/Infrastructure/CleanArchitecture.Persistence/Repositories/TodoListRepository.cs:18 | `FirstOrDefault(x => x.Id == id)`: the first list with that id, or the length when there is none |
| `Persistence.ItemIndexById` | src/Infrastructure/CleanArchitecture.Persistence/Repositories/TodoItemRepository.cs:18 | the same search over items |
| `Persistence.RemoveListWellFormed` | src/Infrastructure/CleanArchitecture.Persistence/Contexts/ApplicationDbContext.cs:50-51 | removing a list keeps ids increasing, issued and below the counter |
| `Persistence.RemoveItemWellFormed` | src/Infrastructure/CleanArchitecture.Persistence/Contexts/ApplicationDbContext.cs:52-53 | the same for items |
| `Persistence.RemoveListDisjoint` | src/Infrastructure/CleanArchitecture.Persistence/Contexts/ApplicationDbContext.cs:50-51 | removing a list keeps list and item bases disjoint |
| `Persistence.RemoveItemDisjoint` | src/Infrastructure/CleanArchitecture.Persistence/Contexts/ApplicationDbContext.cs:52-53 | removing an item keeps list and item bases disjoint |
| `Persistence.AppendListWellFormed` | src/Infrastructure/CleanArchitecture.Persistence/Contexts/ApplicationDbContext.cs:32-33 | appending a list whose id is the counter, recording that id as issued and moving the counter on keeps the list invariant |
| `Persistence.AppendItemWellFormed` | src/Infrastructure/CleanArchitecture.Persistence/Contexts/ApplicationDbContext.cs:37-38 | the same for items |
| `Persistence.RemoveStoredItem` | src/Infrastructure/CleanArchitecture.Persistence/Repositories/TodoItemRepository.cs:41-49 | with increasing ids, removing a stored item leaves no item with its id |
| `Persistence.RemoveStoredList` | src/Infrastructure/CleanArchitecture.Persistence/Repositories/TodoListRepository.cs:41-45 | with increasing ids, removing a stored list leaves no list with its id |
| `Persistence.FindAppendedItem` | src/Infrastructure/CleanArchitecture.Persistence/Repositories/TodoItemRepository.cs:28-33 | an item appended with a larger id than all others is what the search for its id finds |
| `Persistence.FindAppendedList` | src/Infrastructure/CleanArchitecture.Persistence/Repositories/TodoListRepository.cs:28-33 | the same for lists |
| `Persistence.SeedNamesPass` | src/Infrastructure/CleanArchitecture.Persistence/Contexts/ApplicationDbContext.cs:58-61 | both seed names pass the list name guard, so seeding never fails |
| `Persistence.ApplicationDbContext.constructor` | src/Infrastructure/CleanArchitecture.Persistence/Contexts/ApplicationDbContext.cs:8-16 | a new store is valid. It holds "Personal Tasks" with Id 1 and "Work Tasks" with Id 2, each with its description and one creation event, and no items. The next list id is 3 and the next item id is 1 |
| `Persistence.ApplicationDbContext.SeedData` | src/Infrastructure/CleanArchitecture.Persistence/Contexts/ApplicationDbContext.cs:56-63 | on the empty store, creates and adds the two seed lists in order, under ids 1 and 2 |
| `Persistence.ApplicationDbContext.AddSeedList` | src/Infrastructure/CleanArchitecture.Persistence/Contexts/ApplicationDbContext.cs:58-61 | one seeding step: a fresh list with the given name and description and one creation event is appended under the next list id, and the invariant is kept |
| `Persistence.ApplicationDbContext.SaveChanges` | src/Infrastructure/CleanArchitecture.Persistence/Contexts/ApplicationDbContext.cs:21-26 | returns 1 and changes nothing |
| `Persistence.ApplicationDbContext.Add` | src/Infrastructure/CleanArchitecture.Persistence/Contexts/ApplicationDbContext.cs:28-40 | a list or item gets the current counter of its collection as its Id, and only the Id of its base changes. The counter moves on by one, the entity is appended, the id is fresh, the other collection is untouched, any other entity changes nothing, and the invariant is kept |
| `Persistence.ApplicationDbContext.AddList` | src/Infrastructure/CleanArchitecture.Persistence/Contexts/ApplicationDbContext.cs:30-34 | the list branch of `Add` |
| `Persistence.ApplicationDbContext.AddItem` | src/Infrastructure/CleanArchitecture.Persistence/Contexts/ApplicationDbContext.cs:35-39 | the item branch of `Add` |
| `Persistence.ApplicationDbContext.Update` | src/Infrastructure/CleanArchitecture.Persistence/Contexts/ApplicationDbContext.cs:42-46 | changes nothing: there is no `modifies` clause, and the invariant is kept |
| `Persistence.ApplicationDbContext.Remove` | src/Infrastructure/CleanArchitecture.Persistence/Contexts/ApplicationDbContext.cs:48-54 | removes the first occurrence from the matching collection only. Anything absent, or of another class, changes nothing. Removing a stored entity leaves none with its id. The counters and issued ids never change, and the invariant is kept |
| `Persistence.ApplicationDbContext.RemoveList` | src/Infrastructure/CleanArchitecture.Persistence/Contexts/ApplicationDbContext.cs:50-51 | the list branch of `Remove` |
| `Persistence.ApplicationDbContext.RemoveItem` | src/Infrastructure/CleanArchitecture.Persistence/Contexts/ApplicationDbContext.cs:52-53 | the item branch of `Remove` |
| `Repositories.TodoItemRepository.constructor` | src/Infrastructure/CleanArchitecture.Persistence/Repositories/TodoItemRepository.cs:11-14 | the repository works on the given store |
| `Repositories.TodoItemRepository.GetById` | src/Infrastructure/CleanArchitecture.Persistence/Repositories/TodoItemRepository.cs:16-20 | `None` exactly when no stored item has the id; otherwise the first stored item with it |
| `Repositories.TodoItemRepository.GetAll` | src/Infrastructure/CleanArchitecture.Persistence/Repositories/TodoItemRepository.cs:22-26 | every stored item, in insertion order |
| `Repositories.TodoItemRepository.Add` | src/Infrastructure/CleanArchitecture.Persistence/Repositories/TodoItemRepository.cs:28-33 | returns the same item, now carrying the next item id and appended, and `GetById` of that id finds it |
| `Repositories.TodoItemRepository.Update` | src/Infrastructure/CleanArchitecture.Persistence/Repositories/TodoItemRepository.cs:35-39 | changes nothing: there is no `modifies` clause, and the invariant is kept |
| `Repositories.TodoItemRepository.Delete` | src/Infrastructure/CleanArchitecture.Persistence/Repositories/TodoItemRepository.cs:41-49 | an unknown id changes nothing. A known id removes exactly the found item. Afterwards `GetById` of that id is `None`, and the lists are untouched |
| `Repositories.TodoListRepository.constructor` | src/Infrastructure/CleanArchitecture.Persistence/Repositories/TodoListRepository.cs:11-14 | the repository works on the given store |
| `Repositories.TodoListRepository.GetById` | src/Infrastructure/CleanArchitecture.Persistence/Repositories/TodoListRepository.cs:16-20 | `None` exactly when no stored list has the id; otherwise the first stored list with it |
| `Repositories.TodoListRepository.GetAll` | src/Infrastructure/CleanArchitecture.Persistence/Repositories/TodoListRepository.cs:22-26 | every stored list, in insertion order |
| `Repositories.TodoListRepository.Add` | src/Infrastructure/CleanArchitecture.Persistence/Repositories/TodoListRepository.cs:28-33 | returns the same list, appended under the next list id, and `GetById` of that id finds it |
| `Repositories.TodoListRepository.Update` | src/Infrastructure/CleanArchitecture.Persistence/Repositories/TodoListRepository.cs:35-39 | changes nothing: there is no `modifies` clause, and the invariant is kept |
| `Repositories.TodoListRepository.Delete` | src/Infrastructure/CleanArchitecture.Persistence/Repositories/TodoListRepository.cs:41-45 | removes the list's first occurrence; a stored list's id is then no longer found, and the items are unchanged |
| `Repositories.SeededLists` | src/Infrastructure/CleanArchitecture.Persistence/Repositories/TodoListRepository.cs:16-26 | on a fresh store, `GetAll` is exactly the two seed lists: "Personal Tasks" under id 1, then "Work Tasks" under id 2. Id 3 is not found |
| `Commands.NotFoundMessage` | src/Core/CleanArchitecture.Application/Commands/TodoItemCommandService.cs:26 | the message is "TodoItem with id ", then the id in decimal, then " not found" |
| `Commands.NotFoundMessageNamesId` | src/Core/CleanArchitecture.Application/Commands/TodoItemCommandService.cs:26 | the message names the id: two ids give the same message only when they are equal |
| `Commands.TodoItemCommandService.constructor` | src/Core/CleanArchitecture.Application/Commands/TodoItemCommandService.cs:11-14 | the service works through the given repository |
| `Commands.TodoItemCommandService.CreateTodoItem` | src/Core/CleanArchitecture.Application/Commands/TodoItemCommandService.cs:16-20 | fails exactly when the domain rules fail, and then the store is unchanged. On success one new item holding exactly the given fields, pending, is appended under the next id, and `GetById` returns it |
| `Commands.TodoItemCommandService.UpdateTodoItem` | src/Core/CleanArchitecture.Application/Commands/TodoItemCommandService.cs:22-31 | an unknown id gives `InvalidOperationException("TodoItem with id … not found")` and no item changes. For a known id, `TodoItem.Update` either leaves the item unchanged with the domain error, or replaces its four fields and keeps its id. Items with other ids are untouched |
| `Commands.TodoItemCommandService.DeleteTodoItem` | src/Core/CleanArchitecture.Application/Commands/TodoItemCommandService.cs:33-36 | afterwards no item has the id. An absent id is a no-op; a present one removes exactly the found item |
| `Validators.TitleErrors` | src/CleanArchitecture.API/Validators/TodoItemCreateRequestValidator.cs:11-17 | "Title is required" exactly for a null or blank title. The length message exactly for a title outside 1..200. The character message exactly for a title that is empty or has a character outside `[a-zA-Z0-9\s\-_.,!?()]`. No message exactly when all hold |
| `Validators.DescriptionErrors` | src/CleanArchitecture.API/Validators/TodoItemCreateRequestValidator.cs:20-23 | a null or empty description is not checked; otherwise it fails exactly over 1000 characters |
| `Validators.PriorityErrors` | src/CleanArchitecture.API/Validators/TodoItemCreateRequestValidator.cs:26-28 | passes exactly for Low, Medium, High and Critical |
| `Validators.BeValidDate` | src/CleanArchitecture.API/Validators/TodoItemCreateRequestValidator.cs:37-40 | a date strictly later than `DateTime.MinValue` is any date but `MinValue` itself; an absent date passes |
| `Validators.DueDateErrors` | src/CleanArchitecture.API/Validators/TodoItemCreateRequestValidator.cs:31-40 | an absent due date passes; a present one passes exactly when it is later than `DateTime.MinValue` |
| `Validators.FailureMessages` | src/CleanArchitecture.API/Validators/TodoItemCreateRequestValidator.cs:8-35 | there are no messages exactly when all four field rules pass |
| `Validators.IsValid` | src/CleanArchitecture.API/Validators/TodoItemCreateRequestValidator.cs:8-40 | a request is accepted exactly when: the title is present, not blank, at most 200 characters and matches the pattern; the description is empty or at most 1000 characters; the priority names a member; and the due date is absent or not `MinValue` |
| `Validators.TitleOnlyPasses` | src/CleanArchitecture.API/Validators/TodoItemCreateRequestValidator.cs:11-28 | a request with an acceptable title and every other field at its default passes |
| `Validators.AcceptedTitlePassesDomainRule` | src/CleanArchitecture.API/Validators/TodoItemCreateRequestValidator.cs:11-13 | a request the validator accepts never fails the entity's title rule |
| `Validators.ValidatorAdmitsPastDueDate` | src/CleanArchitecture.API/Validators/TodoItemCreateRequestValidator.cs:30-34 | the validator checks a date's format only: it accepts a request that `TodoItem.Create` then refuses as past due |
| `Middleware.ErrorResponseFor` | src/CleanArchitecture.API/Middleware/ExceptionHandlingMiddleware.cs:36-66 | the status is always 400, 404 or 500. It is 400 exactly for the domain and argument families, with their message as detail; 404 exactly for a missing key, with the fixed body; 500 for everything else, with the one generic body. `Instance` is never set |
| `Middleware.TypeFollowsStatus` | src/CleanArchitecture.API/Middleware/ExceptionHandlingMiddleware.cs:36-66 | the type URI is determined by the status |
| `Middleware.BodyDependsOnlyOnFamilyAndMessage` | src/CleanArchitecture.API/Middleware/ExceptionHandlingMiddleware.cs:38-58 | within a family, the body depends only on the message, never on the subclass |
| `Middleware.UnknownItemIsServerError` | src/CleanArchitecture.API/Middleware/ExceptionHandlingMiddleware.cs:59-65 | the command service's unknown-id error, were it to reach the middleware, would become the generic 500 body, not a 404 |
| `Middleware.DomainRuleFailuresAreBadRequests` | src/CleanArchitecture.API/Middleware/ExceptionHandlingMiddleware.cs:38-44 | every item-rule failure becomes a 400 "Domain Error" whose detail is one of the three rule messages |
| `Middleware.HandleException` | src/CleanArchitecture.API/Middleware/ExceptionHandlingMiddleware.cs:31-68 | sets the JSON content type, and sets the status code to the chosen body's status, which is one of 400, 404 and 500 |

## Left out

- **Clock.** `DateTime.UtcNow` and `DateTime.Today` are parameters, and each operation reads the clock once: where the source calls `DateTime.UtcNow` several times in one operation (an entity's `CreatedAt` and its creation event's `OccurredOn`, say), the model gives all of them the same `now`, although in the source they generally differ by a few ticks. `DateTime.Kind` (UTC against local) is not modelled, nor is the range of `DateTime`: there is no `MaxValue`, and no `AddDays` overflow.
- **Concurrency.** The store is registered as a singleton (src/Infrastructure/CleanArchitecture.Persistence/DependencyInjection.cs:17), so every request shares it, and its updates are not synchronised. `Persistence.ApplicationDbContext.Add` and `Persistence.ApplicationDbContext.Remove` are modelled as atomic steps that run one at a time. The model does not capture two requests interleaving a counter increment with a list append, or a removal. `Valid()`'s unique, increasing ids therefore hold only under serialised access.
  - `Repositories.TodoItemRepository.GetAll`: returns a snapshot of the items in insertion order. The source returns a lazy view of the live list (`AsEnumerable()`), which serialisation reads later and which sees any later change.
  - `Repositories.TodoListRepository.GetAll`: the same, for the lists.
- **Async and cancellation.** Every `Task` or `async` method is a plain method, and cancellation tokens are dropped.
- **Decimal arithmetic.** `CompletionPercentage` is an exact ratio (a `real`); the rounding of `decimal` division is not modelled.
- **`PendingItems` and `OverdueItems`.** They depend on `IsCancelled` and `IsOverdue`, which `TodoItem` does not define.
- **`TodoItemStatus` lifecycle.** No code implements its transitions.
- **Item events.** The `TodoItem…Event` records are never raised by any code. Only the four list events are in the model. `TodoListRestoredEvent` is assumed to have the same shape as the other list events.
- **Events compare by value.** Domain events are datatype values, so `RemoveDomainEvent` compares by value where C# compares references.
- **Constructors.**
  - The parameterless constructors exist only for EF Core and are left out.
  - The `?? throw new ArgumentNullException` in the private constructors cannot fire, because each factory rejects a null name or title first.
- **Strings.** Lengths count `char`s, which stand for UTF-16 code units. Surrogate pairs and culture-specific behaviour are not modelled.
- **Reflection.** The store sets `Id` through reflection; the model writes the field directly.
- **Counter width.** `_todoListIdCounter` and `_todoItemIdCounter` are unbounded integers here.
  - `Persistence.ApplicationDbContext.Add`: does not model the wrap-around of the 32-bit counters after `int.MaxValue` additions. Its "fresh, increasing id" promise relies on that never happening.
- **Double adds.** The source never adds an already-stored entity.
  - `Persistence.ApplicationDbContext.Add`: requires the entity not to be stored yet. The source would give it a new id and store it a second time, which breaks the unique-id invariant.
  - `Repositories.TodoItemRepository.Add`: requires the item not to be stored yet, for the same reason.
  - `Repositories.TodoListRepository.Add`: requires the list not to be stored yet, for the same reason.
- **Interface mismatch.** `ITodoItemRepository` declares `DeleteAsync(TodoItem)`. The implementation and its caller use `DeleteAsync(int)`, which is what is modelled.
- **Validator wiring.** The validator is not wired into the request pipeline, and it targets a type name the DTO does not have. It is modelled on its own, on a request with the DTO's four fields.
- **API plumbing.**
  - Left out: the controllers, the dependency-injection set-up, `Program.cs`, the stub email, file, notification and clock services, `UnitOfWork`, and the query service, which only forwards to the repository.
  - In the middleware, `InvokeAsync`, logging and JSON serialisation are left out. `HandleException` returns the body instead of writing it.
- **`DomainException`.** It is assumed to derive directly from `Exception`, so it is disjoint from the argument family. `ValueObject`, the base class of `Description`, is assumed to give structural value equality, which the model writes as datatype equality.
