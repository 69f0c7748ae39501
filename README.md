# Task-tracking backend: a Dafny model of its domain rules

This project models the core of a small task-tracking backend written in C#, and proves what that
core promises. Clients list, fetch, create, update and delete task records. The core has four parts:

- **The task record** `TaskItem`: an ID, title, description, completion flag, due date, priority,
  and created/updated dates. Every field is nullable. The description defaults to `""` and the flag
  to `false`. Title, due date and priority are marked `[Required]`.
- **The store** `TaskOperations`: it sits behind the storage port `ITaskOperations` and is backed by
  an Entity Framework set of records.
- **The service** `TaskService`: the only place with business rules. It stamps the dates, checks
  that the priority names a member of `PriorityLevelEnum`, logs, and hands everything else to the
  store.
- **The controller** `TaskController`: it maps service results and exceptions to
  200/201/204/404/500. It checks that a record exists before updating or deleting it, and it binds
  the path ID onto the update payload.

Modules, one per file:

- `Wrappers` (`wrappers.dfy`): `Option`, `Result` and `Outcome`. These stand in for null and for
  exceptions.
- `Domain` (`domain.dfy`): the record, the priority set, the required-field check, and the
  exceptions of the core.
- `Logging` (`logging.dfy`): the log as a ghost sequence of structured entries.
- `Storage` (`storage.dfy`):
  - the store's queries and updates as functions over a sequence of records;
  - lemmas about those functions;
  - the class `TaskOperations`, whose methods are proved against the functions.
- `Service` (`service.dfy`): the date stamps, the priority check, and the class `TaskService`.
- `Controller` (`controller.dfy`): one pure outcome function per action (split in two where the
  action checks existence first), and the class `TaskController`, which makes the service calls in
  the source's order.
- `Scenarios` (`scenarios.dfy`): client methods modelled on the repository's tests. They build a
  whole application and drive the endpoints.

How the model represents the source:

- An ID, a date or a priority is an `int`. A DateTime is a clock reading, and a priority is the
  enum's underlying value.
- The clock is not read. Its readings are parameters. `AddTask` takes two, because `AddTaskAsync`
  reads `DateTime.Now` twice.
- The store is a sequence. Entity Framework promises no enumeration order, so the model fixes one:
  an add appends, and a delete keeps the other records in their order. `GetByIdAsync` returns the
  first match. The store's invariant `Valid()` is the primary-key rule:
  every record has an ID, and no two records share one.
- The service mutates the caller's `TaskItem` in place. The model states the object's new value as
  the out-parameter `after`.

`AddTaskAsync` reads `DateTime.Now` once for each date (Application/Services/TaskService.cs:32-33),
so the two dates of a new record need not be equal. The model proves `CreatedDate <= UpdatedDate`
when the second reading is not earlier than the first.

## Model

| member | source | states |
|---|---|---|
| `Domain.DefinedPriorities` | Application/Services/TaskService.cs:35 | a value is a defined priority exactly when it is the value of Low, Medium or High; 10 is not defined |
| `Domain.NewTaskItem` | Domain/Entities/TaskItem.cs:5-25 | a fresh item has Description "" and IsCompleted false; ID, CreatedDate, UpdatedDate, Title, DueDate and Priority are null |
| `Domain.RequiredFields` | Domain/Entities/TaskItem.cs:9-20 | an item missing Title, DueDate or Priority, a fresh item among them, fails the [Required] check; an item passes exactly when it has a title holding at least one non-white-space character, a due date and a priority |
| `Logging.Logger.LogInfo` | Infrastructure/Logger/Logger.cs:14-18 | appends exactly one info entry to the log |
| `Logging.Logger.LogError` | Infrastructure/Logger/Logger.cs:20-24 | appends exactly one error entry to the log |
| `Storage.FindIndex` | Infrastructure/Storage/TaskOperations.cs:23 | the position of the first record with that ID, or none exactly when no record has it |
| `Storage.Lookup` | Infrastructure/Storage/TaskOperations.cs:21-24 | null exactly when no record has the ID; otherwise the first record with that ID |
| `Storage.LookupUnique` | Infrastructure/Storage/TaskOperations.cs:21-24 | with unique keys, the record found for an ID is the one stored record carrying it (both directions) |
| `Storage.WithKey` | Infrastructure/Storage/TaskOperations.cs:26-29 | an added record keeps its own ID, or gets the generated one when its ID is null; otherwise unchanged |
| `Storage.AddKeepsKeys` | Infrastructure/Storage/TaskOperations.cs:26-29 | appending a record with an unused key keeps keys unique, the record is found by its key, and every other ID finds what it found before |
| `Storage.CopyFields` | Infrastructure/Storage/TaskOperations.cs:37-42 | the updated record is the payload, except that ID and CreatedDate are the stored record's |
| `Storage.UpdatedItems` | Infrastructure/Storage/TaskOperations.cs:32-45 | same length, same IDs and CreatedDates everywhere; no change when the ID is absent; otherwise only the first match changes, to the copied fields |
| `Storage.UpdateLookup` | Infrastructure/Storage/TaskOperations.cs:34-42 | after an update the ID finds the old record with the fields copied on (null if it was absent); every other ID finds what it found before |
| `Storage.UpdateKeepsKeys` | Infrastructure/Storage/TaskOperations.cs:37-42 | an update keeps the keys unique |
| `Storage.UpdateIdempotent` | Infrastructure/Storage/TaskOperations.cs:32-45 | updating twice with the same payload equals updating once |
| `Storage.UpdateKeepsChronology` | Infrastructure/Storage/TaskOperations.cs:37-42 | an update whose payload carries the latest clock reading keeps every record's CreatedDate <= UpdatedDate <= now |
| `Storage.RemovedItems` | Infrastructure/Storage/TaskOperations.cs:47-55 | no change when the ID is absent; otherwise one record fewer, the rest in their order |
| `Storage.RemovedFrom` | Infrastructure/Storage/TaskOperations.cs:49-53 | with unique keys, a record remains after a delete exactly when it was stored and does not carry the deleted ID |
| `Storage.DeleteLookup` | Infrastructure/Storage/TaskOperations.cs:49-53 | a delete keeps keys unique, the deleted ID then finds nothing, and every other ID finds what it found before |
| `Storage.DeleteIdempotent` | Infrastructure/Storage/TaskOperations.cs:50 | deleting twice equals deleting once |
| `Storage.TaskOperations.GetAll` | Infrastructure/Storage/TaskOperations.cs:16-19 | returns every stored record in the store's order and changes nothing |
| `Storage.TaskOperations.GetById` | Infrastructure/Storage/TaskOperations.cs:21-24 | returns the first record with the ID, or null, and changes nothing |
| `Storage.TaskOperations.Add` | Infrastructure/Storage/TaskOperations.cs:26-30 | the keyed record is appended, so the count grows by one; a taken key is refused and the store is unchanged; keys stay unique |
| `Storage.TaskOperations.Update` | Infrastructure/Storage/TaskOperations.cs:32-45 | the new records are UpdatedItems of the old ones (a no-op on an absent ID); keys stay unique |
| `Storage.TaskOperations.Delete` | Infrastructure/Storage/TaskOperations.cs:47-55 | the new records are RemovedItems of the old ones (a no-op on an absent ID); keys stay unique |
| `Service.StampCreation` | Application/Services/TaskService.cs:32-33 | CreatedDate and UpdatedDate are the two clock readings, overwriting any the caller gave; nothing else changes; chronological when the readings do not go backwards |
| `Service.StampUpdate` | Application/Services/TaskService.cs:47 | UpdatedDate is the reading, CreatedDate is untouched, nothing else changes; UpdatedDate > CreatedDate when the clock has passed CreatedDate |
| `Service.CheckPriority` | Application/Services/TaskService.cs:35-39 | passes exactly when the priority is a defined value; null raises ArgumentNullException; any other value raises "Invalid Priority." |
| `Service.PriorityLog` | Application/Services/TaskService.cs:35-38 | at most one entry; one exactly when the check rejects the value as invalid, and it carries that value |
| `Service.PriorityCheckCases` | Application/Services/TaskService.cs:49-53 | every named priority passes; 10 is rejected as invalid with one error entry carrying 10; null is rejected without a log entry |
| `Service.AddKeepsDefined` | Application/Services/TaskService.cs:35-42 | a record the add lets through carries a defined priority, so every stored priority stays defined |
| `Service.UpdateKeepsDefined` | Application/Services/TaskService.cs:49-56 | an update the service lets through copies a defined priority on, so every stored priority stays defined |
| `Service.AddKeepsChronology` | Application/Services/TaskService.cs:32-42 | an add with readings no earlier than any before keeps every stored record's CreatedDate <= UpdatedDate |
| `Service.UpdateStampsRecord` | Application/Services/TaskService.cs:47-56 | an update through the service keeps every record chronological; the stored record keeps ID and CreatedDate and takes the new UpdatedDate, strictly later when the clock advanced |
| `Service.TaskService.GetAllTasks` | Application/Services/TaskService.cs:18-22 | returns exactly the store's records, leaves the store alone, and appends one "getting all" info entry |
| `Service.TaskService.GetTaskById` | Application/Services/TaskService.cs:24-28 | returns exactly the store's answer (null on absence), leaves the store alone, and appends one info entry with the ID |
| `Service.TaskService.AddTask` | Application/Services/TaskService.cs:30-43 | the dates are overwritten even when rejected; a rejected priority throws, logs only the rejection, and leaves the store unchanged; otherwise one info entry with the title and the stamped object goes to the store |
| `Service.TaskService.UpdateTask` | Application/Services/TaskService.cs:45-57 | UpdatedDate is overwritten; a rejected priority throws and never changes the store, for any ID; otherwise one info entry with the payload's ID and a store update under the path ID |
| `Service.TaskService.DeleteTask` | Application/Services/TaskService.cs:59-63 | no check; one info entry with the ID and one store delete of that same ID |
| `Controller.StatusCode` | TestnaNalogaOresnik/Controllers/TaskController.cs:20-107 | every response has one of the codes 200, 201, 204, 400, 404 or 500; 200 exactly for the two Ok results |
| `Controller.GetTasksResult` | TestnaNalogaOresnik/Controllers/TaskController.cs:23-33 | 200 with exactly the service's list, or 500 with one error entry carrying the exception |
| `Controller.GetTaskResult` | TestnaNalogaOresnik/Controllers/TaskController.cs:39-51 | 404 when the service returns null, 200 with the record otherwise, 500 with one error entry on an exception |
| `Controller.CreateTaskResult` | TestnaNalogaOresnik/Controllers/TaskController.cs:57-67 | 201 carrying the same object with the object's ID as route id, or -1 when it has none, or 500 with one error entry naming the title |
| `Controller.BindId` | TestnaNalogaOresnik/Controllers/TaskController.cs:78 | the payload's ID becomes the path ID and nothing else changes |
| `Controller.UpdateTaskLookup` | TestnaNalogaOresnik/Controllers/TaskController.cs:75-78 | absent: 404 with no update; present: proceed with the payload bound to the path ID; exception: 500, logged with the payload's unbound ID |
| `Controller.UpdateTaskResult` | TestnaNalogaOresnik/Controllers/TaskController.cs:79-87 | 204 on success; otherwise 500 with exactly one error entry naming the bound ID |
| `Controller.DeleteTaskLookup` | TestnaNalogaOresnik/Controllers/TaskController.cs:95-96 | absent: 404 with no delete; present: proceed with the path ID; exception: 500 with one error entry |
| `Controller.DeleteTaskResult` | TestnaNalogaOresnik/Controllers/TaskController.cs:98-106 | 204 on success; otherwise 500 with exactly one error entry naming the ID |
| `Controller.ExceptionsAreServerErrors` | TestnaNalogaOresnik/Controllers/TaskController.cs:29-106 | in every action, an exception from the service gives 500 and one error entry |
| `Controller.SuccessIsNeverServerError` | TestnaNalogaOresnik/Controllers/TaskController.cs:23-100 | in every action, a run without an exception gives no 500 and no error entry |
| `Controller.TaskController.Conclude` | TestnaNalogaOresnik/Controllers/TaskController.cs:29-33 | writes the catch block's single error entry when there is one, and returns the response |
| `Controller.TaskController.GetTasks` | TestnaNalogaOresnik/Controllers/TaskController.cs:20-34 | 200 with the stored records; only the service's info entry is logged |
| `Controller.TaskController.GetTask` | TestnaNalogaOresnik/Controllers/TaskController.cs:36-52 | 404 when no record has the ID, else 200 with the first record that has it |
| `Controller.TaskController.CreateTask` | TestnaNalogaOresnik/Controllers/TaskController.cs:54-68 | an invalid body gets 400 with nothing called; an undefined priority gets 500, two error entries and no record; otherwise 201 with the stamped, keyed record appended (500 on a taken key) |
| `Controller.TaskController.UpdateTask` | TestnaNalogaOresnik/Controllers/TaskController.cs:70-88 | invalid body: 400; absent ID: 404 with the store unchanged; otherwise the payload bound to the path ID is stamped and copied on (204), or refused for its priority (500, store unchanged) |
| `Controller.TaskController.DeleteTask` | TestnaNalogaOresnik/Controllers/TaskController.cs:90-107 | absent ID: 404 with no delete; otherwise the record is removed and 204 |
| `Scenarios.FirstTask` | Test/TaskServiceTest.cs:56 | the tests' payload, with the ID given (1 in that test), has the required fields, Description "" and IsCompleted false |
| `Scenarios.CreateKeepsIdAndDefaults` | Test/TaskServiceTest.cs:54-68 | creating the payload with ID 1 gives 201 with ID and route id 1, the defaults kept, the two readings as its dates, and exactly one info entry naming the title |
| `Scenarios.CreateGeneratesKey` | Test/TaskControllerTest.cs:79-96 | creating the test's payload (no ID, Description "To je prva naloga.") gives 201 carrying the Title, Description, DueDate and Priority sent; its ID and route id are the store's generated key, which rests on the Entity Framework key assumption under "Left out" |
| `Scenarios.ListingFailureIsServerError` | Test/TaskControllerTest.cs:38-47 | a store that throws while listing makes GET of all tasks answer 500 with exactly one error entry carrying that exception |
| `Scenarios.CreateRejectsUndefinedPriority` | Test/TaskServiceTest.cs:70-82 | priority 10 gives 500, stores nothing, and logs the rejected value then the endpoint's error |
| `Scenarios.CreateRefusesEmptyItem` | Test/TaskControllerTest.cs:98-108 | posting `new TaskItem()` gives 400 and stores nothing |
| `Scenarios.MissingTaskIsNotFound` | Test/TaskControllerTest.cs:67-77 | fetching a record that was never added gives 404 |
| `Scenarios.UpdateAdvancesUpdatedDate` | Test/TaskServiceTest.cs:84-99 | create then update at a later reading: 204; the record keeps its key and CreatedDate, takes the new title, and UpdatedDate > CreatedDate; the log is the add's title entry, the lookup entry, then exactly one "updating" entry with the ID |
| `Scenarios.DeleteTwice` | Test/TaskControllerTest.cs:150-162 | create, delete, delete: 204, then 404, and the store ends empty |

## Left out

- Asynchrony (`async`/`await`, `Task`): every call is sequential and completes before the next statement.
- The clock: readings are parameters. Nothing forces a reading to be no earlier than the last; the
  chronology lemmas take that as a hypothesis.
- Logger file I/O and message formatting (`Infrastructure/Logger/Logger.cs`): the log is a ghost
  sequence of structured entries. An exception is logged as its value, not as its `Message` text.
- `Infrastructure/Storage/InMemoryDbContext.cs` and Entity Framework are not part of this model.
  The following are assumptions about that code:
  - Key generation is an injected `generatedId`, used when the added record's ID is null.
  - The refusal of a key already in use is the `DuplicateKey` failure. The key is taken to be on the
    caller's object even then.
- `Storage.TaskOperations.GetAll`: the order of the records is assumed, not given by Entity
  Framework (`ToListAsync` has no ordering): `Add` appends and `Delete` keeps the rest in order.
- `Storage.TaskOperations.Add`: the model store assigns keys but cannot fail in any other way. So the
  endpoints' catch blocks are reached in the model only by the service's priority check and by a
  taken key. Storage failures in general appear only in the pure outcome functions, whose arguments
  take any `Exception`.
- Aliasing between stored records and caller objects is not modelled. Entity Framework stores the
  caller's object itself; the model stores its value. Nothing in the core mutates a record after
  storing it, other than through the store.
- Domain/Interfaces/ITaskOperations.cs, the storage port: there is one implementation, the class
  `TaskOperations`, and no interface or mock of it.
- `Domain.DefinedPriorities`: the declaration of `PriorityLevelEnum` is not part of this model. C#'s
  default numbering is assumed (Low = 0, Medium = 1, High = 2), and only the tests' fact that 10 is
  undefined is relied on.
- `Service.CheckPriority`: the ArgumentNullException on a null priority comes from the .NET library's
  `Enum.IsDefined`, not from code in the repository.
- `Domain.RequiredFields`: ASP.NET model validation (`[ApiController]`, `[Required]`) is framework
  behaviour. It is a predicate checked before the action. It treats a title as blank only for ASCII
  white space and the no-break space, not for every Unicode white-space character.
- Routing, JSON (de)serialisation, HTTP status objects, `WebApplicationFactory` and the Moq mocks.
- The dependency-injection wiring is not part of this model. It is assumed that the controller and
  the service share one logger, so the log is one sequence.
