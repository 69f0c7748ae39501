/**
 * Client scenarios after the repository's tests (Test/TaskServiceTest.cs, Test/TaskControllerTest.cs):
 * each builds a store, a logger, a service and a controller and drives the endpoints, so that what
 * the tests observe follows from the contracts alone.
 */
module Scenarios {
  import opened Wrappers
  import opened Domain
  import opened Logging
  import opened Storage
  import opened Service
  import opened Controller

  /** A fresh application: an empty store and an empty log. */
  method NewApplication() returns (controller: TaskController)
    ensures fresh(controller) && fresh(controller.service) && fresh(controller.service.operations) && fresh(controller.service.logger)
    ensures controller.service.operations.Valid() && controller.service.operations.items == []
    ensures controller.service.logger.entries == []
  {
    var operations := new TaskOperations();
    var logger := new Logger();
    var service := new TaskService(operations, logger);
    controller := new TaskController(service);
  }

  /** The payload the tests use: "Prva naloga", a due date, a priority, no description, and the given ID. */
  function FirstTask(id: Option<int>, dueDate: int, priority: int): (t: TaskItem)
    ensures HasRequiredFields(t)
    ensures t.description == Some("") && t.isCompleted == Some(false) && t.id == id
  {
    var title := "Prva naloga";
    assert title[0] == 'P';
    NewTaskItem().(id := id, title := Some(title), dueDate := Some(dueDate), priority := Some(priority))
  }

  /**
   * Creating the test's task, which carries ID 1, yields 201 with the stored record: the ID is
   * kept, the defaults are kept, the two clock readings are its dates, and exactly one info entry
   * naming the title is logged.
   */
  method CreateKeepsIdAndDefaults(dueDate: int, firstNow: int, secondNow: int, generatedId: int)
    returns (response: Response, ghost log: seq<LogEntry>)
    ensures response.Created? && response.routeId == 1
    ensures response.task.id == Some(1)
    ensures response.task.description == Some("") && response.task.isCompleted == Some(false)
    ensures response.task.createdDate == Some(firstNow) && response.task.updatedDate == Some(secondNow)
    ensures firstNow <= secondNow ==> Chronological(response.task)
    ensures log == [Info(AddingTask(Some("Prva naloga")))]
  {
    var controller := NewApplication();
    DefinedPriorities(PriorityValue(Medium));
    response := controller.CreateTask(Some(FirstTask(Some(1), dueDate, PriorityValue(Medium))), firstNow, secondNow, generatedId);
    log := controller.service.logger.entries;
  }

  /**
   * Creating a task without an ID, with a description, yields 201 carrying the title, description,
   * due date and priority that were sent; the store's generated key is its ID and the route id.
   */
  method CreateGeneratesKey(dueDate: int, firstNow: int, secondNow: int, generatedId: int) returns (response: Response)
    ensures response.Created? && response.routeId == generatedId
    ensures response.task.id == Some(generatedId)
    ensures response.task.title == Some("Prva naloga") && response.task.description == Some("To je prva naloga.")
    ensures response.task.dueDate == Some(dueDate) && response.task.priority == Some(PriorityValue(Medium))
  {
    var controller := NewApplication();
    DefinedPriorities(PriorityValue(Medium));
    var payload := FirstTask(None, dueDate, PriorityValue(Medium)).(description := Some("To je prva naloga."));
    response := controller.CreateTask(Some(payload), firstNow, secondNow, generatedId);
  }

  /** A store that throws while listing makes GET of all tasks answer 500 with exactly one error entry. */
  lemma ListingFailureIsServerError()
    ensures GetTasksResult(Failure(PortFailure("Test exception."))) ==
              ActionResult(ServerError, Some(GetTasksFailed(PortFailure("Test exception."))))
    ensures StatusCode(GetTasksResult(Failure(PortFailure("Test exception."))).response) == 500
  {
  }

  /** Creating a task with priority 10 answers 500, stores nothing, and logs the rejected value then the endpoint's error. */
  method CreateRejectsUndefinedPriority(dueDate: int, firstNow: int, secondNow: int, generatedId: int)
    returns (response: Response, stored: seq<TaskItem>, ghost log: seq<LogEntry>)
    ensures response == ServerError && stored == []
    ensures log == [Error(InvalidPriorityValue(10)), Error(CreateTaskFailed(Some("Prva naloga"), InvalidPriority))]
  {
    var controller := NewApplication();
    DefinedPriorities(10);
    response := controller.CreateTask(Some(FirstTask(Some(1), dueDate, 10)), firstNow, secondNow, generatedId);
    stored := controller.service.operations.GetAll();
    log := controller.service.logger.entries;
  }

  /** Posting a fresh, empty item is refused by validation and never reaches the service. */
  method CreateRefusesEmptyItem() returns (response: Response, stored: seq<TaskItem>)
    ensures response == BadRequest && stored == []
  {
    var controller := NewApplication();
    RequiredFields(NewTaskItem());
    response := controller.CreateTask(Some(NewTaskItem()), 0, 0, 1);
    stored := controller.service.operations.GetAll();
  }

  /** Asking for a record that was never added answers 404. */
  method MissingTaskIsNotFound(id: int) returns (response: Response)
    ensures response == NotFound
  {
    var controller := NewApplication();
    response := controller.GetTask(id);
  }

  /**
   * Create, then update under the same path ID at a later clock reading: 204, the record keeps its
   * key and CreatedDate, takes the new title, and is now strictly newer than it was created.
   */
  method UpdateAdvancesUpdatedDate(dueDate: int, firstNow: int, secondNow: int, now: int, generatedId: int)
    returns (response: Response, found: Option<TaskItem>, ghost log: seq<LogEntry>)
    requires firstNow <= secondNow < now
    ensures response == NoContent
    ensures found.Some? && found.value.id == Some(generatedId)
    ensures found.value.title == Some("Druga naloga")
    ensures found.value.createdDate == Some(firstNow) && found.value.updatedDate == Some(now)
    ensures found.value.updatedDate.value > found.value.createdDate.value
    ensures log == [Info(AddingTask(Some("Prva naloga"))), Info(GettingTask(generatedId)), Info(UpdatingTask(Some(generatedId)))]
  {
    var controller := NewApplication();
    DefinedPriorities(PriorityValue(Medium));
    DefinedPriorities(PriorityValue(High));
    var created := controller.CreateTask(Some(FirstTask(None, dueDate, PriorityValue(Medium))), firstNow, secondNow, generatedId);
    var items := controller.service.operations.items;
    LookupUnique(items, generatedId, items[0]);
    var title := "Druga naloga";
    assert title[0] == 'D';
    var payload := FirstTask(None, dueDate, PriorityValue(High)).(title := Some(title));
    response := controller.UpdateTask(generatedId, Some(payload), now);
    UpdateLookup(items, generatedId, StampUpdate(BindId(payload, generatedId), now), generatedId);
    found := controller.service.operations.GetById(generatedId);
    log := controller.service.logger.entries;
  }

  /** Create, then delete twice: the first delete answers 204, the second 404, and the store ends empty. */
  method DeleteTwice(dueDate: int, firstNow: int, secondNow: int, generatedId: int)
    returns (first: Response, second: Response, stored: seq<TaskItem>)
    ensures first == NoContent && second == NotFound && stored == []
  {
    var controller := NewApplication();
    DefinedPriorities(PriorityValue(Low));
    var created := controller.CreateTask(Some(FirstTask(None, dueDate, PriorityValue(Low))), firstNow, secondNow, generatedId);
    var items := controller.service.operations.items;
    LookupUnique(items, generatedId, items[0]);
    first := controller.DeleteTask(generatedId);
    DeleteLookup(items, generatedId, generatedId);
    second := controller.DeleteTask(generatedId);
    stored := controller.service.operations.GetAll();
  }
}
