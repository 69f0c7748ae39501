/**
 * The endpoint layer (TestnaNalogaOresnik/Controllers/TaskController.cs). Each action's branching
 * on service results and exceptions is a pure function; the controller class makes the service
 * calls in the order the actions make them and writes the catch blocks' error entries.
 */
module Controller {
  import opened Wrappers
  import opened Domain
  import opened Logging
  import opened Storage
  import opened Service

  /** The action results the controller returns. */
  datatype Response =
    | OkTasks(tasks: seq<TaskItem>)          // 200 with the list of tasks
    | OkTask(task: TaskItem)                 // 200 with one task
    | Created(routeId: int, task: TaskItem)  // 201 pointing at the fetch action for routeId, with the created task
    | NoContent
    | BadRequest                             // refused by model validation before the action runs
    | NotFound
    | ServerError                            // 500 with a generic error text

  /** The HTTP status code of a response. */
  function StatusCode(r: Response): (code: int)
    ensures code in {200, 201, 204, 400, 404, 500}
    ensures code == 200 <==> r.OkTasks? || r.OkTask?
  {
    match r
    case OkTasks(_) => 200
    case OkTask(_) => 200
    case Created(_, _) => 201
    case NoContent => 204
    case BadRequest => 400
    case NotFound => 404
    case ServerError => 500
  }

  /** A response together with the error entry the action's catch block writes, if it ran. */
  datatype ActionResult = ActionResult(response: Response, logged: Option<ErrorMessage>)

  /** The first half of UpdateTask and DeleteTask: answer now, or go on to the service call. */
  datatype Step<T> = Respond(result: ActionResult) | Proceed(next: T)

  /** The request body passes ASP.NET model validation: it is present and has the [Required] fields. */
  predicate PassesValidation(body: Option<TaskItem>)
  {
    body.Some? && HasRequiredFields(body.value)
  }

  /** GetTasks: 200 with exactly the service's list, or 500 with one error entry carrying the exception. */
  function GetTasksResult(served: Result<seq<TaskItem>, Exception>): (r: ActionResult)
    ensures StatusCode(r.response) == (if served.Success? then 200 else 500)
    ensures served.Success? ==> r.response.OkTasks? && r.response.tasks == served.value && r.logged == None
    ensures served.Failure? ==> r.logged == Some(GetTasksFailed(served.error))
  {
    match served
    case Success(tasks) => ActionResult(OkTasks(tasks), None)
    case Failure(e) => ActionResult(ServerError, Some(GetTasksFailed(e)))
  }

  /** GetTask: 404 when the service returns null, 200 with the record otherwise, 500 on an exception. */
  function GetTaskResult(id: int, served: Result<Option<TaskItem>, Exception>): (r: ActionResult)
    ensures StatusCode(r.response) == (match served case Failure(_) => 500 case Success(None) => 404 case Success(Some(_)) => 200)
    ensures served.Success? && served.value.Some? ==> r.response == OkTask(served.value.value)
    ensures served.Success? <==> r.logged == None
    ensures served.Failure? ==> r.logged == Some(GetTaskFailed(id, served.error))
  {
    match served
    case Success(None) => ActionResult(NotFound, None)
    case Success(Some(task)) => ActionResult(OkTask(task), None)
    case Failure(e) => ActionResult(ServerError, Some(GetTaskFailed(id, e)))
  }

  /**
   * CreateTask, given the caller's object after AddTaskAsync and how that call ended: 201 carrying
   * that object with route id the object's ID, or -1 when it has none, or 500 with one error entry naming the title.
   */
  function CreateTaskResult(task: TaskItem, added: Outcome<Exception>): (r: ActionResult)
    ensures StatusCode(r.response) == (if added.Pass? then 201 else 500)
    ensures added.Pass? ==> r.response.Created? && r.response.task == task && r.logged == None
    ensures added.Pass? ==> r.response.routeId == (if task.id.Some? then task.id.value else -1)
    ensures added.Fail? ==> r.logged == Some(CreateTaskFailed(task.title, added.error))
  {
    match added
    case Pass => ActionResult(Created(match task.id case Some(k) => k case None => -1, task), None)
    case Fail(e) => ActionResult(ServerError, Some(CreateTaskFailed(task.title, e)))
  }

  /** The path ID is bound onto the payload and nothing else changes. */
  function BindId(task: TaskItem, id: int): (r: TaskItem)
    ensures r.id == Some(id)
    ensures r.(id := task.id) == task
  {
    task.(id := Some(id))
  }

  /**
   * The existence check of UpdateTask: 404 without an update when the record is absent, the
   * payload with the path ID bound onto it when present. An exception here is logged with the
   * payload's own ID, since the binding has not happened yet.
   */
  function UpdateTaskLookup(id: int, task: TaskItem, existing: Result<Option<TaskItem>, Exception>): (s: Step<TaskItem>)
    ensures existing == Success(None) ==> s == Respond(ActionResult(NotFound, None))
    ensures existing.Success? && existing.value.Some? ==> s == Proceed(BindId(task, id))
    ensures existing.Failure? ==> s == Respond(ActionResult(ServerError, Some(UpdateTaskFailed(task.id, existing.error))))
  {
    match existing
    case Success(None) => Respond(ActionResult(NotFound, None))
    case Success(Some(_)) => Proceed(BindId(task, id))
    case Failure(e) => Respond(ActionResult(ServerError, Some(UpdateTaskFailed(task.id, e))))
  }

  /** The end of UpdateTask: 204, or 500 with one error entry naming the bound payload's ID. */
  function UpdateTaskResult(task: TaskItem, updated: Outcome<Exception>): (r: ActionResult)
    ensures StatusCode(r.response) == (if updated.Pass? then 204 else 500)
    ensures updated.Pass? <==> r.logged == None
    ensures updated.Fail? ==> r.logged == Some(UpdateTaskFailed(task.id, updated.error))
  {
    match updated
    case Pass => ActionResult(NoContent, None)
    case Fail(e) => ActionResult(ServerError, Some(UpdateTaskFailed(task.id, e)))
  }

  /** The existence check of DeleteTask: 404 without a delete when the record is absent, go on with the path ID when present. */
  function DeleteTaskLookup(id: int, existing: Result<Option<TaskItem>, Exception>): (s: Step<int>)
    ensures existing == Success(None) ==> s == Respond(ActionResult(NotFound, None))
    ensures existing.Success? && existing.value.Some? ==> s == Proceed(id)
    ensures existing.Failure? ==> s == Respond(ActionResult(ServerError, Some(DeleteTaskFailed(id, existing.error))))
  {
    match existing
    case Success(None) => Respond(ActionResult(NotFound, None))
    case Success(Some(_)) => Proceed(id)
    case Failure(e) => Respond(ActionResult(ServerError, Some(DeleteTaskFailed(id, e))))
  }

  /** The end of DeleteTask: 204, or 500 with one error entry naming the ID. */
  function DeleteTaskResult(id: int, deleted: Outcome<Exception>): (r: ActionResult)
    ensures StatusCode(r.response) == (if deleted.Pass? then 204 else 500)
    ensures deleted.Pass? <==> r.logged == None
    ensures deleted.Fail? ==> r.logged == Some(DeleteTaskFailed(id, deleted.error))
  {
    match deleted
    case Pass => ActionResult(NoContent, None)
    case Fail(e) => ActionResult(ServerError, Some(DeleteTaskFailed(id, e)))
  }

  /** In every action an exception gives status 500 together with exactly one error entry; SuccessIsNeverServerError is the converse. */
  lemma ExceptionsAreServerErrors(id: int, task: TaskItem, e: Exception, r: ActionResult)
    requires || r == GetTasksResult(Failure(e))
             || r == GetTaskResult(id, Failure(e))
             || r == CreateTaskResult(task, Fail(e))
             || UpdateTaskLookup(id, task, Failure(e)) == Respond(r)
             || r == UpdateTaskResult(task, Fail(e))
             || DeleteTaskLookup(id, Failure(e)) == Respond(r)
             || r == DeleteTaskResult(id, Fail(e))
    ensures StatusCode(r.response) == 500 && r.logged.Some?
  {
  }

  /** No action that ran without an exception answers 500 or writes an error entry. */
  lemma SuccessIsNeverServerError(id: int, task: TaskItem, tasks: seq<TaskItem>, found: Option<TaskItem>, r: ActionResult)
    requires || r == GetTasksResult(Success(tasks))
             || r == GetTaskResult(id, Success(found))
             || r == CreateTaskResult(task, Pass)
             || UpdateTaskLookup(id, task, Success(found)) == Respond(r)
             || r == UpdateTaskResult(task, Pass)
             || DeleteTaskLookup(id, Success(found)) == Respond(r)
             || r == DeleteTaskResult(id, Pass)
    ensures StatusCode(r.response) != 500 && r.logged == None
  {
  }

  /** The endpoints, sharing the service's logger (both write to the one log file). */
  class TaskController {
    const service: TaskService

    constructor (service: TaskService)
      ensures this.service == service
    {
      this.service := service;
    }

    /** Writes the catch block's error entry, if there is one, and returns the response. */
    method Conclude(result: ActionResult) returns (response: Response)
      modifies service.logger
      ensures response == result.response
      ensures service.logger.entries == old(service.logger.entries) + (if result.logged.Some? then [Error(result.logged.value)] else [])
    {
      if result.logged.Some? {
        service.logger.LogError(result.logged.value);
      }
      response := result.response;
    }

    /** GET tasks. */
    method GetTasks() returns (response: Response)
      modifies service.logger
      ensures response == OkTasks(service.operations.items)
      ensures service.logger.entries == old(service.logger.entries) + [Info(GettingAllTasks)]
    {
      var tasks := service.GetAllTasks();
      response := Conclude(GetTasksResult(Success(tasks)));
    }

    /** GET of one task by ID. */
    method GetTask(id: int) returns (response: Response)
      modifies service.logger
      ensures response == match Lookup(service.operations.items, id) case None => NotFound case Some(t) => OkTask(t)
      ensures service.logger.entries == old(service.logger.entries) + [Info(GettingTask(id))]
    {
      var task := service.GetTaskById(id);
      response := Conclude(GetTaskResult(id, Success(task)));
    }

    /** POST tasks: a body that fails validation is refused before the service is called. */
    method CreateTask(body: Option<TaskItem>, firstNow: int, secondNow: int, generatedId: int) returns (response: Response)
      requires service.operations.Valid()
      modifies service.operations, service.logger
      ensures service.operations.Valid()
      ensures !PassesValidation(body) ==>
                && response == BadRequest
                && service.operations.items == old(service.operations.items)
                && service.logger.entries == old(service.logger.entries)
      ensures PassesValidation(body) && !IsDefinedPriority(body.value.priority.value) ==>
                && response == ServerError
                && service.operations.items == old(service.operations.items)
                && service.logger.entries == old(service.logger.entries)
                     + [Error(InvalidPriorityValue(body.value.priority.value)), Error(CreateTaskFailed(body.value.title, InvalidPriority))]
      ensures PassesValidation(body) && IsDefinedPriority(body.value.priority.value) ==>
                var stored := WithKey(StampCreation(body.value, firstNow, secondNow), generatedId);
                if Lookup(old(service.operations.items), stored.id.value).None? then
                  && response == Created(stored.id.value, stored)
                  && service.operations.items == old(service.operations.items) + [stored]
                  && service.logger.entries == old(service.logger.entries) + [Info(AddingTask(body.value.title))]
                else
                  && response == ServerError
                  && service.operations.items == old(service.operations.items)
                  && service.logger.entries == old(service.logger.entries)
                       + [Info(AddingTask(body.value.title)), Error(CreateTaskFailed(body.value.title, DuplicateKey(stored.id.value)))]
    {
      if !PassesValidation(body) {
        return BadRequest;
      }
      var after, outcome := service.AddTask(body.value, firstNow, secondNow, generatedId);
      response := Conclude(CreateTaskResult(after, outcome));
    }

    /** PUT of one task by ID: the existence check, the ID binding, then the service's update. */
    method UpdateTask(id: int, body: Option<TaskItem>, now: int) returns (response: Response)
      requires service.operations.Valid()
      modifies service.operations, service.logger
      ensures service.operations.Valid()
      ensures !PassesValidation(body) ==>
                && response == BadRequest
                && service.operations.items == old(service.operations.items)
                && service.logger.entries == old(service.logger.entries)
      ensures PassesValidation(body) && Lookup(old(service.operations.items), id).None? ==>
                && response == NotFound
                && service.operations.items == old(service.operations.items)
                && service.logger.entries == old(service.logger.entries) + [Info(GettingTask(id))]
      ensures PassesValidation(body) && Lookup(old(service.operations.items), id).Some? ==>
                if IsDefinedPriority(body.value.priority.value) then
                  && response == NoContent
                  && service.operations.items == UpdatedItems(old(service.operations.items), id, StampUpdate(BindId(body.value, id), now))
                  && service.logger.entries == old(service.logger.entries) + [Info(GettingTask(id)), Info(UpdatingTask(Some(id)))]
                else
                  && response == ServerError
                  && service.operations.items == old(service.operations.items)
                  && service.logger.entries == old(service.logger.entries)
                       + [Info(GettingTask(id)), Error(InvalidPriorityValue(body.value.priority.value)), Error(UpdateTaskFailed(Some(id), InvalidPriority))]
    {
      if !PassesValidation(body) {
        return BadRequest;
      }
      var existing := service.GetTaskById(id);
      var step := UpdateTaskLookup(id, body.value, Success(existing));
      match step
      case Respond(result) =>
        response := Conclude(result);
      case Proceed(task) =>
        var after, outcome := service.UpdateTask(id, task, now);
        response := Conclude(UpdateTaskResult(task, outcome));
    }

    /** DELETE of one task by ID: the existence check, then the service's delete. */
    method DeleteTask(id: int) returns (response: Response)
      requires service.operations.Valid()
      modifies service.operations, service.logger
      ensures service.operations.Valid()
      ensures Lookup(old(service.operations.items), id).None? ==>
                && response == NotFound
                && service.operations.items == old(service.operations.items)
                && service.logger.entries == old(service.logger.entries) + [Info(GettingTask(id))]
      ensures Lookup(old(service.operations.items), id).Some? ==>
                && response == NoContent
                && service.operations.items == RemovedItems(old(service.operations.items), id)
                && service.logger.entries == old(service.logger.entries) + [Info(GettingTask(id)), Info(DeletingTask(id))]
    {
      var existing := service.GetTaskById(id);
      var step := DeleteTaskLookup(id, Success(existing));
      match step
      case Respond(result) =>
        response := Conclude(result);
      case Proceed(target) =>
        service.DeleteTask(target);
        response := Conclude(DeleteTaskResult(target, Pass));
    }
  }
}
