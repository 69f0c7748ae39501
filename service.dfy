/**
 * The service layer (Application/Services/TaskService.cs): the business rules between the
 * endpoints and the storage port. Clock readings are parameters of the operations that read the clock.
 */
module Service {
  import opened Wrappers
  import opened Domain
  import opened Logging
  import opened Storage

  /** The first two statements of AddTaskAsync: CreatedDate and UpdatedDate from two successive clock readings. */
  function StampCreation(task: TaskItem, firstNow: int, secondNow: int): (r: TaskItem)
    ensures r.createdDate == Some(firstNow) && r.updatedDate == Some(secondNow)
    ensures r.(createdDate := task.createdDate, updatedDate := task.updatedDate) == task
    ensures firstNow <= secondNow ==> Chronological(r)
  {
    task.(createdDate := Some(firstNow)).(updatedDate := Some(secondNow))
  }

  /** The first statement of UpdateTaskAsync: UpdatedDate from the clock, CreatedDate untouched. */
  function StampUpdate(task: TaskItem, now: int): (r: TaskItem)
    ensures r.updatedDate == Some(now) && r.createdDate == task.createdDate
    ensures r.(updatedDate := task.updatedDate) == task
    ensures task.createdDate.Some? && task.createdDate.value < now ==> r.updatedDate.value > r.createdDate.value
  {
    task.(updatedDate := Some(now))
  }

  /**
   * The priority check of add and update. Enum.IsDefined throws ArgumentNullException on a null
   * priority; a value that names no member makes the service throw "Invalid Priority.".
   */
  function CheckPriority(priority: Option<int>): (r: Outcome<Exception>)
    ensures r == Pass <==> priority.Some? && IsDefinedPriority(priority.value)
    ensures priority.None? ==> r == Fail(PriorityArgumentNull)
    ensures priority.Some? && !IsDefinedPriority(priority.value) ==> r == Fail(InvalidPriority)
  {
    match priority
    case None => Fail(PriorityArgumentNull)
    case Some(v) => if IsDefinedPriority(v) then Pass else Fail(InvalidPriority)
  }

  /** The entries the priority check writes: one error carrying the rejected value, or nothing. */
  function PriorityLog(priority: Option<int>): (entries: seq<LogEntry>)
    ensures |entries| <= 1
    ensures entries != [] <==> CheckPriority(priority) == Fail(InvalidPriority)
    ensures entries != [] ==> entries == [Error(InvalidPriorityValue(priority.value))]
  {
    if priority.Some? && !IsDefinedPriority(priority.value) then [Error(InvalidPriorityValue(priority.value))] else []
  }

  /** Every named priority passes the check on both paths; the value 10 and a null priority are rejected. */
  lemma PriorityCheckCases(level: PriorityLevel)
    ensures CheckPriority(Some(PriorityValue(level))) == Pass
    ensures CheckPriority(Some(10)) == Fail(InvalidPriority) && PriorityLog(Some(10)) == [Error(InvalidPriorityValue(10))]
    ensures CheckPriority(None) == Fail(PriorityArgumentNull) && PriorityLog(None) == []
  {
    DefinedPriorities(10);
  }

  /**
   * A record added through the service, with clock readings no earlier than any previous one,
   * keeps every stored record chronological.
   */
  lemma AddKeepsChronology(items: seq<TaskItem>, task: TaskItem, before: int, firstNow: int, secondNow: int, generatedId: int)
    requires AllStampedBy(items, before)
    requires before <= firstNow <= secondNow
    ensures AllStampedBy(items + [WithKey(StampCreation(task, firstNow, secondNow), generatedId)], secondNow)
  {
    StampedByLater(items, before, secondNow);
    var s := items + [WithKey(StampCreation(task, firstNow, secondNow), generatedId)];
    forall i | 0 <= i < |s| ensures Chronological(s[i]) && s[i].updatedDate.value <= secondNow {
      if i < |items| { assert s[i] == items[i]; }
    }
  }

  /**
   * An update through the service, at a clock reading no earlier than any previous one, keeps
   * every stored record chronological; the updated record keeps its CreatedDate, carries the
   * new reading, and is strictly newer than it was created when the clock has advanced.
   */
  lemma UpdateStampsRecord(items: seq<TaskItem>, id: int, task: TaskItem, before: int, now: int)
    requires AllStampedBy(items, before) && before <= now
    ensures AllStampedBy(UpdatedItems(items, id, StampUpdate(task, now)), now)
    ensures Lookup(items, id).Some? ==>
              var e := Lookup(items, id).value;
              var e' := Lookup(UpdatedItems(items, id, StampUpdate(task, now)), id).value;
              && Lookup(UpdatedItems(items, id, StampUpdate(task, now)), id).Some?
              && e'.id == e.id && e'.createdDate == e.createdDate && e'.updatedDate == Some(now)
              && (e.createdDate.value < now ==> e'.updatedDate.value > e'.createdDate.value)
  {
    StampedByLater(items, before, now);
    UpdateKeepsChronology(items, id, StampUpdate(task, now), now);
    UpdateLookup(items, id, StampUpdate(task, now), id);
  }

  /** Every stored record carries a defined priority. */
  predicate AllDefined(items: seq<TaskItem>)
  {
    forall i :: 0 <= i < |items| ==> items[i].priority.Some? && IsDefinedPriority(items[i].priority.value)
  }

  /** A record the service lets through to the store on add carries a defined priority, so the store keeps AllDefined. */
  lemma AddKeepsDefined(items: seq<TaskItem>, task: TaskItem, firstNow: int, secondNow: int, generatedId: int)
    requires AllDefined(items)
    requires CheckPriority(task.priority) == Pass
    ensures AllDefined(items + [WithKey(StampCreation(task, firstNow, secondNow), generatedId)])
  {
    var s := items + [WithKey(StampCreation(task, firstNow, secondNow), generatedId)];
    forall i | 0 <= i < |s| ensures s[i].priority.Some? && IsDefinedPriority(s[i].priority.value) {
      if i < |items| { assert s[i] == items[i]; }
    }
  }

  /** An update the service lets through copies a defined priority onto the record, so the store keeps AllDefined. */
  lemma UpdateKeepsDefined(items: seq<TaskItem>, id: int, task: TaskItem, now: int)
    requires AllDefined(items)
    requires CheckPriority(task.priority) == Pass
    ensures AllDefined(UpdatedItems(items, id, StampUpdate(task, now)))
  {
  }

  /** The service: validates and stamps, logs, and hands everything else to the store. */
  class TaskService {
    const operations: TaskOperations
    const logger: Logger

    constructor (operations: TaskOperations, logger: Logger)
      ensures this.operations == operations && this.logger == logger
    {
      this.operations := operations;
      this.logger := logger;
    }

    /** GetAllTasksAsync: logs, then returns exactly what the store returns. */
    method GetAllTasks() returns (tasks: seq<TaskItem>)
      modifies logger
      ensures tasks == operations.items
      ensures logger.entries == old(logger.entries) + [Info(GettingAllTasks)]
    {
      logger.LogInfo(GettingAllTasks);
      tasks := operations.GetAll();
    }

    /** GetTaskByIdAsync: logs the ID, then returns the store's answer, null on absence. */
    method GetTaskById(id: int) returns (task: Option<TaskItem>)
      modifies logger
      ensures task == Lookup(operations.items, id)
      ensures logger.entries == old(logger.entries) + [Info(GettingTask(id))]
    {
      logger.LogInfo(GettingTask(id));
      task := operations.GetById(id);
    }

    /**
     * AddTaskAsync. `after` is the caller's object once the call is over: its dates are
     * overwritten whatever happens next. A rejected priority leaves the store untouched; an
     * accepted one logs the title and passes the stamped object to the store.
     */
    method AddTask(task: TaskItem, firstNow: int, secondNow: int, generatedId: int) returns (after: TaskItem, outcome: Outcome<Exception>)
      requires operations.Valid()
      modifies operations, logger
      ensures operations.Valid()
      ensures CheckPriority(task.priority).Fail? ==>
                && outcome == CheckPriority(task.priority)
                && after == StampCreation(task, firstNow, secondNow)
                && operations.items == old(operations.items)
                && logger.entries == old(logger.entries) + PriorityLog(task.priority)
      ensures CheckPriority(task.priority).Pass? ==>
                && after == WithKey(StampCreation(task, firstNow, secondNow), generatedId)
                && outcome == (if Lookup(old(operations.items), after.id.value).Some? then Fail(DuplicateKey(after.id.value)) else Pass)
                && operations.items == (if outcome.Pass? then old(operations.items) + [after] else old(operations.items))
                && logger.entries == old(logger.entries) + [Info(AddingTask(task.title))]
    {
      after := task.(createdDate := Some(firstNow));
      after := after.(updatedDate := Some(secondNow));
      outcome := CheckPriority(after.priority);
      if outcome.Fail? {
        if outcome.error == InvalidPriority {
          logger.LogError(InvalidPriorityValue(after.priority.value));
        }
        return;
      }
      logger.LogInfo(AddingTask(after.title));
      after, outcome := operations.Add(after, generatedId);
    }

    /**
     * UpdateTaskAsync. `after` is the caller's object once the call is over: UpdatedDate is
     * overwritten whatever happens next. A rejected priority never reaches the store, for any
     * ID; an accepted one logs the payload's own ID and delegates to the store under `id`.
     */
    method UpdateTask(id: int, task: TaskItem, now: int) returns (after: TaskItem, outcome: Outcome<Exception>)
      requires operations.Valid()
      modifies operations, logger
      ensures operations.Valid()
      ensures after == StampUpdate(task, now)
      ensures outcome == CheckPriority(task.priority)
      ensures outcome.Fail? ==>
                && operations.items == old(operations.items)
                && logger.entries == old(logger.entries) + PriorityLog(task.priority)
      ensures outcome.Pass? ==>
                && operations.items == UpdatedItems(old(operations.items), id, after)
                && logger.entries == old(logger.entries) + [Info(UpdatingTask(task.id))]
    {
      after := task.(updatedDate := Some(now));
      outcome := CheckPriority(after.priority);
      if outcome.Fail? {
        if outcome.error == InvalidPriority {
          logger.LogError(InvalidPriorityValue(after.priority.value));
        }
        return;
      }
      logger.LogInfo(UpdatingTask(after.id));
      operations.Update(id, after);
    }

    /** DeleteTaskAsync: no check of its own; logs the ID and asks the store to delete it. */
    method DeleteTask(id: int)
      requires operations.Valid()
      modifies operations, logger
      ensures operations.Valid()
      ensures operations.items == RemovedItems(old(operations.items), id)
      ensures logger.entries == old(logger.entries) + [Info(DeletingTask(id))]
    {
      logger.LogInfo(DeletingTask(id));
      operations.Delete(id);
    }
  }
}
