/**
 * The logger port as structured events. The file appends and timestamp formatting of
 * Infrastructure/Logger/Logger.cs are not modelled; the log is the sequence of entries written.
 */
module Logging {
  import opened Wrappers
  import opened Domain

  /** The informational messages of the service. */
  datatype InfoMessage =
    | GettingAllTasks                       // the list of all tasks is requested
    | GettingTask(id: int)                  // one task is requested by its ID
    | AddingTask(title: Option<string>)     // a task is about to be stored, named by its title
    | UpdatingTask(taskId: Option<int>)     // a task is about to be updated, named by the payload's own ID
    | DeletingTask(id: int)                 // a task is about to be deleted, named by the requested ID

  /** The error messages of the service and of the controller's catch blocks. */
  datatype ErrorMessage =
    | InvalidPriorityValue(priority: int)                      // the service rejected this priority value
    | GetTasksFailed(cause: Exception)                         // listing all tasks threw
    | GetTaskFailed(id: int, cause: Exception)                 // fetching the task with this ID threw
    | CreateTaskFailed(title: Option<string>, cause: Exception) // creating the task with this title threw
    | UpdateTaskFailed(taskId: Option<int>, cause: Exception)  // updating threw; the payload's ID at that moment
    | DeleteTaskFailed(id: int, cause: Exception)              // deleting the task with this ID threw

  datatype LogEntry = Info(info: InfoMessage) | Error(error: ErrorMessage)

  /** The logger: LogInfo and LogError each append exactly one entry. */
  class Logger {
    ghost var entries: seq<LogEntry>

    constructor ()
      ensures entries == []
    {
      entries := [];
    }

    method LogInfo(message: InfoMessage)
      modifies this
      ensures entries == old(entries) + [Info(message)]
    {
      entries := entries + [Info(message)];
    }

    method LogError(message: ErrorMessage)
      modifies this
      ensures entries == old(entries) + [Error(message)]
    {
      entries := entries + [Error(message)];
    }
  }
}
