/**
 * The error kinds of the scheduler manager: its own four exceptions, and the
 * exceptions of the scheduling library and of the Python runtime that its
 * operations let through.
 */
module SchedulerExceptions {

  datatype SchedulerError =
    | JobNotFound(jobId: string)
    | UnknownJobFunction(jobName: string)
    | SchedulerAlreadyRunning
    | SchedulerStopped
    // raised by the scheduling library
    | ConflictingIdError(jobId: string)
    | StoreAliasInUse
    | LibraryAlreadyRunning
    | LibraryNotRunning
    // raised by the runtime when a registry entry is indexed by "func" but is not a record
    | TypeError(jobName: string)
}
