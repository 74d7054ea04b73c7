/**
 * The fixed table from job name to the handler that runs the job.
 *
 * The scheduler manager reads an entry as a record and takes its "func" item,
 * while the table itself stores the handler callable directly.  Both shapes of
 * entry are modelled so that the consequence of the difference can be stated.
 */
module JobRegistry {
  import opened Wrappers

  /** The registered job handlers, as opaque capabilities. */
  datatype Handler = NotifyStudents

  /** A registry entry: a bare callable, or a record whose "func" item is the callable. */
  datatype RegistryItem = BareCallable(callable: Handler) | FuncRecord(func: Handler)

  /** Why a job name does not resolve to a handler. */
  datatype LookupError =
    | NotRegistered(jobName: string)       // the name is not registered
    | NotSubscriptable(jobName: string)    // the entry cannot be indexed by "func"

  const NotifyStudentsName: string := "notify_students"

  /** The table as it is written: the name maps to the callable itself. */
  const RegistryAsWritten: map<string, RegistryItem> := map[NotifyStudentsName := BareCallable(NotifyStudents)]

  /** The table in the shape the scheduler manager reads: the name maps to a `{func: callable}` record. */
  const Registry: map<string, RegistryItem> := map[NotifyStudentsName := FuncRecord(NotifyStudents)]

  /**
   * `JOB_REGISTRY.get(name)`, refused when absent, followed by `item["func"]`,
   * which only a record supports.
   */
  function ResolveHandler(registry: map<string, RegistryItem>, jobName: string): (r: Result<Handler, LookupError>)
    ensures jobName !in registry ==> r == Failure(NotRegistered(jobName))
    ensures jobName in registry && registry[jobName].BareCallable? ==> r == Failure(NotSubscriptable(jobName))
    ensures r.Success? <==> jobName in registry && registry[jobName].FuncRecord?
    ensures r.Success? ==> r.value == registry[jobName].func
  {
    if jobName !in registry then Failure(NotRegistered(jobName))
    else match registry[jobName]
      case BareCallable(_) => Failure(NotSubscriptable(jobName))
      case FuncRecord(f) => Success(f)
  }

  /** With the table as written, no job name ever resolves to a handler. */
  lemma AsWrittenNeverResolves(jobName: string)
    ensures ResolveHandler(RegistryAsWritten, jobName).Failure?
    ensures jobName == NotifyStudentsName ==>
      ResolveHandler(RegistryAsWritten, jobName) == Failure(NotSubscriptable(jobName))
  {
  }

  /** With the record-shaped table, exactly the registered names resolve, each to its own handler. */
  lemma RegistryResolves(jobName: string)
    ensures ResolveHandler(Registry, jobName).Success? <==> jobName in Registry
    ensures jobName == NotifyStudentsName ==> ResolveHandler(Registry, jobName) == Success(NotifyStudents)
  {
  }
}
