/**
 * The schedule data source the constraint-model builder reads: the jobs, each
 * job's ordered task list, the resources, a total lookup from (job, resource)
 * to the task that runs there, and the upper bound on the makespan.
 * How the data is loaded and how the bound is computed are not modelled;
 * they are inputs.
 */
module ShopData {

  datatype Option<T> = None | Some(value: T)

  datatype Result<T, E> = Ok(value: T) | Err(error: E)

  /** One operation: it occupies `resource` for `duration` time units. */
  datatype Task = Task(resource: int, duration: nat)

  datatype JobShopData = JobShopData(
    jobs: seq<int>,                          // job identifiers, in iteration order
    resources: seq<int>,                     // resource identifiers, in iteration order
    jobTasks: map<int, seq<Task>>,           // job -> its tasks, in execution order
    resourceJobTasks: map<(int, int), Task>, // (job, resource) -> the task of that job on that resource
    maxMakespan: nat)                        // upper bound on any schedule's completion time

  /** Every job has a task list. */
  predicate HasTaskLists(d: JobShopData)
  {
    forall j :: j in d.jobs ==> j in d.jobTasks
  }

  /** Every task of every job runs on one of the listed resources. */
  predicate TasksOnResources(d: JobShopData)
    requires HasTaskLists(d)
  {
    forall j, t :: j in d.jobs && 0 <= t < |d.jobTasks[j]| ==> d.jobTasks[j][t].resource in d.resources
  }

  /** The (job, resource) lookup answers for every job and every resource. */
  predicate LookupTotal(d: JobShopData)
  {
    forall j, i :: j in d.jobs && i in d.resources ==> (j, i) in d.resourceJobTasks
  }

  /** Every job has at least one task (its last task is read by the makespan constraint). */
  predicate NonEmptyJobs(d: JobShopData)
    requires HasTaskLists(d)
  {
    forall j :: j in d.jobs ==> |d.jobTasks[j]| > 0
  }

  /** What the builder relies on the data source for. */
  predicate WellFormed(d: JobShopData)
  {
    HasTaskLists(d) && TasksOnResources(d) && LookupTotal(d) && NonEmptyJobs(d)
  }

  /** The duration of job `j`'s operation on resource `i`, as the lookup reports it. */
  function DurationOn(d: JobShopData, j: int, i: int): nat
    requires (j, i) in d.resourceJobTasks
  {
    d.resourceJobTasks[(j, i)].duration
  }

  /** The last task of job `j`. */
  function LastTask(d: JobShopData, j: int): Task
    requires j in d.jobTasks && |d.jobTasks[j]| > 0
  {
    d.jobTasks[j][|d.jobTasks[j]| - 1]
  }

  /** Appending in two steps is appending the concatenation. */
  lemma AppendAssociative<T>(a: seq<T>, b: seq<T>, c: seq<T>)
    ensures a + b + c == a + (b + c)
  {
  }
}
