/**
 * The scheduler object: it owns the constraint model, the decision
 * variables and the extracted solution, and its methods fill them in step by
 * step, exactly as the builder's loops do. `RunShopScheduler` is the
 * configuration guard and the fixed order in which a model is assembled.
 */
module Scheduler {
  import opened ShopData
  import opened Names
  import opened Constraints
  import opened Families
  import opened Extraction

  /** Builds a job shop scheduling model and reads a solver's answer back. */
  class JobShopSchedulingCqm {
    const modelData: JobShopData
    var cqmDefined: bool              // a model object exists
    var constraints: seq<Constraint>  // the model's constraints, in the order they were added
    var objective: Option<IntVar>     // the variable the model minimises
    var x: map<(int, int), IntVar>
    var y: map<(int, int, int), BinVar>
    var makespan: Option<IntVar>
    var solution: seq<Entry>          // insertion-ordered (job, resource) -> (task, start, duration)
    var completionTime: int

    constructor (data: JobShopData)
      ensures modelData == data && !cqmDefined && constraints == [] && objective == None
      ensures x == map[] && y == map[] && makespan == None
      ensures solution == [] && completionTime == 0
    {
      modelData := data;
      cqmDefined := false;
      constraints := [];
      objective := None;
      x := map[];
      y := map[];
      makespan := None;
      solution := [];
      completionTime := 0;
    }

    /** A fresh, empty model. */
    method DefineCqmModel()
      modifies this`cqmDefined, this`constraints, this`objective
      ensures cqmDefined && constraints == [] && objective == None
    {
      cqmDefined := true;
      constraints := [];
      objective := None;
    }

    /** The makespan variable, a start time per (job, resource) and an indicator per (j, k, i). */
    method DefineVariables(d: JobShopData)
      modifies this`x, this`y, this`makespan
      ensures VariablesDefined(d)
      ensures StartTimesDeclared(d) && OrdersDeclared(d)
    {
      makespan := Some(MakespanVar(d));
      x := StartTimeVars(d);
      y := OrderVars(d);
    }

    /** The variables are the ones `DefineVariables(d)` declares. */
    predicate VariablesDefined(d: JobShopData)
      reads this`x, this`y, this`makespan
    {
      makespan == Some(MakespanVar(d)) && x == StartTimeVars(d) && y == OrderVars(d)
    }

    /** Minimise the makespan variable. */
    method DefineObjectiveFunction()
      requires cqmDefined
      modifies this`objective
      ensures objective == makespan
    {
      objective := makespan;
    }

    /** A start-time variable exists for every (job, resource) pair of `d`. */
    predicate StartTimesDeclared(d: JobShopData)
      reads this`x
    {
      forall j, i :: j in d.jobs && i in d.resources ==> (j, i) in x
    }

    /** An ordering indicator exists for every (j, k, i) triple of `d`. */
    predicate OrdersDeclared(d: JobShopData)
      reads this`y
    {
      forall j, k, i :: j in d.jobs && k in d.jobs && i in d.resources ==> (j, k, i) in y
    }

    /** What the exclusivity loops rely on: a model, a total lookup and every variable they mention declared. */
    predicate PairsReady(d: JobShopData)
      reads this`cqmDefined, this`x, this`y
    {
      cqmDefined && LookupTotal(d) && StartTimesDeclared(d) && OrdersDeclared(d)
    }

    /** Appends one constraint to the model. */
    method AddConstraint(c: Constraint)
      requires cqmDefined
      modifies this`constraints
      ensures constraints == old(constraints) + [c]
    {
      constraints := constraints + [c];
    }

    /** For each job, each task starts no earlier than its predecessor ends. */
    method AddPrecedenceConstraints(d: JobShopData)
      requires cqmDefined && HasTaskLists(d) && TasksOnResources(d) && StartTimesDeclared(d)
      modifies this`constraints
      ensures constraints == old(constraints) + PrecedenceConstraints(d, d.jobs)
    {
      for n := 0 to |d.jobs|
        invariant constraints == old(constraints) + PrecedenceConstraints(d, d.jobs[..n])
      {
        var job := d.jobs[n];
        PrecedenceStep(d, n);
        AddJobPrecedence(d, job);
        AppendAssociative(old(constraints), PrecedenceConstraints(d, d.jobs[..n]), JobPrecedence(job, d.jobTasks[job]));
      }
      assert d.jobs[..|d.jobs|] == d.jobs;
    }

    /** The precedence constraints of one job, for the pairs (prev, curr) of zip(tasks[:-1], tasks[1:]). */
    method AddJobPrecedence(d: JobShopData, job: int)
      requires cqmDefined && HasTaskLists(d) && TasksOnResources(d) && StartTimesDeclared(d) && job in d.jobs
      modifies this`constraints
      ensures constraints == old(constraints) + JobPrecedence(job, d.jobTasks[job])
    {
      var tasks := d.jobTasks[job];
      var t := 0;
      while t + 1 < |tasks|
        invariant 0 <= t <= |JobPrecedence(job, tasks)|
        invariant constraints == old(constraints) + JobPrecedence(job, tasks)[..t]
      {
        var prev, curr := tasks[t], tasks[t + 1];
        assert (job, curr.resource) in x && (job, prev.resource) in x;
        AddConstraint(Precedence(job, curr.resource, prev.resource, prev.duration));
        assert JobPrecedence(job, tasks)[..t + 1] == JobPrecedence(job, tasks)[..t] + [PrecedenceAt(job, tasks, t)];
        AppendAssociative(old(constraints), JobPrecedence(job, tasks)[..t], [PrecedenceAt(job, tasks, t)]);
        t := t + 1;
      }
      assert JobPrecedence(job, tasks)[..t] == JobPrecedence(job, tasks);
    }

    /** For every pair of jobs j < k and every resource both use for a positive time, one bilinear constraint. */
    method AddQuadraticOverlapConstraint(d: JobShopData)
      requires PairsReady(d)
      modifies this`constraints
      ensures constraints == old(constraints) + OverlapConstraints(d, d.jobs)
    {
      for a := 0 to |d.jobs|
        invariant constraints == old(constraints) + OverlapConstraints(d, d.jobs[..a])
      {
        var j := d.jobs[a];
        OverlapStep(d, a);
        AddJobOverlaps(d, j);
        AppendAssociative(old(constraints), OverlapConstraints(d, d.jobs[..a]), JobOverlaps(d, j, d.jobs));
      }
      assert d.jobs[..|d.jobs|] == d.jobs;
    }

    /** The middle loop of the bilinear family: job j against every job k. */
    method AddJobOverlaps(d: JobShopData, j: int)
      requires PairsReady(d) && j in d.jobs
      modifies this`constraints
      ensures constraints == old(constraints) + JobOverlaps(d, j, d.jobs)
    {
      for b := 0 to |d.jobs|
        invariant constraints == old(constraints) + JobOverlaps(d, j, d.jobs[..b])
      {
        var k := d.jobs[b];
        JobOverlapsStep(d, j, b);
        if j < k {
          AddPairOverlaps(d, j, k);
          AppendAssociative(old(constraints), JobOverlaps(d, j, d.jobs[..b]), PairOverlaps(d, j, k, d.resources));
        }
      }
      assert d.jobs[..|d.jobs|] == d.jobs;
    }

    /** The inner loop of the bilinear family: jobs j < k on every resource. */
    method AddPairOverlaps(d: JobShopData, j: int, k: int)
      requires PairsReady(d)
      requires j in d.jobs && k in d.jobs
      modifies this`constraints
      ensures constraints == old(constraints) + PairOverlaps(d, j, k, d.resources)
    {
      for c := 0 to |d.resources|
        invariant constraints == old(constraints) + PairOverlaps(d, j, k, d.resources[..c])
      {
        var i := d.resources[c];
        PairOverlapsStep(d, j, k, c);
        var taskK := d.resourceJobTasks[(k, i)];
        var taskJ := d.resourceJobTasks[(j, i)];
        if taskK.duration > 0 && taskJ.duration > 0 {
          assert (j, i) in x && (k, i) in x && (j, k, i) in y;
          AddConstraint(Overlap(j, k, i, taskJ.duration, taskK.duration));
          AppendAssociative(old(constraints), PairOverlaps(d, j, k, d.resources[..c]), [OverlapAt(d, j, k, i)]);
        }
      }
      assert d.resources[..|d.resources|] == d.resources;
    }

    /** For every pair of jobs j < k and every resource, the two big-M constraints with M = maxMakespan. */
    method AddDisjunctiveConstraints(d: JobShopData)
      requires PairsReady(d)
      modifies this`constraints
      ensures constraints == old(constraints) + DisjunctiveConstraints(d, d.jobs)
    {
      var v := d.maxMakespan;
      for a := 0 to |d.jobs|
        invariant constraints == old(constraints) + DisjunctiveConstraints(d, d.jobs[..a])
      {
        var j := d.jobs[a];
        DisjunctiveStep(d, a);
        AddJobDisjunctions(d, j, v);
        AppendAssociative(old(constraints), DisjunctiveConstraints(d, d.jobs[..a]), JobDisjunctions(d, j, d.jobs));
      }
      assert d.jobs[..|d.jobs|] == d.jobs;
    }

    /** The middle loop of the disjunctive family: job j against every job k. */
    method AddJobDisjunctions(d: JobShopData, j: int, v: int)
      requires PairsReady(d) && j in d.jobs
      requires v == d.maxMakespan
      modifies this`constraints
      ensures constraints == old(constraints) + JobDisjunctions(d, j, d.jobs)
    {
      for b := 0 to |d.jobs|
        invariant constraints == old(constraints) + JobDisjunctions(d, j, d.jobs[..b])
      {
        var k := d.jobs[b];
        JobDisjunctionsStep(d, j, b);
        if j < k {
          AddPairDisjunctions(d, j, k, v);
          AppendAssociative(old(constraints), JobDisjunctions(d, j, d.jobs[..b]), PairDisjunctions(d, j, k, d.resources));
        }
      }
      assert d.jobs[..|d.jobs|] == d.jobs;
    }

    /** The inner loop of the disjunctive family: jobs j < k on every resource. */
    method AddPairDisjunctions(d: JobShopData, j: int, k: int, v: int)
      requires PairsReady(d)
      requires j in d.jobs && k in d.jobs && v == d.maxMakespan
      modifies this`constraints
      ensures constraints == old(constraints) + PairDisjunctions(d, j, k, d.resources)
    {
      for c := 0 to |d.resources|
        invariant constraints == old(constraints) + PairDisjunctions(d, j, k, d.resources[..c])
      {
        var i := d.resources[c];
        PairDisjunctionsStep(d, j, k, c);
        assert (j, i) in x && (k, i) in x && (j, k, i) in y;
        var taskK := d.resourceJobTasks[(k, i)];
        AddConstraint(Disjunction1(j, k, i, taskK.duration, v));
        var taskJ := d.resourceJobTasks[(j, i)];
        AddConstraint(Disjunction2(j, k, i, taskJ.duration, v));
        AppendAssociative(old(constraints), PairDisjunctions(d, j, k, d.resources[..c]), [Disjunction1At(d, j, k, i), Disjunction2At(d, j, k, i)]);
      }
      assert d.resources[..|d.resources|] == d.resources;
    }

    /** Precedence, then exactly one exclusivity family, then makespan. */
    method AddAllConstraints(d: JobShopData, quadratic: bool)
      requires cqmDefined && WellFormed(d) && StartTimesDeclared(d) && OrdersDeclared(d)
      requires makespan.Some? && constraints == []
      modifies this`constraints
      ensures constraints == ModelConstraints(d, quadratic)
    {
      ghost var precedence := PrecedenceConstraints(d, d.jobs);
      ghost var exclusive := if quadratic then OverlapConstraints(d, d.jobs) else DisjunctiveConstraints(d, d.jobs);
      AddPrecedenceConstraints(d);
      assert constraints == [] + precedence == precedence;
      if quadratic {
        AddQuadraticOverlapConstraint(d);
      } else {
        AddDisjunctiveConstraints(d);
      }
      assert constraints == precedence + exclusive;
      AddMakespanConstraint(d);
    }

    /** For every job, the makespan is at least the end of its last task. */
    method AddMakespanConstraint(d: JobShopData)
      requires cqmDefined && HasTaskLists(d) && TasksOnResources(d) && NonEmptyJobs(d)
      requires StartTimesDeclared(d) && makespan.Some?
      modifies this`constraints
      ensures constraints == old(constraints) + MakespanConstraints(d, d.jobs)
    {
      for n := 0 to |d.jobs|
        invariant constraints == old(constraints) + MakespanConstraints(d, d.jobs[..n])
      {
        var job := d.jobs[n];
        var last := d.jobTasks[job][|d.jobTasks[job]| - 1];
        assert last.resource in d.resources;
        AddConstraint(MakespanBound(job, last.resource, last.duration));
        assert d.jobs[..n + 1][..n] == d.jobs[..n];
      }
      assert d.jobs[..|d.jobs|] == d.jobs;
    }

    /**
     * The post-processing of the local MIP solver's best sample, given as its
     * (name, value) items in order: the solution is rebuilt from the 'x'
     * names alone. The result reports the error Python would raise, if any;
     * the solution then holds what was stored before it.
     */
    method CallMipSolver(best: seq<(string, int)>) returns (failure: Option<Failure>)
      modifies this`solution
      ensures Extraction(solution, failure) == Absorb(modelData.resourceJobTasks, best)
      ensures DistinctKeys(solution) && FromLookup(modelData.resourceJobTasks, solution)
    {
      var lookup := modelData.resourceJobTasks;
      solution := [];
      failure := None;
      for n := 0 to |best|
        invariant Absorb(lookup, best[..n]) == Extraction(solution, None)
      {
        assert best[..n + 1][..n] == best[..n];
        assert Absorb(lookup, best[..n + 1]) == Advance(lookup, Absorb(lookup, best[..n]), best[n]);
        var (name, value) := best[n];
        if StartsWithX(name) {
          var parsed := ParseXName(name);
          if parsed.None? {
            failure := Some(MalformedName(name));
            AbsorbStopsAtFailure(lookup, best, n + 1);
            AbsorbInvariant(lookup, best);
            return;
          }
          var (job, machine) := parsed.value;
          if (job, machine) !in lookup {
            failure := Some(NoTask(job, machine));
            AbsorbStopsAtFailure(lookup, best, n + 1);
            AbsorbInvariant(lookup, best);
            return;
          }
          var task := lookup[(job, machine)];
          solution := Put(solution, Entry(job, machine, task, value, task.duration));
        }
      }
      assert best[..|best|] == best;
      AbsorbInvariant(lookup, best);
    }

    /** The schedule table: one row (Job, Task, Start, Finish, Resource) per solution entry, in order. */
    method SolutionAsDataframe() returns (rows: seq<Row>)
      ensures |rows| == |solution|
      ensures forall n :: 0 <= n < |rows| ==>
        rows[n].job == solution[n].job && rows[n].resource == solution[n].resource &&
        rows[n].task == solution[n].task && rows[n].start == solution[n].start &&
        rows[n].finish == solution[n].start + solution[n].duration
      ensures FromLookup(modelData.resourceJobTasks, solution) ==> forall n :: 0 <= n < |rows| ==>
        (rows[n].job, rows[n].resource) in modelData.resourceJobTasks &&
        rows[n].task == modelData.resourceJobTasks[(rows[n].job, rows[n].resource)] &&
        rows[n].finish == rows[n].start + rows[n].task.duration
    {
      rows := [];
      for n := 0 to |solution|
        invariant |rows| == n
        invariant forall m :: 0 <= m < n ==>
          rows[m].job == solution[m].job && rows[m].resource == solution[m].resource &&
          rows[m].task == solution[m].task && rows[m].start == solution[m].start &&
          rows[m].finish == solution[m].start + solution[m].duration
      {
        var e := solution[n];
        rows := rows + [Row(e.job, e.task, e.start, e.start + e.duration, e.resource)];
      }
    }
  }

  /**
   * The configuration guard of the scheduler: bilinear constraints together
   * with the MIP solver are refused before anything is built; otherwise the
   * model is assembled with the bilinear family exactly when it is allowed.
   */
  method RunShopScheduler(d: JobShopData, useMipSolver: bool, allowQuadraticConstraints: bool)
    returns (r: Result<JobShopSchedulingCqm, string>)
    requires WellFormed(d)
    ensures r.Err? <==> allowQuadraticConstraints && useMipSolver
    ensures r.Err? ==> r.error == "Cannot use quadratic constraints with MIP solver"
    ensures r.Ok? ==> fresh(r.value) && r.value.modelData == d
    ensures r.Ok? ==> r.value.constraints == ModelConstraints(d, allowQuadraticConstraints)
    ensures r.Ok? ==> r.value.objective == Some(MakespanVar(d))
    ensures r.Ok? ==> r.value.VariablesDefined(d)
  {
    if allowQuadraticConstraints && useMipSolver {
      return Err("Cannot use quadratic constraints with MIP solver");
    }
    var model := BuildModel(d, allowQuadraticConstraints);
    return Ok(model);
  }

  /**
   * Model assembly in the scheduler's order: variables, precedence, then
   * exactly one exclusivity family, then makespan, then the objective.
   */
  method BuildModel(d: JobShopData, quadratic: bool) returns (model: JobShopSchedulingCqm)
    requires WellFormed(d)
    ensures fresh(model) && model.modelData == d
    ensures model.constraints == ModelConstraints(d, quadratic)
    ensures model.objective == Some(MakespanVar(d))
    ensures model.VariablesDefined(d)
  {
    model := new JobShopSchedulingCqm(d);
    model.DefineCqmModel();
    model.DefineVariables(d);
    model.AddAllConstraints(d, quadratic);
    assert model.VariablesDefined(d);
    model.DefineObjectiveFunction();
  }
}
