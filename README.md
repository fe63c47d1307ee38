# Job shop scheduling model builder, in Dafny

This project models the core of a job shop scheduler that states a job shop
scheduling problem as a constrained model and reads a solver's answer back.
The scheduler object (`JobShopSchedulingCQM` in `src/job_shop_scheduler.py`)
does the following:

- it declares a start-time variable `x[j, i]` for every job and resource, an
  ordering indicator `y[j, k, i]` for every triple of two jobs and a resource,
  and a makespan variable;
- it adds, in this order, the precedence constraints of each job, one of two
  resource-exclusivity families (bilinear "overlap" constraints, or pairs of
  big-M "disjunctive" constraints with M = maxMakespan), and the makespan
  constraints;
- it sets the objective to the makespan;
- on the MIP path, it rebuilds the solution dictionary from the sample's
  `x{j}_{i}` names and turns it into a table of
  (Job, Task, Start, Finish, Resource) rows.

`run_shop_scheduler` refuses bilinear constraints together with the MIP
solver. Otherwise it builds the model with the family its flag selects.

Modules, one file each:

- `ShopData` (`shop_data.dfy`): the data source is an input value. It holds
  the job ids, the resource ids, each job's ordered task list, the
  (job, resource) → task lookup and the bound maxMakespan.
- `Names` (`names.dfy`): `str()` of an integer, `str.split` on one character,
  `int()` of a string, variable names and constraint labels.
- `Constraints` (`constraints.dfy`): the five constraint shapes with their
  literal integer coefficients, assignments, and `Holds`. `Holds` evaluates a
  constraint's inequality and is false when a variable it mentions has no
  value. Also the per-pair meaning of the big-M and bilinear constraints.
- `Families` (`families.dfy`): each constraint family and the variable
  declarations as functions of the data. Lemmas give exact membership and
  counts. They prove that satisfying the model gives a valid schedule and
  that every valid schedule within the horizon satisfies the model. They also
  relate the two exclusivity families.
- `Extraction` (`extraction.dfy`): the MIP post-processing loop as a fold
  over the sample's items, with the insertion-ordered solution dictionary.
- `Scheduler` (`scheduler.dfy`): the scheduler as a class. Its fields are
  the constraint list, the variables, the objective, the solution and the
  completion time. Its methods are the builder's loops. Each method is proved
  against the family function it appends. `RunShopScheduler` is the guard
  plus the assembly order.

Facts about the code that the model keeps:

- Lines 46-49 declare `x` for every job × resource pair, whether or not the
  pair has a task.
- The comment at lines 51-52 describes `y[j, k, i]` as "job j precedes job k
  on machine i". Lines 53-56 declare `y` for every (j, k, i) triple: j = k is
  included, and so are both (j, k) and (k, j). The constraints use only the
  j < k triples (lines 92 and 118). No constraint links `y[j, k, i]` to
  `y[k, j, i]`.
- The big-M family (lines 116-128) adds its two constraints on every
  resource, zero-duration operations included. The bilinear family skips a
  resource where either duration is 0 (line 97). So the bilinear family
  promises exclusivity only where both operations take time
  (`ResourcesExclusive(d, a, true)`). Its completeness asks for no more than
  that, and for no horizon.
- The MIP extraction (lines 192-197) does not check that every
  (job, resource) pair is present. It stores what the sample names. It
  raises only on a name that does not parse or on a pair the lookup lacks.
- `call_mip_solver` (lines 178-197) never sets `completion_time`.
  `CallMipSolver` modifies only the solution.
- The precedence label `pj{job}_m{machine}` (line 80) names only the job and
  the machine of the later task of a pair. Two precedence constraints of a
  job share a label exactly when a machine appears twice among the job's
  tasks after the first (`PrecedenceLabelsClash`). A job whose first task's
  machine comes back later causes no clash. Labels also repeat when `jobs`
  lists a job twice. Otherwise the labels of different constraints differ
  exactly when their kinds or identifiers differ (`LabelsIdentify`).

## Model

| member | source | states |
|---|---|---|
| Names.IntToString | src/job_shop_scheduler.py:47 | `str()` of an integer is non-empty and holds no '_', so it can sit between the separators of a name |
| Names.ParseInt | src/job_shop_scheduler.py:196 | `int()` accepts only a non-empty string whose characters after the first are digits; a negative result comes from a leading '-', and a leading '-' gives no positive result; anything else is the ValueError, `None` |
| Names.IntToStringInjective | src/job_shop_scheduler.py:47 | different integers have different `str()` renderings |
| Names.ParseIntOfIntToString | src/job_shop_scheduler.py:196 | `int(str(n)) == n` for every integer n, negative ones included |
| Names.Split | src/job_shop_scheduler.py:195 | `split` on one character gives at least one part, and a string without the separator gives itself |
| Names.SplitAfterSeparator | src/job_shop_scheduler.py:195 | splitting `a + sep + b`, where `a` holds no separator, gives `a` and then the parts of `b` |
| Names.XName | src/job_shop_scheduler.py:47 | the start-time name `x{j}_{i}` starts with 'x' |
| Names.YName | src/job_shop_scheduler.py:53 | the indicator name `y{j}_{k}_{i}` starts with 'y' |
| Names.ParseXName | src/job_shop_scheduler.py:195-196 | `var[1:].split('_')` must give two parts that `int()` accepts, else `None`; a name that parses has a '_' after its first character |
| Names.XNameRoundTrip | src/job_shop_scheduler.py:194-196 | the name `'x{j}_{i}'` given at line 47 starts with 'x' and parses back to exactly (j, i) |
| Names.OnlyStartTimesStartWithX | src/job_shop_scheduler.py:194 | start-time names pass the `startswith('x')` test; indicator names `y…` and `makespan` fail it |
| Names.XNameInjective | src/job_shop_scheduler.py:47 | different (job, resource) pairs get different start-time names |
| Names.PrecedenceLabel | src/job_shop_scheduler.py:80 | the label `'pj{}_m{}'.format(job, machine_curr)`; `PrecedenceLabelInjective` states what it determines |
| Names.OverlapLabel | src/job_shop_scheduler.py:104 | the label `'OneJobj{}_j{}_m{}'.format(j, k, i)`; `OverlapLabelInjective` states what it determines |
| Names.Disjunction1Label | src/job_shop_scheduler.py:123 | the label `'disjunction1{}_j{}_m{}'.format(j, k, i)`; `Disjunction1LabelInjective` states what it determines |
| Names.Disjunction2Label | src/job_shop_scheduler.py:128 | the label `'disjunction2{}_j{}_m{}'.format(j, k, i)`; `Disjunction2LabelInjective` states what it determines |
| Names.MakespanLabel | src/job_shop_scheduler.py:143 | the label `'makespan_ctr{}'.format(job)`; `MakespanLabelInjective` states what it determines |
| Names.PrecedenceLabelInjective | src/job_shop_scheduler.py:80 | the label `pj{job}_m{machine}` determines the job and the machine |
| Names.OverlapLabelInjective | src/job_shop_scheduler.py:104 | the label `OneJobj{j}_j{k}_m{i}` determines j, k and i |
| Names.Disjunction1LabelInjective | src/job_shop_scheduler.py:123 | the label `disjunction1{j}_j{k}_m{i}` determines j, k and i |
| Names.Disjunction2LabelInjective | src/job_shop_scheduler.py:128 | the label `disjunction2{j}_j{k}_m{i}` determines j, k and i |
| Names.MakespanLabelInjective | src/job_shop_scheduler.py:143 | the label `makespan_ctr{job}` determines the job |
| Constraints.Label | src/job_shop_scheduler.py:78-143 | the label the builder passes with each constraint, by kind; `LabelsIdentify` states when two labels are equal |
| Constraints.LabelsIdentify | src/job_shop_scheduler.py:78-143 | two constraints get the same label iff they are of the same kind and name the same jobs and resource (the machine, for precedence); the five label formats never collide with each other |
| Constraints.Holds | src/job_shop_scheduler.py:77-142 | the five inequalities the builder writes (lines 77-79, 98-103, 121-128 and 141-142), with their literal coefficients, under an assignment that gives every variable they mention a value; their meaning is stated by the lemmas below and by the soundness and completeness lemmas of `Families` |
| Constraints.DisjunctionsSeparate | src/job_shop_scheduler.py:121-128 | if both big-M constraints of a pair hold, then y = false forces x[j] ≥ x[k] + d_k, y = true forces x[k] ≥ x[j] + d_j, and either way the two intervals are disjoint |
| Constraints.DisjunctionsAdmitDisjoint | src/job_shop_scheduler.py:121-128 | two disjoint intervals within [0, M] satisfy both big-M constraints when y records which comes first |
| Constraints.OverlapMeaning | src/job_shop_scheduler.py:98-104 | the bilinear constraint holds iff (y = 0 and x_j − x_k ≥ d_k) or (y = 1 and x_k − x_j ≥ d_j) |
| Constraints.OverlapMatchesDisjunctions | src/job_shop_scheduler.py:107-128 | within [0, M], the bilinear constraint holds iff both big-M constraints hold, for the same y, so the families are alternatives pair by pair |
| Families.StartTimeVars | src/job_shop_scheduler.py:46-49 | a variable exists for (j, i) iff j is a job and i a resource; each is named `x{j}_{i}` with bounds [0, maxMakespan] |
| Families.OrderVars | src/job_shop_scheduler.py:53-56 | an indicator exists for (j, k, i) iff j and k are jobs and i a resource; each is named `y{j}_{k}_{i}` |
| Families.OrderVarsIncludeDiagonal | src/job_shop_scheduler.py:53-56 | the diagonal triples (j, j, i) are declared too |
| Families.MakespanVar | src/job_shop_scheduler.py:42-43 | the makespan variable is named `makespan` with bounds [0, maxMakespan] |
| Families.JobPrecedence | src/job_shop_scheduler.py:74-80 | a job with n tasks gives n − 1 constraints (0 if none); the t-th says x[job, task t+1's resource] − x[job, task t's resource] ≥ task t's duration |
| Families.SingleTaskJobHasNoPrecedence | src/job_shop_scheduler.py:74 | a single-task job gives no precedence constraint |
| Families.PrecedenceLabelsClash | src/job_shop_scheduler.py:73-80 | two precedence constraints of one job get the same label iff their later tasks run on the same machine |
| Families.JobPrecedenceMembers | src/job_shop_scheduler.py:74-80 | a constraint belongs to a job's precedence list iff it is the one for some consecutive task pair |
| Families.PrecedenceMembers | src/job_shop_scheduler.py:73-80 | the precedence family holds exactly the consecutive-task constraints of the listed jobs |
| Families.PairDisjunctions | src/job_shop_scheduler.py:119-128 | a pair j < k gives exactly two constraints per resource |
| Families.DisjunctiveMembers | src/job_shop_scheduler.py:116-128 | the disjunctive family holds exactly the two big-M constraints, with M = maxMakespan and the lookup's durations, of every j < k on every resource, and nothing for j ≥ k |
| Families.JobDisjunctionsCount | src/job_shop_scheduler.py:117-128 | job j adds 2·|resources| constraints per later job k > j |
| Families.DisjunctiveCount | src/job_shop_scheduler.py:116-128 | the disjunctive family has 2·|resources|·(number of job pairs j < k) constraints |
| Families.PrecedenceConstraints | src/job_shop_scheduler.py:73-80 | the precedence family, job by job in job order; `PrecedenceMembers` states its members |
| Families.DisjunctiveConstraints | src/job_shop_scheduler.py:116-128 | the big-M family, for j in job order and k in job order with j < k, resource by resource; `DisjunctiveMembers` and `DisjunctiveCount` state its members and size |
| Families.BusyResources | src/job_shop_scheduler.py:93-97 | the resources, in order, on which both jobs of a pair take time; never more than there are resources |
| Families.BusyResourcesMembers | src/job_shop_scheduler.py:93-97 | a resource is listed as busy for a pair iff it is one of the resources and both durations on it are positive |
| Families.PairOverlaps | src/job_shop_scheduler.py:93-104 | a pair gives exactly as many bilinear constraints as it has busy resources, never more than one per resource |
| Families.PairOverlapsAt | src/job_shop_scheduler.py:93-104 | the n-th bilinear constraint of a pair is the one on the n-th busy resource, in resource order |
| Families.OverlapConstraints | src/job_shop_scheduler.py:90-104 | the bilinear family, for j in job order and k in job order with j < k; `OverlapMembers` and `OverlapCount` state its members and size |
| Families.JobOverlapsCount | src/job_shop_scheduler.py:91-104 | job j adds one bilinear constraint per later job k > j and per resource both use |
| Families.OverlapCount | src/job_shop_scheduler.py:90-104 | the bilinear family has one constraint per triple (j, k, i) with j < k and both durations on i positive |
| Families.OverlapHalvesDisjunctive | src/job_shop_scheduler.py:90-128 | when every operation takes time, the big-M family has exactly twice as many constraints as the bilinear family |
| Families.OverlapMembers | src/job_shop_scheduler.py:90-104 | the bilinear family holds exactly one constraint for every j < k and every resource where both durations are positive, and nothing else |
| Families.MakespanConstraints | src/job_shop_scheduler.py:138-143 | one constraint per job, in job order, each on the job's last task |
| Families.MakespanMembers | src/job_shop_scheduler.py:138-143 | a constraint is in the makespan family iff it is the last-task bound of one of the jobs |
| Families.ModelConstraints | src/job_shop_scheduler.py:244-249 | the model's constraints in the order `run_shop_scheduler` adds them: precedence, the family the flag selects, makespan; `OneExclusivityFamily`, `ModelSound` and `ModelComplete` state what it holds |
| Families.OneExclusivityFamily | src/job_shop_scheduler.py:245-248 | a built model holds bilinear constraints only when quadratic constraints are allowed, and big-M constraints only when they are not |
| Families.PrecedenceSound | src/job_shop_scheduler.py:73-80 | an assignment satisfying the precedence family starts every task no earlier than its predecessor ends |
| Families.MakespanSound | src/job_shop_scheduler.py:138-143 | an assignment satisfying the makespan family has makespan ≥ x[job, last resource] + last duration for every job |
| Families.DisjunctiveSound | src/job_shop_scheduler.py:116-128 | an assignment satisfying the disjunctive family never has two different jobs overlap on a resource |
| Families.OverlapSound | src/job_shop_scheduler.py:90-104 | an assignment satisfying the bilinear family never has two different jobs overlap on a resource where both take time |
| Families.ModelSound | src/job_shop_scheduler.py:244-249 | an assignment satisfying the whole model, under either family, respects job order, keeps resources exclusive, and has a makespan covering every job |
| Families.PrecedenceComplete | src/job_shop_scheduler.py:73-80 | a schedule respecting job order satisfies the precedence family |
| Families.MakespanComplete | src/job_shop_scheduler.py:138-143 | a makespan covering every job satisfies the makespan family |
| Families.DisjunctiveComplete | src/job_shop_scheduler.py:116-128 | an exclusive schedule within [0, maxMakespan], with y recording each pair's order, satisfies the disjunctive family |
| Families.OverlapComplete | src/job_shop_scheduler.py:90-104 | a schedule exclusive wherever both operations take time, with y recording each pair's order, satisfies the bilinear family |
| Families.ModelComplete | src/job_shop_scheduler.py:244-249 | every schedule respecting job order, with a covering makespan and y recording the order, satisfies the model: under the bilinear family when it is exclusive where both operations take time; under the big-M family when it is exclusive everywhere and within [0, maxMakespan] |
| Families.DisjunctiveFeasibleIsBilinearFeasible | src/job_shop_scheduler.py:107-110 | every solution of the big-M model, with y re-derived and the same start times and makespan, solves the bilinear model |
| Families.BilinearFeasibleIsDisjunctiveFeasible | src/job_shop_scheduler.py:107-110 | when every operation takes time, a solution of the bilinear model within the horizon, with y re-derived, solves the big-M model |
| Extraction.Put | src/job_shop_scheduler.py:197 | `solution[key] = value` on the ordered dictionary: the entry is stored and the dictionary grows by at most one entry |
| Extraction.PutKeepsOrder | src/job_shop_scheduler.py:197 | every other key keeps its entry and its position, so the dictionary stays in insertion order |
| Extraction.PutView | src/job_shop_scheduler.py:197 | `solution[key] = value` on the ordered dictionary updates exactly that key |
| Extraction.PutKeepsKeysDistinct | src/job_shop_scheduler.py:197 | the dictionary keeps each key once after an assignment |
| Extraction.Step | src/job_shop_scheduler.py:194-197 | one item of the loop: only an 'x' name can raise; otherwise the dictionary grows by at most one entry |
| Extraction.Advance | src/job_shop_scheduler.py:193-197 | one more item: once the loop has raised it stays raised; the dictionary grows by at most one entry |
| Extraction.Absorb | src/job_shop_scheduler.py:193-197 | the loop over the items from an empty dictionary; the dictionary never has more entries than there are items |
| Extraction.AbsorbInvariant | src/job_shop_scheduler.py:192-197 | after the loop, keys are distinct, every entry holds the lookup's task for its key and that task's duration, and every key comes from some parsed 'x' name |
| Extraction.AbsorbIgnoresOtherNames | src/job_shop_scheduler.py:194 | items whose name does not start with 'x' (the indicators, the makespan) do not change the outcome |
| Extraction.AbsorbStopsAtFailure | src/job_shop_scheduler.py:195-196 | once a name fails to parse or names a pair with no task, the loop raises and later items change nothing |
| Extraction.AbsorbKeepsNamedKeys | src/job_shop_scheduler.py:193-197 | if the loop does not raise, every pair named by an 'x' item is in the solution |
| Extraction.AbsorbSampleValues | src/job_shop_scheduler.py:193-197 | on a sample whose 'x' items are the builder's names of pairs with tasks, the loop does not raise and stores (task, value, task duration) under each pair |
| Extraction.AbsorbReadsStartTimes | src/job_shop_scheduler.py:193-197 | on such a sample, the solution's keys are exactly the pairs named, each holding its task, start value and duration |
| Scheduler.JobShopSchedulingCqm.constructor | src/job_shop_scheduler.py:19-27 | a new scheduler holds the data, no model, no variables or constraints, an empty solution and completion time 0 |
| Scheduler.JobShopSchedulingCqm.DefineCqmModel | src/job_shop_scheduler.py:30-32 | a fresh model with no constraints and no objective |
| Scheduler.JobShopSchedulingCqm.DefineVariables | src/job_shop_scheduler.py:35-56 | the makespan, x and y fields become `MakespanVar`, `StartTimeVars` and `OrderVars`, so every x and y that the constraints use exists |
| Scheduler.JobShopSchedulingCqm.DefineObjectiveFunction | src/job_shop_scheduler.py:59-62 | the objective is the makespan variable |
| Scheduler.JobShopSchedulingCqm.AddConstraint | src/job_shop_scheduler.py:78-80 | `cqm.add_constraint` appends the constraint after those already in the model and changes nothing else |
| Scheduler.JobShopSchedulingCqm.AddPrecedenceConstraints | src/job_shop_scheduler.py:65-80 | appends exactly the precedence family, job by job |
| Scheduler.JobShopSchedulingCqm.AddJobPrecedence | src/job_shop_scheduler.py:74-80 | appends one job's consecutive-task constraints in order |
| Scheduler.JobShopSchedulingCqm.AddQuadraticOverlapConstraint | src/job_shop_scheduler.py:83-104 | appends exactly the bilinear family |
| Scheduler.JobShopSchedulingCqm.AddJobOverlaps | src/job_shop_scheduler.py:91-104 | appends job j's bilinear constraints against every later job |
| Scheduler.JobShopSchedulingCqm.AddPairOverlaps | src/job_shop_scheduler.py:93-104 | appends the bilinear constraints of one pair, skipping resources where a duration is 0 |
| Scheduler.JobShopSchedulingCqm.AddDisjunctiveConstraints | src/job_shop_scheduler.py:107-128 | appends exactly the disjunctive family, with M = maxMakespan |
| Scheduler.JobShopSchedulingCqm.AddJobDisjunctions | src/job_shop_scheduler.py:117-128 | appends job j's big-M constraints against every later job |
| Scheduler.JobShopSchedulingCqm.AddPairDisjunctions | src/job_shop_scheduler.py:119-128 | appends the two big-M constraints of one pair on every resource, in order |
| Scheduler.JobShopSchedulingCqm.AddMakespanConstraint | src/job_shop_scheduler.py:131-143 | appends exactly the makespan family |
| Scheduler.JobShopSchedulingCqm.AddAllConstraints | src/job_shop_scheduler.py:244-249 | from an empty model, the constraints become precedence, then the chosen exclusivity family, then makespan |
| Scheduler.JobShopSchedulingCqm.CallMipSolver | src/job_shop_scheduler.py:192-197 | resets the solution and runs the loop over the sample. The solution and raised error equal `Absorb` of the items. Keys are distinct and every entry comes from the lookup |
| Scheduler.JobShopSchedulingCqm.SolutionAsDataframe | src/job_shop_scheduler.py:200-210 | one row per solution entry, in order, with Finish = Start + duration; for an extracted solution, the row's task is the lookup's task and Finish = Start + that task's duration |
| Scheduler.RunShopScheduler | src/job_shop_scheduler.py:238-250 | raises "Cannot use quadratic constraints with MIP solver" iff both flags are set, before building anything. Otherwise it returns a new model with `ModelConstraints(d, allowQuadraticConstraints)`, the declared variables and the makespan objective |
| Scheduler.BuildModel | src/job_shop_scheduler.py:241-250 | builds the model in the scheduler's order: variables, constraints, objective |

## Left out

- The remote CQM sampler and `call_cqm_solver` (src/job_shop_scheduler.py:146-175) are not modelled. This covers its sample filtering, truncation and `first`, and its solution comprehension and completion time. The sampler is a network service, and the sample order belongs to the foreign library.
- The local MIP solver (src/job_shop_scheduler.py:189-191) is not modelled. Its best sample is a parameter of `CallMipSolver`: the sample's (name, value) items in dictionary order, with integer values.
- The foreign model library's variable and model types are replaced by the class fields and the `Constraint` datatype. The library's error on a duplicate constraint label is not modelled. `Constraints.LabelsIdentify` proves when two constraints share a label. That every built model has distinct labels is not proved. It fails when a machine appears twice among a job's tasks after the first, or when `jobs` lists a job twice.
- The pandas DataFrame is a sequence of `Row` values.
- Printing, `tabulate`, warnings, timing with `time()`, argparse, the `__main__` block, file I/O, plotting and `pdb` are not modelled. The global `start_time` that `run_shop_scheduler` reads at line 240 is part of timing.
- `JobShopData` internals are not modelled. Its jobs, resources, task lists, lookup and maxMakespan are fields of an input value. `WellFormed` is what the builders rely on: task lists for every job, tasks on declared resources, a total lookup, and non-empty task lists.
- Scheduler.RunShopScheduler: the default arguments are not modelled; both flags are explicit parameters. At src/job_shop_scheduler.py:215-217 `use_mip_solver` defaults to False and `allow_quadratic_constraints` to True, so `run_shop_scheduler(data, use_mip_solver=True)` alone raises the configuration error. The MIP `time_limit` default of 100 (line 178), `max_time` and `verbose` belong to the solver call and printing, which are not modelled.
- Scheduler.RunShopScheduler: the solver call and the table it returns after building the model are not modelled. Neither is any claim that a solver returns a feasible or optimal assignment.
- Names.ParseInt: `int()` is modelled on ASCII input with an optional sign and decimal digits. Whitespace, underscores between digits and non-ASCII digits, which Python also accepts, are not modelled.
- Scheduler.JobShopSchedulingCqm.CallMipSolver: sample values are integers. A solver that returns floats is not modelled.
