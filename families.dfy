/**
 * What the builder produces, as functions of the data source: the variable
 * declarations and each constraint family in the order the builder's loops
 * append them. The lemmas say which constraints each family holds, how many,
 * and what an assignment satisfying the whole model guarantees about the
 * schedule it describes (and, conversely, that every schedule within the
 * horizon satisfies the model).
 */
module Families {
  import opened ShopData
  import opened Names
  import opened Constraints

  // ---------------------------------------------------------------- variables

  /** One start-time variable per (job, resource) pair, every one bounded by [0, maxMakespan]. */
  function StartTimeVars(d: JobShopData): (x: map<(int, int), IntVar>)
    ensures forall j, i :: (j, i) in x <==> j in d.jobs && i in d.resources
    ensures forall p :: p in x ==>
      x[p].name == XName(p.0, p.1) && x[p].lowerBound == 0 && x[p].upperBound == d.maxMakespan
  {
    map j, i | j in d.jobs && i in d.resources :: (j, i) := IntVar(XName(j, i), 0, d.maxMakespan)
  }

  /** One ordering indicator per (j, k, i) triple, j = k included. */
  function OrderVars(d: JobShopData): (y: map<(int, int, int), BinVar>)
    ensures forall j, k, i :: (j, k, i) in y <==> j in d.jobs && k in d.jobs && i in d.resources
    ensures forall t :: t in y ==> y[t].name == YName(t.0, t.1, t.2)
  {
    map j, k, i | j in d.jobs && k in d.jobs && i in d.resources :: (j, k, i) := BinVar(YName(j, k, i))
  }

  /** The makespan variable, bounded by [0, maxMakespan]. */
  function MakespanVar(d: JobShopData): (m: IntVar)
    ensures m.name == MakespanName && m.lowerBound == 0 && m.upperBound == d.maxMakespan
  {
    IntVar(MakespanName, 0, d.maxMakespan)
  }

  /** The ordering indicators include the diagonal triples (j, j, i). */
  lemma OrderVarsIncludeDiagonal(d: JobShopData, j: int, i: int)
    requires j in d.jobs && i in d.resources
    ensures (j, j, i) in OrderVars(d)
  {
  }

  // --------------------------------------------------------------- precedence

  /** The constraint between a job's task t and its successor t + 1. */
  function PrecedenceAt(job: int, tasks: seq<Task>, t: nat): Constraint
    requires t + 1 < |tasks|
  {
    Precedence(job, tasks[t + 1].resource, tasks[t].resource, tasks[t].duration)
  }

  /** The precedence constraints of one job: one per consecutive pair of tasks, in order. */
  function JobPrecedence(job: int, tasks: seq<Task>): (cs: seq<Constraint>)
    ensures |cs| == if |tasks| == 0 then 0 else |tasks| - 1
    ensures forall t :: 0 <= t < |cs| ==> cs[t] == PrecedenceAt(job, tasks, t)
    decreases |tasks|
  {
    if |tasks| < 2 then []
    else JobPrecedence(job, tasks[..|tasks| - 1]) + [PrecedenceAt(job, tasks, |tasks| - 2)]
  }

  /** The precedence constraints of the jobs `js`, job by job. */
  function PrecedenceConstraints(d: JobShopData, js: seq<int>): seq<Constraint>
    requires forall j :: j in js ==> j in d.jobTasks
    decreases |js|
  {
    if js == [] then []
    else
      var job := js[|js| - 1];
      PrecedenceConstraints(d, js[..|js| - 1]) + JobPrecedence(job, d.jobTasks[job])
  }

  /** A single-task job adds no precedence constraint. */
  lemma SingleTaskJobHasNoPrecedence(job: int, task: Task)
    ensures JobPrecedence(job, [task]) == []
  {
  }

  /**
   * Two precedence constraints of a job share a label exactly when their later
   * tasks run on the same machine: the first task's machine is never in a label.
   */
  lemma PrecedenceLabelsClash(job: int, tasks: seq<Task>, s: nat, t: nat)
    requires s + 1 < |tasks| && t + 1 < |tasks|
    ensures Label(JobPrecedence(job, tasks)[s]) == Label(JobPrecedence(job, tasks)[t])
      <==> tasks[s + 1].resource == tasks[t + 1].resource
  {
    LabelsIdentify(JobPrecedence(job, tasks)[s], JobPrecedence(job, tasks)[t]);
  }

  lemma JobPrecedenceMembers(job: int, tasks: seq<Task>, c: Constraint)
    ensures c in JobPrecedence(job, tasks) <==>
      exists t :: 0 <= t && t + 1 < |tasks| && c == PrecedenceAt(job, tasks, t)
  {
    var cs := JobPrecedence(job, tasks);
    if c in cs {
      var t :| 0 <= t < |cs| && cs[t] == c;
      assert c == PrecedenceAt(job, tasks, t);
    }
    if exists t :: 0 <= t && t + 1 < |tasks| && c == PrecedenceAt(job, tasks, t) {
      var t :| 0 <= t && t + 1 < |tasks| && c == PrecedenceAt(job, tasks, t);
      assert cs[t] == c;
    }
  }

  /** The precedence family holds exactly the consecutive-task constraints of the listed jobs. */
  lemma {:induction false} PrecedenceMembers(d: JobShopData, js: seq<int>, c: Constraint)
    requires forall j :: j in js ==> j in d.jobTasks
    ensures c in PrecedenceConstraints(d, js) <==>
      c.Precedence? && c.job in js &&
      exists t :: 0 <= t && t + 1 < |d.jobTasks[c.job]| && c == PrecedenceAt(c.job, d.jobTasks[c.job], t)
    decreases |js|
  {
    if js != [] {
      var front, job := js[..|js| - 1], js[|js| - 1];
      assert js == front + [job];
      PrecedenceMembers(d, front, c);
      JobPrecedenceMembers(job, d.jobTasks[job], c);
    }
  }

  // -------------------------------------------------------- disjunctive (big-M)

  function Disjunction1At(d: JobShopData, j: int, k: int, i: int): Constraint
    requires (k, i) in d.resourceJobTasks
  {
    Disjunction1(j, k, i, DurationOn(d, k, i), d.maxMakespan)
  }

  function Disjunction2At(d: JobShopData, j: int, k: int, i: int): Constraint
    requires (j, i) in d.resourceJobTasks
  {
    Disjunction2(j, k, i, DurationOn(d, j, i), d.maxMakespan)
  }

  predicate SubJobs(d: JobShopData, js: seq<int>)
  {
    forall j :: j in js ==> j in d.jobs
  }

  predicate SubResources(d: JobShopData, rs: seq<int>)
  {
    forall i :: i in rs ==> i in d.resources
  }

  /** The two big-M constraints of jobs j < k on every resource of `rs`, in order. */
  function PairDisjunctions(d: JobShopData, j: int, k: int, rs: seq<int>): (cs: seq<Constraint>)
    requires LookupTotal(d) && j in d.jobs && k in d.jobs && SubResources(d, rs)
    ensures |cs| == 2 * |rs|
    decreases |rs|
  {
    if rs == [] then []
    else
      var i := rs[|rs| - 1];
      PairDisjunctions(d, j, k, rs[..|rs| - 1]) + [Disjunction1At(d, j, k, i), Disjunction2At(d, j, k, i)]
  }

  /** The big-M constraints job j adds against each job of `ks`: none unless j < k. */
  function JobDisjunctions(d: JobShopData, j: int, ks: seq<int>): seq<Constraint>
    requires LookupTotal(d) && j in d.jobs && SubJobs(d, ks)
    decreases |ks|
  {
    if ks == [] then []
    else
      var k := ks[|ks| - 1];
      JobDisjunctions(d, j, ks[..|ks| - 1]) + (if j < k then PairDisjunctions(d, j, k, d.resources) else [])
  }

  /** The disjunctive family for the outer jobs `js`, each paired with every job. */
  function DisjunctiveConstraints(d: JobShopData, js: seq<int>): seq<Constraint>
    requires LookupTotal(d) && SubJobs(d, js)
    decreases |js|
  {
    if js == [] then []
    else DisjunctiveConstraints(d, js[..|js| - 1]) + JobDisjunctions(d, js[|js| - 1], d.jobs)
  }

  /** `c` is one of the two big-M constraints of a pair j < k, j from `js`, k from `ks`, on a resource of `rs`. */
  predicate DisjunctionAmong(d: JobShopData, js: seq<int>, ks: seq<int>, rs: seq<int>, c: Constraint)
    requires LookupTotal(d) && SubJobs(d, js) && SubJobs(d, ks) && SubResources(d, rs)
  {
    (c.Disjunction1? || c.Disjunction2?) && c.j in js && c.k in ks && c.j < c.k && c.i in rs &&
    (c == Disjunction1At(d, c.j, c.k, c.i) || c == Disjunction2At(d, c.j, c.k, c.i))
  }

  lemma {:induction false} PairDisjunctionsMembers(d: JobShopData, j: int, k: int, rs: seq<int>, c: Constraint)
    requires LookupTotal(d) && j in d.jobs && k in d.jobs && SubResources(d, rs) && j < k
    ensures c in PairDisjunctions(d, j, k, rs) <==> DisjunctionAmong(d, [j], [k], rs, c)
    decreases |rs|
  {
    if rs != [] {
      var front, i := rs[..|rs| - 1], rs[|rs| - 1];
      assert rs == front + [i];
      PairDisjunctionsMembers(d, j, k, front, c);
    }
  }

  lemma {:induction false} JobDisjunctionsMembers(d: JobShopData, j: int, ks: seq<int>, c: Constraint)
    requires LookupTotal(d) && j in d.jobs && SubJobs(d, ks)
    ensures c in JobDisjunctions(d, j, ks) <==> DisjunctionAmong(d, [j], ks, d.resources, c)
    decreases |ks|
  {
    if ks != [] {
      var front, k := ks[..|ks| - 1], ks[|ks| - 1];
      assert ks == front + [k];
      JobDisjunctionsMembers(d, j, front, c);
      if j < k {
        PairDisjunctionsMembers(d, j, k, d.resources, c);
      }
    }
  }

  /**
   * The disjunctive family holds exactly the two big-M constraints of every
   * pair of jobs j < k on every resource, and nothing for j >= k.
   */
  lemma {:induction false} DisjunctiveMembers(d: JobShopData, js: seq<int>, c: Constraint)
    requires LookupTotal(d) && SubJobs(d, js)
    ensures c in DisjunctiveConstraints(d, js) <==> DisjunctionAmong(d, js, d.jobs, d.resources, c)
    decreases |js|
  {
    if js != [] {
      var front, j := js[..|js| - 1], js[|js| - 1];
      assert js == front + [j];
      DisjunctiveMembers(d, front, c);
      JobDisjunctionsMembers(d, j, d.jobs, c);
    }
  }

  /** How many jobs of `ks` come after j. */
  function CountAbove(j: int, ks: seq<int>): nat
    decreases |ks|
  {
    if ks == [] then 0 else CountAbove(j, ks[..|ks| - 1]) + (if j < ks[|ks| - 1] then 1 else 0)
  }

  /** How many pairs (j, k) with j from `js`, k from `ks` and j < k. */
  function OrderedPairs(js: seq<int>, ks: seq<int>): nat
    decreases |js|
  {
    if js == [] then 0 else OrderedPairs(js[..|js| - 1], ks) + CountAbove(js[|js| - 1], ks)
  }

  /** Distributivity, kept out of the counting proofs' larger contexts. */
  lemma MulAdd(r: int, m: int, n: int)
    ensures r * (m + n) == r * m + r * n
  {
  }

  lemma {:induction false} JobDisjunctionsCount(d: JobShopData, j: int, ks: seq<int>)
    requires LookupTotal(d) && j in d.jobs && SubJobs(d, ks)
    ensures |JobDisjunctions(d, j, ks)| == 2 * |d.resources| * CountAbove(j, ks)
    decreases |ks|
  {
    if ks != [] {
      var front, k := ks[..|ks| - 1], ks[|ks| - 1];
      var r, n := 2 * |d.resources|, CountAbove(j, front);
      JobDisjunctionsCount(d, j, front);
      assert |JobDisjunctions(d, j, front)| == r * n;
      if j < k {
        assert |JobDisjunctions(d, j, ks)| == r * n + r;
        MulAdd(r, n, 1);
      } else {
        assert |JobDisjunctions(d, j, ks)| == r * n;
      }
    }
  }

  /** Two constraints for every ordered pair j < k and every resource. */
  lemma {:induction false} DisjunctiveCount(d: JobShopData, js: seq<int>)
    requires LookupTotal(d) && SubJobs(d, js)
    ensures |DisjunctiveConstraints(d, js)| == 2 * |d.resources| * OrderedPairs(js, d.jobs)
    decreases |js|
  {
    if js != [] {
      var front, j := js[..|js| - 1], js[|js| - 1];
      var r, m, n := 2 * |d.resources|, OrderedPairs(front, d.jobs), CountAbove(j, d.jobs);
      DisjunctiveCount(d, front);
      JobDisjunctionsCount(d, j, d.jobs);
      assert |DisjunctiveConstraints(d, js)| == r * m + r * n;
      MulAdd(r, m, n);
    }
  }

  // -------------------------------------------------------- bilinear overlap

  function OverlapAt(d: JobShopData, j: int, k: int, i: int): Constraint
    requires (j, i) in d.resourceJobTasks && (k, i) in d.resourceJobTasks
  {
    Overlap(j, k, i, DurationOn(d, j, i), DurationOn(d, k, i))
  }

  /** Both jobs' operations on resource i take time. */
  predicate BothBusy(d: JobShopData, j: int, k: int, i: int)
    requires (j, i) in d.resourceJobTasks && (k, i) in d.resourceJobTasks
  {
    DurationOn(d, j, i) > 0 && DurationOn(d, k, i) > 0
  }

  /** The resources of `rs`, in order, on which both jobs j and k take time. */
  function BusyResources(d: JobShopData, j: int, k: int, rs: seq<int>): (bs: seq<int>)
    requires LookupTotal(d) && j in d.jobs && k in d.jobs && SubResources(d, rs)
    ensures |bs| <= |rs|
    decreases |rs|
  {
    if rs == [] then []
    else
      var i := rs[|rs| - 1];
      BusyResources(d, j, k, rs[..|rs| - 1]) + (if BothBusy(d, j, k, i) then [i] else [])
  }

  /** The bilinear constraints of jobs j < k: exactly one per resource of `rs` on which both take time, in order. */
  function PairOverlaps(d: JobShopData, j: int, k: int, rs: seq<int>): (cs: seq<Constraint>)
    requires LookupTotal(d) && j in d.jobs && k in d.jobs && SubResources(d, rs)
    ensures |cs| == |BusyResources(d, j, k, rs)| <= |rs|
    decreases |rs|
  {
    if rs == [] then []
    else
      var i := rs[|rs| - 1];
      PairOverlaps(d, j, k, rs[..|rs| - 1]) + (if BothBusy(d, j, k, i) then [OverlapAt(d, j, k, i)] else [])
  }

  /** A resource is listed as busy exactly when it is one of `rs` on which both jobs take time. */
  lemma {:induction false} BusyResourcesMembers(d: JobShopData, j: int, k: int, rs: seq<int>, i: int)
    requires LookupTotal(d) && j in d.jobs && k in d.jobs && SubResources(d, rs)
    ensures i in BusyResources(d, j, k, rs) <==> i in rs && BothBusy(d, j, k, i)
    decreases |rs|
  {
    if rs != [] {
      var front := rs[..|rs| - 1];
      BusyResourcesMembers(d, j, k, front, i);
      assert rs == front + [rs[|rs| - 1]];
    }
  }

  /** The n-th bilinear constraint of a pair is the one on the n-th resource both use. */
  lemma {:induction false} PairOverlapsAt(d: JobShopData, j: int, k: int, rs: seq<int>, n: nat)
    requires LookupTotal(d) && j in d.jobs && k in d.jobs && SubResources(d, rs)
    requires n < |PairOverlaps(d, j, k, rs)|
    ensures BusyResources(d, j, k, rs)[n] in rs
    ensures PairOverlaps(d, j, k, rs)[n] == OverlapAt(d, j, k, BusyResources(d, j, k, rs)[n])
    decreases |rs|
  {
    var front, i := rs[..|rs| - 1], rs[|rs| - 1];
    var bs := BusyResources(d, j, k, rs);
    if n < |PairOverlaps(d, j, k, front)| {
      PairOverlapsAt(d, j, k, front, n);
      assert bs[n] == BusyResources(d, j, k, front)[n];
    } else {
      assert bs[n] == i;
    }
  }

  function JobOverlaps(d: JobShopData, j: int, ks: seq<int>): seq<Constraint>
    requires LookupTotal(d) && j in d.jobs && SubJobs(d, ks)
    decreases |ks|
  {
    if ks == [] then []
    else
      var k := ks[|ks| - 1];
      JobOverlaps(d, j, ks[..|ks| - 1]) + (if j < k then PairOverlaps(d, j, k, d.resources) else [])
  }

  function OverlapConstraints(d: JobShopData, js: seq<int>): seq<Constraint>
    requires LookupTotal(d) && SubJobs(d, js)
    decreases |js|
  {
    if js == [] then []
    else OverlapConstraints(d, js[..|js| - 1]) + JobOverlaps(d, js[|js| - 1], d.jobs)
  }

  /** `c` is the bilinear constraint of a pair j < k, j from `js`, k from `ks`, on a resource of `rs` both use. */
  predicate OverlapAmong(d: JobShopData, js: seq<int>, ks: seq<int>, rs: seq<int>, c: Constraint)
    requires LookupTotal(d) && SubJobs(d, js) && SubJobs(d, ks) && SubResources(d, rs)
  {
    c.Overlap? && c.j in js && c.k in ks && c.j < c.k && c.i in rs &&
    BothBusy(d, c.j, c.k, c.i) && c == OverlapAt(d, c.j, c.k, c.i)
  }

  lemma {:induction false} PairOverlapsMembers(d: JobShopData, j: int, k: int, rs: seq<int>, c: Constraint)
    requires LookupTotal(d) && j in d.jobs && k in d.jobs && SubResources(d, rs) && j < k
    ensures c in PairOverlaps(d, j, k, rs) <==> OverlapAmong(d, [j], [k], rs, c)
    decreases |rs|
  {
    if rs != [] {
      var front, i := rs[..|rs| - 1], rs[|rs| - 1];
      assert rs == front + [i];
      PairOverlapsMembers(d, j, k, front, c);
    }
  }

  lemma {:induction false} JobOverlapsMembers(d: JobShopData, j: int, ks: seq<int>, c: Constraint)
    requires LookupTotal(d) && j in d.jobs && SubJobs(d, ks)
    ensures c in JobOverlaps(d, j, ks) <==> OverlapAmong(d, [j], ks, d.resources, c)
    decreases |ks|
  {
    if ks != [] {
      var front, k := ks[..|ks| - 1], ks[|ks| - 1];
      assert ks == front + [k];
      JobOverlapsMembers(d, j, front, c);
      if j < k {
        PairOverlapsMembers(d, j, k, d.resources, c);
      }
    }
  }

  /**
   * The bilinear family holds exactly one constraint for every pair of jobs
   * j < k and every resource on which both take time, and nothing else.
   */
  lemma {:induction false} OverlapMembers(d: JobShopData, js: seq<int>, c: Constraint)
    requires LookupTotal(d) && SubJobs(d, js)
    ensures c in OverlapConstraints(d, js) <==> OverlapAmong(d, js, d.jobs, d.resources, c)
    decreases |js|
  {
    if js != [] {
      var front, j := js[..|js| - 1], js[|js| - 1];
      assert js == front + [j];
      OverlapMembers(d, front, c);
      JobOverlapsMembers(d, j, d.jobs, c);
    }
  }

  /** How many pairs (k, i), k from `ks` after j and i a resource on which both take time. */
  function BusyAbove(d: JobShopData, j: int, ks: seq<int>): nat
    requires LookupTotal(d) && j in d.jobs && SubJobs(d, ks)
    decreases |ks|
  {
    if ks == [] then 0
    else
      var k := ks[|ks| - 1];
      BusyAbove(d, j, ks[..|ks| - 1]) + (if j < k then |BusyResources(d, j, k, d.resources)| else 0)
  }

  /** How many triples (j, k, i), j from `js`, j < k, on a resource i on which both take time. */
  function BusyTriples(d: JobShopData, js: seq<int>): nat
    requires LookupTotal(d) && SubJobs(d, js)
    decreases |js|
  {
    if js == [] then 0 else BusyTriples(d, js[..|js| - 1]) + BusyAbove(d, js[|js| - 1], d.jobs)
  }

  lemma {:induction false} JobOverlapsCount(d: JobShopData, j: int, ks: seq<int>)
    requires LookupTotal(d) && j in d.jobs && SubJobs(d, ks)
    ensures |JobOverlaps(d, j, ks)| == BusyAbove(d, j, ks)
    decreases |ks|
  {
    if ks != [] {
      JobOverlapsCount(d, j, ks[..|ks| - 1]);
    }
  }

  /** One bilinear constraint for every ordered pair j < k and every resource on which both take time. */
  lemma {:induction false} OverlapCount(d: JobShopData, js: seq<int>)
    requires LookupTotal(d) && SubJobs(d, js)
    ensures |OverlapConstraints(d, js)| == BusyTriples(d, js)
    decreases |js|
  {
    if js != [] {
      OverlapCount(d, js[..|js| - 1]);
      JobOverlapsCount(d, js[|js| - 1], d.jobs);
    }
  }

  /** When every operation takes time, every resource is busy for every pair. */
  lemma {:induction false} AllBusyResources(d: JobShopData, j: int, k: int, rs: seq<int>)
    requires LookupTotal(d) && AllBusy(d) && j in d.jobs && k in d.jobs && SubResources(d, rs)
    ensures BusyResources(d, j, k, rs) == rs
    decreases |rs|
  {
    if rs != [] {
      var front, i := rs[..|rs| - 1], rs[|rs| - 1];
      AllBusyResources(d, j, k, front);
      assert BothBusy(d, j, k, i);
      assert rs == front + [i];
    }
  }

  lemma {:induction false} AllBusyAbove(d: JobShopData, j: int, ks: seq<int>)
    requires LookupTotal(d) && AllBusy(d) && j in d.jobs && SubJobs(d, ks)
    ensures BusyAbove(d, j, ks) == |d.resources| * CountAbove(j, ks)
    decreases |ks|
  {
    if ks != [] {
      var front, k := ks[..|ks| - 1], ks[|ks| - 1];
      var r, n := |d.resources|, CountAbove(j, front);
      AllBusyAbove(d, j, front);
      if j < k {
        AllBusyResources(d, j, k, d.resources);
        assert BusyAbove(d, j, ks) == r * n + r;
        MulAdd(r, n, 1);
      }
    }
  }

  lemma {:induction false} AllBusyTriples(d: JobShopData, js: seq<int>)
    requires LookupTotal(d) && AllBusy(d) && SubJobs(d, js)
    ensures BusyTriples(d, js) == |d.resources| * OrderedPairs(js, d.jobs)
    decreases |js|
  {
    if js != [] {
      var front, j := js[..|js| - 1], js[|js| - 1];
      var r, m, n := |d.resources|, OrderedPairs(front, d.jobs), CountAbove(j, d.jobs);
      AllBusyTriples(d, front);
      AllBusyAbove(d, j, d.jobs);
      assert BusyTriples(d, js) == r * m + r * n;
      MulAdd(r, m, n);
    }
  }

  /**
   * When every operation takes time, the bilinear family has exactly half as
   * many constraints as the big-M family: one per pair and resource against two.
   */
  lemma OverlapHalvesDisjunctive(d: JobShopData)
    requires LookupTotal(d) && AllBusy(d)
    ensures 2 * |OverlapConstraints(d, d.jobs)| == |DisjunctiveConstraints(d, d.jobs)|
  {
    var r, p := |d.resources|, OrderedPairs(d.jobs, d.jobs);
    OverlapCount(d, d.jobs);
    AllBusyTriples(d, d.jobs);
    DisjunctiveCount(d, d.jobs);
    MulAssociative(2, r, p);
  }

  /** Associativity, kept out of the counting proofs' larger contexts. */
  lemma MulAssociative(a: int, b: int, c: int)
    ensures a * b * c == a * (b * c)
  {
  }

  // ----------------------------------------------------------------- makespan

  /** The makespan constraint of a job, on its last task. */
  function MakespanAt(d: JobShopData, job: int): Constraint
    requires job in d.jobTasks && |d.jobTasks[job]| > 0
  {
    MakespanBound(job, LastTask(d, job).resource, LastTask(d, job).duration)
  }

  predicate AllHaveTasks(d: JobShopData, js: seq<int>)
  {
    forall j :: j in js ==> j in d.jobTasks && |d.jobTasks[j]| > 0
  }

  /** One makespan constraint per job of `js`, in order. */
  function MakespanConstraints(d: JobShopData, js: seq<int>): (cs: seq<Constraint>)
    requires AllHaveTasks(d, js)
    ensures |cs| == |js|
    ensures forall n :: 0 <= n < |js| ==> cs[n] == MakespanAt(d, js[n])
    decreases |js|
  {
    if js == [] then []
    else MakespanConstraints(d, js[..|js| - 1]) + [MakespanAt(d, js[|js| - 1])]
  }

  lemma MakespanMembers(d: JobShopData, js: seq<int>, c: Constraint)
    requires AllHaveTasks(d, js)
    ensures c in MakespanConstraints(d, js) <==> c.MakespanBound? && c.job in js && c == MakespanAt(d, c.job)
  {
    var cs := MakespanConstraints(d, js);
    if c in cs {
      var n :| 0 <= n < |cs| && cs[n] == c;
      assert c.job == js[n];
    }
    if c.MakespanBound? && c.job in js && c == MakespanAt(d, c.job) {
      var n :| 0 <= n < |js| && js[n] == c.job;
      assert cs[n] == c;
    }
  }

  // ------------------------------------------------------------ whole model

  /**
   * The constraints of a model built in the order the scheduler builds it:
   * precedence, then one exclusivity family, then makespan.
   */
  function ModelConstraints(d: JobShopData, quadratic: bool): seq<Constraint>
    requires WellFormed(d)
  {
    PrecedenceConstraints(d, d.jobs)
    + (if quadratic then OverlapConstraints(d, d.jobs) else DisjunctiveConstraints(d, d.jobs))
    + MakespanConstraints(d, d.jobs)
  }

  /**
   * A model holds exactly one exclusivity family: bilinear constraints only
   * when quadratic constraints are allowed, big-M constraints only when not.
   */
  lemma OneExclusivityFamily(d: JobShopData, quadratic: bool, c: Constraint)
    requires WellFormed(d) && c in ModelConstraints(d, quadratic)
    ensures c.Overlap? ==> quadratic
    ensures c.Disjunction1? || c.Disjunction2? ==> !quadratic
  {
    var p := PrecedenceConstraints(d, d.jobs);
    var e := if quadratic then OverlapConstraints(d, d.jobs) else DisjunctiveConstraints(d, d.jobs);
    var m := MakespanConstraints(d, d.jobs);
    assert c in p || c in e || c in m;
    PrecedenceMembers(d, d.jobs, c);
    MakespanMembers(d, d.jobs, c);
    if quadratic {
      OverlapMembers(d, d.jobs, c);
    } else {
      DisjunctiveMembers(d, d.jobs, c);
    }
  }

  /** The assignment gives a value to every declared variable. */
  predicate Covers(d: JobShopData, a: Assignment)
  {
    (forall j, i :: j in d.jobs && i in d.resources ==> (j, i) in a.x) &&
    (forall j, k, i :: j in d.jobs && k in d.jobs && i in d.resources ==> (j, k, i) in a.y)
  }

  /** Every start time and the makespan lie within their declared bounds. */
  predicate WithinBounds(d: JobShopData, a: Assignment)
    requires Covers(d, a)
  {
    (forall j, i :: j in d.jobs && i in d.resources ==>
      StartTimeVars(d)[(j, i)].lowerBound <= a.x[(j, i)] <= StartTimeVars(d)[(j, i)].upperBound) &&
    MakespanVar(d).lowerBound <= a.makespan <= MakespanVar(d).upperBound
  }

  predicate Satisfies(cs: seq<Constraint>, a: Assignment)
  {
    forall c :: c in cs ==> Holds(c, a)
  }

  /** A feasible assignment of the model: every variable assigned within its bounds, every constraint holding. */
  predicate Feasible(d: JobShopData, quadratic: bool, a: Assignment)
    requires WellFormed(d)
  {
    Covers(d, a) && WithinBounds(d, a) && Satisfies(ModelConstraints(d, quadratic), a)
  }

  // What a schedule must satisfy.

  /** Every task of a job starts no earlier than its predecessor ends. */
  predicate PrecedenceRespected(d: JobShopData, a: Assignment)
    requires WellFormed(d) && Covers(d, a)
  {
    forall job, t :: job in d.jobs && 0 <= t && t + 1 < |d.jobTasks[job]| ==>
      a.x[(job, d.jobTasks[job][t + 1].resource)] >= a.x[(job, d.jobTasks[job][t].resource)] + d.jobTasks[job][t].duration
  }

  /** The makespan is at least every job's completion time. */
  predicate MakespanDominates(d: JobShopData, a: Assignment)
    requires WellFormed(d) && Covers(d, a)
  {
    forall job :: job in d.jobs ==> a.makespan >= a.x[(job, LastTask(d, job).resource)] + LastTask(d, job).duration
  }

  /**
   * Two different jobs never occupy a resource at the same time; with
   * `busyOnly`, this is promised only where both operations take time.
   */
  predicate ResourcesExclusive(d: JobShopData, a: Assignment, busyOnly: bool)
    requires WellFormed(d) && Covers(d, a)
  {
    forall j, k, i ::
      j in d.jobs && k in d.jobs && j != k && i in d.resources && (busyOnly ==> BothBusy(d, j, k, i)) ==>
      Disjoint(a.x[(j, i)], DurationOn(d, j, i), a.x[(k, i)], DurationOn(d, k, i))
  }

  /** Every operation, as the lookup reports it, starts at or after 0 and ends by maxMakespan. */
  predicate WithinHorizon(d: JobShopData, a: Assignment)
    requires WellFormed(d) && Covers(d, a)
  {
    forall j, i :: j in d.jobs && i in d.resources ==>
      0 <= a.x[(j, i)] && a.x[(j, i)] + DurationOn(d, j, i) <= d.maxMakespan
  }

  /** For every pair j < k, y[j, k, i] records whether job j finishes on resource i before job k starts. */
  predicate OrderRecorded(d: JobShopData, a: Assignment)
    requires WellFormed(d) && Covers(d, a)
  {
    forall j, k, i :: j in d.jobs && k in d.jobs && j < k && i in d.resources ==>
      a.y[(j, k, i)] == (a.x[(j, i)] + DurationOn(d, j, i) <= a.x[(k, i)])
  }

  lemma PrecedenceSound(d: JobShopData, a: Assignment)
    requires WellFormed(d) && Covers(d, a) && Satisfies(PrecedenceConstraints(d, d.jobs), a)
    ensures PrecedenceRespected(d, a)
  {
    forall job, t | job in d.jobs && 0 <= t && t + 1 < |d.jobTasks[job]|
      ensures a.x[(job, d.jobTasks[job][t + 1].resource)] >= a.x[(job, d.jobTasks[job][t].resource)] + d.jobTasks[job][t].duration
    {
      var c := PrecedenceAt(job, d.jobTasks[job], t);
      PrecedenceMembers(d, d.jobs, c);
      assert Holds(c, a);
    }
  }

  lemma MakespanSound(d: JobShopData, a: Assignment)
    requires WellFormed(d) && Covers(d, a) && Satisfies(MakespanConstraints(d, d.jobs), a)
    ensures MakespanDominates(d, a)
  {
    forall job | job in d.jobs
      ensures a.makespan >= a.x[(job, LastTask(d, job).resource)] + LastTask(d, job).duration
    {
      MakespanMembers(d, d.jobs, MakespanAt(d, job));
      assert Holds(MakespanAt(d, job), a);
    }
  }

  /** Satisfying the disjunctive family keeps every two jobs apart on every resource. */
  lemma DisjunctiveSound(d: JobShopData, a: Assignment)
    requires WellFormed(d) && Covers(d, a) && Satisfies(DisjunctiveConstraints(d, d.jobs), a)
    ensures ResourcesExclusive(d, a, false)
  {
    forall j, k, i | j in d.jobs && k in d.jobs && j != k && i in d.resources
      ensures Disjoint(a.x[(j, i)], DurationOn(d, j, i), a.x[(k, i)], DurationOn(d, k, i))
    {
      var lo, hi := if j < k then j else k, if j < k then k else j;
      var c1, c2 := Disjunction1At(d, lo, hi, i), Disjunction2At(d, lo, hi, i);
      DisjunctiveMembers(d, d.jobs, c1);
      DisjunctiveMembers(d, d.jobs, c2);
      DisjunctionsSeparate(lo, hi, i, DurationOn(d, lo, i), DurationOn(d, hi, i), d.maxMakespan, a);
    }
  }

  /** Satisfying the bilinear family keeps every two jobs apart on every resource where both take time. */
  lemma OverlapSound(d: JobShopData, a: Assignment)
    requires WellFormed(d) && Covers(d, a) && Satisfies(OverlapConstraints(d, d.jobs), a)
    ensures ResourcesExclusive(d, a, true)
  {
    forall j, k, i | j in d.jobs && k in d.jobs && j != k && i in d.resources && BothBusy(d, j, k, i)
      ensures Disjoint(a.x[(j, i)], DurationOn(d, j, i), a.x[(k, i)], DurationOn(d, k, i))
    {
      var lo, hi := if j < k then j else k, if j < k then k else j;
      var c := OverlapAt(d, lo, hi, i);
      OverlapMembers(d, d.jobs, c);
      OverlapMeaning(lo, hi, i, DurationOn(d, lo, i), DurationOn(d, hi, i), a);
    }
  }

  /**
   * Any assignment satisfying the model describes a valid schedule: job
   * order respected, resources never double-booked (where both operations
   * take time, under the bilinear family), and the makespan at least every
   * job's completion time.
   */
  lemma ModelSound(d: JobShopData, quadratic: bool, a: Assignment)
    requires WellFormed(d) && Covers(d, a) && Satisfies(ModelConstraints(d, quadratic), a)
    ensures PrecedenceRespected(d, a)
    ensures ResourcesExclusive(d, a, quadratic)
    ensures MakespanDominates(d, a)
  {
    var p := PrecedenceConstraints(d, d.jobs);
    var e := if quadratic then OverlapConstraints(d, d.jobs) else DisjunctiveConstraints(d, d.jobs);
    var m := MakespanConstraints(d, d.jobs);
    assert ModelConstraints(d, quadratic) == p + e + m;
    assert Satisfies(p, a) && Satisfies(e, a) && Satisfies(m, a);
    PrecedenceSound(d, a);
    MakespanSound(d, a);
    if quadratic {
      OverlapSound(d, a);
    } else {
      DisjunctiveSound(d, a);
    }
  }

  lemma PrecedenceComplete(d: JobShopData, a: Assignment)
    requires WellFormed(d) && Covers(d, a) && PrecedenceRespected(d, a)
    ensures Satisfies(PrecedenceConstraints(d, d.jobs), a)
  {
    forall c | c in PrecedenceConstraints(d, d.jobs)
      ensures Holds(c, a)
    {
      PrecedenceMembers(d, d.jobs, c);
      var t :| 0 <= t && t + 1 < |d.jobTasks[c.job]| && c == PrecedenceAt(c.job, d.jobTasks[c.job], t);
    }
  }

  lemma MakespanComplete(d: JobShopData, a: Assignment)
    requires WellFormed(d) && Covers(d, a) && MakespanDominates(d, a)
    ensures Satisfies(MakespanConstraints(d, d.jobs), a)
  {
    forall c | c in MakespanConstraints(d, d.jobs)
      ensures Holds(c, a)
    {
      MakespanMembers(d, d.jobs, c);
    }
  }

  lemma DisjunctiveComplete(d: JobShopData, a: Assignment)
    requires WellFormed(d) && Covers(d, a) && ResourcesExclusive(d, a, false)
    requires WithinHorizon(d, a) && OrderRecorded(d, a)
    ensures Satisfies(DisjunctiveConstraints(d, d.jobs), a)
  {
    forall c | c in DisjunctiveConstraints(d, d.jobs)
      ensures Holds(c, a)
    {
      DisjunctiveMembers(d, d.jobs, c);
      DisjunctionsAdmitDisjoint(c.j, c.k, c.i, DurationOn(d, c.j, c.i), DurationOn(d, c.k, c.i), d.maxMakespan, a);
    }
  }

  lemma OverlapComplete(d: JobShopData, a: Assignment)
    requires WellFormed(d) && Covers(d, a) && ResourcesExclusive(d, a, true) && OrderRecorded(d, a)
    ensures Satisfies(OverlapConstraints(d, d.jobs), a)
  {
    forall c | c in OverlapConstraints(d, d.jobs)
      ensures Holds(c, a)
    {
      OverlapMembers(d, d.jobs, c);
      OverlapMeaning(c.j, c.k, c.i, DurationOn(d, c.j, c.i), DurationOn(d, c.k, c.i), a);
    }
  }

  /**
   * Conversely, every schedule that respects job order, never double-books a
   * resource and whose makespan covers every job satisfies the model, once y
   * records the order of each pair. The bilinear family asks for exclusivity
   * only where both operations take time and needs no horizon; the big-M
   * family asks for exclusivity everywhere and for every operation to lie
   * within [0, maxMakespan].
   */
  lemma ModelComplete(d: JobShopData, quadratic: bool, a: Assignment)
    requires WellFormed(d) && Covers(d, a)
    requires PrecedenceRespected(d, a) && ResourcesExclusive(d, a, quadratic) && MakespanDominates(d, a)
    requires !quadratic ==> WithinHorizon(d, a)
    requires OrderRecorded(d, a)
    ensures Satisfies(ModelConstraints(d, quadratic), a)
  {
    var p := PrecedenceConstraints(d, d.jobs);
    var e := if quadratic then OverlapConstraints(d, d.jobs) else DisjunctiveConstraints(d, d.jobs);
    var m := MakespanConstraints(d, d.jobs);
    PrecedenceComplete(d, a);
    MakespanComplete(d, a);
    if quadratic {
      OverlapComplete(d, a);
    } else {
      DisjunctiveComplete(d, a);
    }
    assert ModelConstraints(d, quadratic) == p + e + m;
  }

  // ------------------------------------------- equivalence of the two policies

  /** Every operation the lookup reports takes time. */
  predicate AllBusy(d: JobShopData)
    requires LookupTotal(d)
  {
    forall j, i :: j in d.jobs && i in d.resources ==> DurationOn(d, j, i) > 0
  }

  /** When every operation takes time, exclusivity where both are busy is exclusivity everywhere. */
  lemma AllBusyExclusive(d: JobShopData, a: Assignment)
    requires WellFormed(d) && AllBusy(d) && Covers(d, a) && ResourcesExclusive(d, a, true)
    ensures ResourcesExclusive(d, a, false)
  {
    forall j, k, i | j in d.jobs && k in d.jobs && j != k && i in d.resources
      ensures Disjoint(a.x[(j, i)], DurationOn(d, j, i), a.x[(k, i)], DurationOn(d, k, i))
    {
      assert BothBusy(d, j, k, i);
    }
  }

  /** The same start times and makespan, with every indicator y[j, k, i], j < k, re-derived from the start times. */
  function Reordered(d: JobShopData, a: Assignment): (b: Assignment)
    requires WellFormed(d) && Covers(d, a)
    ensures b.x == a.x && b.makespan == a.makespan
    ensures Covers(d, b) && OrderRecorded(d, b)
  {
    var y := map t | t in a.y ::
      if t.0 < t.1 && t.0 in d.jobs && t.2 in d.resources && (t.0, t.2) in a.x && (t.1, t.2) in a.x
      then a.x[(t.0, t.2)] + DurationOn(d, t.0, t.2) <= a.x[(t.1, t.2)]
      else a.y[t];
    Assignment(a.x, y, a.makespan)
  }

  // The schedule predicates read only the start times and the makespan.

  lemma SameTimesSamePrecedence(d: JobShopData, a: Assignment, b: Assignment)
    requires WellFormed(d) && Covers(d, a) && Covers(d, b) && b.x == a.x
    requires PrecedenceRespected(d, a)
    ensures PrecedenceRespected(d, b)
  {
  }

  lemma SameTimesSameExclusion(d: JobShopData, a: Assignment, b: Assignment, busyOnly: bool)
    requires WellFormed(d) && Covers(d, a) && Covers(d, b) && b.x == a.x
    requires ResourcesExclusive(d, a, busyOnly)
    ensures ResourcesExclusive(d, b, busyOnly)
  {
  }

  lemma SameTimesSameBounds(d: JobShopData, a: Assignment, b: Assignment)
    requires WellFormed(d) && Covers(d, a) && Covers(d, b) && b.x == a.x && b.makespan == a.makespan
    requires MakespanDominates(d, a) && WithinBounds(d, a)
    ensures MakespanDominates(d, b) && WithinBounds(d, b)
  {
  }

  lemma SameTimesSameHorizon(d: JobShopData, a: Assignment, b: Assignment)
    requires WellFormed(d) && Covers(d, a) && Covers(d, b) && b.x == a.x
    requires WithinHorizon(d, a)
    ensures WithinHorizon(d, b)
  {
  }

  /** Exclusivity everywhere implies exclusivity where both operations take time. */
  lemma ExclusiveWhereBusy(d: JobShopData, a: Assignment)
    requires WellFormed(d) && Covers(d, a) && ResourcesExclusive(d, a, false)
    ensures ResourcesExclusive(d, a, true)
  {
  }

  /**
   * Every assignment feasible under the big-M policy is feasible under the
   * bilinear policy once y is re-derived; start times and makespan are
   * unchanged.
   */
  lemma DisjunctiveFeasibleIsBilinearFeasible(d: JobShopData, a: Assignment)
    requires WellFormed(d) && Feasible(d, false, a)
    ensures Feasible(d, true, Reordered(d, a))
  {
    ModelSound(d, false, a);
    var b := Reordered(d, a);
    SameTimesSamePrecedence(d, a, b);
    SameTimesSameExclusion(d, a, b, false);
    ExclusiveWhereBusy(d, b);
    SameTimesSameBounds(d, a, b);
    ModelComplete(d, true, b);
  }

  /**
   * Conversely, when every operation takes time, an assignment feasible under
   * the bilinear policy with every operation ending by maxMakespan is feasible
   * under the big-M policy once y is re-derived.
   */
  lemma BilinearFeasibleIsDisjunctiveFeasible(d: JobShopData, a: Assignment)
    requires WellFormed(d) && AllBusy(d) && Feasible(d, true, a) && WithinHorizon(d, a)
    ensures Feasible(d, false, Reordered(d, a))
  {
    ModelSound(d, true, a);
    AllBusyExclusive(d, a);
    var b := Reordered(d, a);
    SameTimesSamePrecedence(d, a, b);
    SameTimesSameExclusion(d, a, b, false);
    SameTimesSameBounds(d, a, b);
    SameTimesSameHorizon(d, a, b);
    ModelComplete(d, false, b);
  }

  // ------------------------------------- one more loop iteration, family by family

  lemma PrecedenceStep(d: JobShopData, n: nat)
    requires HasTaskLists(d) && n < |d.jobs|
    ensures PrecedenceConstraints(d, d.jobs[..n + 1])
      == PrecedenceConstraints(d, d.jobs[..n]) + JobPrecedence(d.jobs[n], d.jobTasks[d.jobs[n]])
  {
    assert d.jobs[..n + 1][..n] == d.jobs[..n];
  }

  lemma OverlapStep(d: JobShopData, n: nat)
    requires LookupTotal(d) && n < |d.jobs|
    ensures OverlapConstraints(d, d.jobs[..n + 1]) == OverlapConstraints(d, d.jobs[..n]) + JobOverlaps(d, d.jobs[n], d.jobs)
  {
    assert d.jobs[..n + 1][..n] == d.jobs[..n];
  }

  lemma JobOverlapsStep(d: JobShopData, j: int, n: nat)
    requires LookupTotal(d) && j in d.jobs && n < |d.jobs|
    ensures j < d.jobs[n] ==> JobOverlaps(d, j, d.jobs[..n + 1]) == JobOverlaps(d, j, d.jobs[..n]) + PairOverlaps(d, j, d.jobs[n], d.resources)
    ensures j >= d.jobs[n] ==> JobOverlaps(d, j, d.jobs[..n + 1]) == JobOverlaps(d, j, d.jobs[..n])
  {
    assert d.jobs[..n + 1][..n] == d.jobs[..n];
    assert JobOverlaps(d, j, d.jobs[..n]) + [] == JobOverlaps(d, j, d.jobs[..n]);
  }

  lemma PairOverlapsStep(d: JobShopData, j: int, k: int, n: nat)
    requires LookupTotal(d) && j in d.jobs && k in d.jobs && n < |d.resources|
    ensures BothBusy(d, j, k, d.resources[n]) ==>
      PairOverlaps(d, j, k, d.resources[..n + 1]) == PairOverlaps(d, j, k, d.resources[..n]) + [OverlapAt(d, j, k, d.resources[n])]
    ensures !BothBusy(d, j, k, d.resources[n]) ==> PairOverlaps(d, j, k, d.resources[..n + 1]) == PairOverlaps(d, j, k, d.resources[..n])
  {
    assert d.resources[..n + 1][..n] == d.resources[..n];
    assert PairOverlaps(d, j, k, d.resources[..n]) + [] == PairOverlaps(d, j, k, d.resources[..n]);
  }

  lemma DisjunctiveStep(d: JobShopData, n: nat)
    requires LookupTotal(d) && n < |d.jobs|
    ensures DisjunctiveConstraints(d, d.jobs[..n + 1]) == DisjunctiveConstraints(d, d.jobs[..n]) + JobDisjunctions(d, d.jobs[n], d.jobs)
  {
    assert d.jobs[..n + 1][..n] == d.jobs[..n];
  }

  lemma JobDisjunctionsStep(d: JobShopData, j: int, n: nat)
    requires LookupTotal(d) && j in d.jobs && n < |d.jobs|
    ensures j < d.jobs[n] ==>
      JobDisjunctions(d, j, d.jobs[..n + 1]) == JobDisjunctions(d, j, d.jobs[..n]) + PairDisjunctions(d, j, d.jobs[n], d.resources)
    ensures j >= d.jobs[n] ==> JobDisjunctions(d, j, d.jobs[..n + 1]) == JobDisjunctions(d, j, d.jobs[..n])
  {
    assert d.jobs[..n + 1][..n] == d.jobs[..n];
    assert JobDisjunctions(d, j, d.jobs[..n]) + [] == JobDisjunctions(d, j, d.jobs[..n]);
  }

  lemma PairDisjunctionsStep(d: JobShopData, j: int, k: int, n: nat)
    requires LookupTotal(d) && j in d.jobs && k in d.jobs && n < |d.resources|
    ensures PairDisjunctions(d, j, k, d.resources[..n + 1]) ==
      PairDisjunctions(d, j, k, d.resources[..n]) + [Disjunction1At(d, j, k, d.resources[n]), Disjunction2At(d, j, k, d.resources[n])]
  {
    assert d.resources[..n + 1][..n] == d.resources[..n];
  }
}
