/**
 * The constraint model in place of the foreign constrained-quadratic-model
 * library: declared variables, the five shapes of constraint the builder
 * adds (each holding the literal integer coefficients the builder writes),
 * assignments, and what it means for an assignment to satisfy a constraint.
 */
module Constraints {
  import opened Names

  /** An integer variable with its label and bounds. */
  datatype IntVar = IntVar(name: string, lowerBound: int, upperBound: int)

  /** A binary variable with its label. */
  datatype BinVar = BinVar(name: string)

  /**
   * One constraint, keyed by the identifiers its label is formatted from.
   * x[j, i] is the start-time variable of job j on resource i, y[j, k, i]
   * the ordering indicator, makespan the makespan variable.
   */
  datatype Constraint =
      // x[job, curr] - x[job, prev] >= prevDuration
    | Precedence(job: int, curr: int, prev: int, prevDuration: int)
      // x[j, i] - x[k, i] - durationK + y[j, k, i] * bigM >= 0
    | Disjunction1(j: int, k: int, i: int, durationK: int, bigM: int)
      // x[k, i] - x[j, i] - durationJ + (1 - y[j, k, i]) * bigM >= 0
    | Disjunction2(j: int, k: int, i: int, durationJ: int, bigM: int)
      // x[j, i] - x[k, i] + (durationK - durationJ) * y[j, k, i] + 2 * y[j, k, i] * (x[k, i] - x[j, i]) >= durationK
    | Overlap(j: int, k: int, i: int, durationJ: int, durationK: int)
      // makespan - x[job, last] >= lastDuration
    | MakespanBound(job: int, last: int, lastDuration: int)

  /** The label the builder gives the constraint. */
  function Label(c: Constraint): string
  {
    match c
    case Precedence(job, curr, _, _) => PrecedenceLabel(job, curr)
    case Disjunction1(j, k, i, _, _) => Disjunction1Label(j, k, i)
    case Disjunction2(j, k, i, _, _) => Disjunction2Label(j, k, i)
    case Overlap(j, k, i, _, _) => OverlapLabel(j, k, i)
    case MakespanBound(job, _, _) => MakespanLabel(job)
  }

  /** What a label names: the constraint's kind and the jobs and resource it is formatted from. */
  datatype LabelKey =
    | PrecedenceKey(job: int, machine: int)
    | Disjunction1Key(j: int, k: int, i: int)
    | Disjunction2Key(j: int, k: int, i: int)
    | OverlapKey(j: int, k: int, i: int)
    | MakespanKey(job: int)

  function Key(c: Constraint): LabelKey
  {
    match c
    case Precedence(job, curr, _, _) => PrecedenceKey(job, curr)
    case Disjunction1(j, k, i, _, _) => Disjunction1Key(j, k, i)
    case Disjunction2(j, k, i, _, _) => Disjunction2Key(j, k, i)
    case Overlap(j, k, i, _, _) => OverlapKey(j, k, i)
    case MakespanBound(job, _, _) => MakespanKey(job)
  }

  /** The characters of a label's fixed prefix that tell the five kinds apart. */
  lemma LabelMarks(c: Constraint)
    ensures |Label(c)| > 0
    ensures Label(c)[0] == (if c.Precedence? then 'p' else if c.Overlap? then 'O' else if c.MakespanBound? then 'm' else 'd')
    ensures c.Disjunction1? ==> |Label(c)| > 11 && Label(c)[11] == '1'
    ensures c.Disjunction2? ==> |Label(c)| > 11 && Label(c)[11] == '2'
  {
  }

  /**
   * Two constraints get the same label exactly when they are of the same kind
   * and name the same jobs and resource: the label formats never collide.
   */
  lemma LabelsIdentify(c1: Constraint, c2: Constraint)
    ensures Label(c1) == Label(c2) <==> Key(c1) == Key(c2)
  {
    if Label(c1) == Label(c2) {
      LabelMarks(c1);
      LabelMarks(c2);
      match c1
      case Precedence(job, curr, _, _) =>
        PrecedenceLabelInjective(job, curr, c2.job, c2.curr);
      case Disjunction1(j, k, i, _, _) =>
        Disjunction1LabelInjective(j, k, i, c2.j, c2.k, c2.i);
      case Disjunction2(j, k, i, _, _) =>
        Disjunction2LabelInjective(j, k, i, c2.j, c2.k, c2.i);
      case Overlap(j, k, i, _, _) =>
        OverlapLabelInjective(j, k, i, c2.j, c2.k, c2.i);
      case MakespanBound(job, _, _) =>
        MakespanLabelInjective(job, c2.job);
    }
  }

  /** Values for the variables: start times, ordering indicators and the makespan. */
  datatype Assignment = Assignment(x: map<(int, int), int>, y: map<(int, int, int), bool>, makespan: int)

  /** A binary variable's value as the integer the constraint expressions use. */
  function Bit(b: bool): int
  {
    if b then 1 else 0
  }

  /** `a` gives a value to every variable `c` mentions, and `c`'s inequality holds under it. */
  predicate Holds(c: Constraint, a: Assignment)
  {
    match c
    case Precedence(job, curr, prev, dPrev) =>
      (job, curr) in a.x && (job, prev) in a.x &&
      a.x[(job, curr)] - a.x[(job, prev)] >= dPrev
    case Disjunction1(j, k, i, dK, v) =>
      (j, i) in a.x && (k, i) in a.x && (j, k, i) in a.y &&
      a.x[(j, i)] - a.x[(k, i)] - dK + Bit(a.y[(j, k, i)]) * v >= 0
    case Disjunction2(j, k, i, dJ, v) =>
      (j, i) in a.x && (k, i) in a.x && (j, k, i) in a.y &&
      a.x[(k, i)] - a.x[(j, i)] - dJ + (1 - Bit(a.y[(j, k, i)])) * v >= 0
    case Overlap(j, k, i, dJ, dK) =>
      (j, i) in a.x && (k, i) in a.x && (j, k, i) in a.y &&
      a.x[(j, i)] - a.x[(k, i)] + (dK - dJ) * Bit(a.y[(j, k, i)])
        + 2 * Bit(a.y[(j, k, i)]) * (a.x[(k, i)] - a.x[(j, i)]) >= dK
    case MakespanBound(job, last, dLast) =>
      (job, last) in a.x && a.makespan - a.x[(job, last)] >= dLast
  }

  /** The intervals [sJ, sJ + dJ) and [sK, sK + dK) do not overlap: one ends before the other starts. */
  predicate Disjoint(sJ: int, dJ: int, sK: int, dK: int)
  {
    sJ + dJ <= sK || sK + dK <= sJ
  }

  /** Keys of the pair (j, k) on resource i are all assigned. */
  predicate PairAssigned(a: Assignment, j: int, k: int, i: int)
  {
    (j, i) in a.x && (k, i) in a.x && (j, k, i) in a.y
  }

  /**
   * The two big-M constraints of a pair: with y = 0 job j starts after job k
   * ends, with y = 1 job k starts after job j ends; either way the two
   * intervals on resource i are disjoint.
   */
  lemma DisjunctionsSeparate(j: int, k: int, i: int, dJ: int, dK: int, v: int, a: Assignment)
    requires Holds(Disjunction1(j, k, i, dK, v), a) && Holds(Disjunction2(j, k, i, dJ, v), a)
    ensures !a.y[(j, k, i)] ==> a.x[(j, i)] >= a.x[(k, i)] + dK
    ensures a.y[(j, k, i)] ==> a.x[(k, i)] >= a.x[(j, i)] + dJ
    ensures Disjoint(a.x[(j, i)], dJ, a.x[(k, i)], dK)
  {
  }

  /**
   * Conversely, two disjoint intervals that start at or after 0 and end at or
   * before the big-M bound satisfy both constraints when y records which of
   * the two comes first.
   */
  lemma DisjunctionsAdmitDisjoint(j: int, k: int, i: int, dJ: int, dK: int, v: int, a: Assignment)
    requires PairAssigned(a, j, k, i)
    requires 0 <= a.x[(j, i)] && a.x[(j, i)] + dJ <= v
    requires 0 <= a.x[(k, i)] && a.x[(k, i)] + dK <= v
    requires Disjoint(a.x[(j, i)], dJ, a.x[(k, i)], dK)
    requires a.y[(j, k, i)] == (a.x[(j, i)] + dJ <= a.x[(k, i)])
    ensures Holds(Disjunction1(j, k, i, dK, v), a) && Holds(Disjunction2(j, k, i, dJ, v), a)
  {
  }

  /**
   * The bilinear constraint of a pair reduces, at y = 0, to x[j] - x[k] >= dK
   * and, at y = 1, to x[k] - x[j] >= dJ.
   */
  lemma OverlapMeaning(j: int, k: int, i: int, dJ: int, dK: int, a: Assignment)
    requires PairAssigned(a, j, k, i)
    ensures Holds(Overlap(j, k, i, dJ, dK), a) <==>
      if a.y[(j, k, i)] then a.x[(k, i)] - a.x[(j, i)] >= dJ else a.x[(j, i)] - a.x[(k, i)] >= dK
  {
    var xj, xk := a.x[(j, i)], a.x[(k, i)];
    if a.y[(j, k, i)] {
      assert Bit(a.y[(j, k, i)]) == 1;
      assert xj - xk + (dK - dJ) * 1 + 2 * 1 * (xk - xj) == xk - xj + dK - dJ;
    } else {
      assert Bit(a.y[(j, k, i)]) == 0;
    }
  }

  /**
   * The two exclusivity policies agree pair by pair: when both intervals lie
   * within [0, v], the bilinear constraint holds exactly when both big-M
   * constraints hold, for the same value of y.
   */
  lemma OverlapMatchesDisjunctions(j: int, k: int, i: int, dJ: int, dK: int, v: int, a: Assignment)
    requires PairAssigned(a, j, k, i)
    requires 0 <= a.x[(j, i)] && a.x[(j, i)] + dJ <= v
    requires 0 <= a.x[(k, i)] && a.x[(k, i)] + dK <= v
    ensures Holds(Overlap(j, k, i, dJ, dK), a) <==>
      Holds(Disjunction1(j, k, i, dK, v), a) && Holds(Disjunction2(j, k, i, dJ, v), a)
  {
    OverlapMeaning(j, k, i, dJ, dK, a);
  }
}
