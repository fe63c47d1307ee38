/**
 * Variable names and constraint labels. The builder names its start-time
 * variables 'x{j}_{i}', its ordering indicators 'y{j}_{k}_{i}' and the
 * makespan variable 'makespan'; the MIP post-processing recovers (j, i) from
 * an 'x' name by dropping the first character, splitting on '_' and reading
 * both parts as integers. This module models str() of an integer, str.split
 * on one character and int() of a string, and proves the round trip.
 */
module Names {
  import opened ShopData

  predicate IsDigit(c: char)
  {
    '0' <= c <= '9'
  }

  predicate AllDigits(s: string)
  {
    forall n :: 0 <= n < |s| ==> IsDigit(s[n])
  }

  function DigitChar(n: nat): (c: char)
    requires n < 10
    ensures IsDigit(c) && c as int - '0' as int == n
  {
    ('0' as int + n) as char
  }

  /** Decimal rendering of a natural number, without leading zeros. */
  function NatToString(n: nat): (s: string)
    ensures |s| > 0 && AllDigits(s)
    ensures s[0] == '0' ==> n == 0
    decreases n
  {
    if n < 10 then [DigitChar(n)] else NatToString(n / 10) + [DigitChar(n % 10)]
  }

  /** Python's str() of an integer: a '-' sign for negative numbers, then the digits. */
  function IntToString(n: int): (s: string)
    ensures |s| > 0 && '_' !in s
  {
    if n < 0 then "-" + NatToString(-n) else NatToString(n)
  }

  /** The value of a string of decimal digits (leading zeros allowed, as int() allows them). */
  function DigitsValue(s: string): nat
    requires AllDigits(s)
    decreases |s|
  {
    if |s| == 0 then 0 else DigitsValue(s[..|s| - 1]) * 10 + (s[|s| - 1] as int - '0' as int)
  }

  /**
   * int(s) on an ASCII string: an optional sign followed by at least one
   * digit; anything else is the ValueError int() raises, here None.
   */
  function ParseInt(s: string): (r: Option<int>)
    ensures r.Some? ==> |s| > 0 && AllDigits(s[1..])
    ensures r.Some? && r.value < 0 ==> s[0] == '-'
    ensures r.Some? && s[0] == '-' ==> r.value <= 0
  {
    if |s| > 1 && (s[0] == '-' || s[0] == '+') && AllDigits(s[1..]) then
      var magnitude: int := DigitsValue(s[1..]);
      Some(if s[0] == '-' then -magnitude else magnitude)
    else if |s| > 0 && AllDigits(s) then
      Some(DigitsValue(s))
    else
      None
  }

  lemma {:induction false} DigitsValueOfNatToString(n: nat)
    ensures DigitsValue(NatToString(n)) == n
    decreases n
  {
    var s := NatToString(n);
    if n >= 10 {
      DigitsValueOfNatToString(n / 10);
      assert s[..|s| - 1] == NatToString(n / 10);
    }
  }

  lemma ParseIntOfDigits(s: string)
    requires |s| > 0 && AllDigits(s)
    ensures ParseInt(s) == Some(DigitsValue(s))
  {
    assert IsDigit(s[0]);
  }

  lemma ParseIntOfNegative(digits: string)
    requires |digits| > 0 && AllDigits(digits)
    ensures ParseInt("-" + digits).Some? && ParseInt("-" + digits).value + DigitsValue(digits) == 0
  {
    var s := "-" + digits;
    assert s[0] == '-' && s[1..] == digits;
  }

  /** int(str(n)) == n. */
  lemma ParseIntOfIntToString(n: int)
    ensures ParseInt(IntToString(n)) == Some(n)
  {
    if n < 0 {
      DigitsValueOfNatToString(-n);
      ParseIntOfNegative(NatToString(-n));
    } else {
      DigitsValueOfNatToString(n);
      ParseIntOfDigits(NatToString(n));
    }
  }

  /** Python's s.split(sep) for a one-character separator: every occurrence splits, empty parts kept. */
  function Split(s: string, sep: char): (parts: seq<string>)
    ensures |parts| >= 1
    ensures sep !in s ==> parts == [s]
    decreases |s|
  {
    if |s| == 0 then [""]
    else
      var rest := Split(s[1..], sep);
      assert s == [s[0]] + s[1..];
      if s[0] == sep then [""] + rest else [[s[0]] + rest[0]] + rest[1..]
  }

  /** Splitting a + [sep] + b where a holds no separator gives a, then the parts of b. */
  lemma {:induction false} SplitAfterSeparator(a: string, sep: char, b: string)
    requires sep !in a
    ensures Split(a + [sep] + b, sep) == [a] + Split(b, sep)
    decreases |a|
  {
    var s := a + [sep] + b;
    if |a| == 0 {
      assert s[1..] == b;
    } else {
      assert s[1..] == a[1..] + [sep] + b;
      SplitAfterSeparator(a[1..], sep, b);
      assert [a[0]] + a[1..] == a;
    }
  }

  /** The name of the start-time variable of job j on resource i: 'x{j}_{i}'. */
  function XName(j: int, i: int): (name: string)
    ensures StartsWithX(name)
  {
    "x" + IntToString(j) + "_" + IntToString(i)
  }

  /** The name of the ordering indicator of jobs j, k on resource i: 'y{j}_{k}_{i}'. */
  function YName(j: int, k: int, i: int): (name: string)
    ensures |name| > 0 && name[0] == 'y'
  {
    "y" + IntToString(j) + "_" + IntToString(k) + "_" + IntToString(i)
  }

  const MakespanName: string := "makespan"

  /** var.startswith('x') */
  predicate StartsWithX(name: string)
  {
    |name| > 0 && name[0] == 'x'
  }

  /**
   * `job, machine = var[1:].split('_')` followed by int(job), int(machine):
   * None where Python would raise ValueError (not exactly two parts, or a
   * part that is not an integer).
   */
  function ParseXName(name: string): (r: Option<(int, int)>)
    requires StartsWithX(name)
    ensures r.Some? ==> '_' in name[1..]
  {
    var parts := Split(name[1..], '_');
    if |parts| != 2 then None
    else match (ParseInt(parts[0]), ParseInt(parts[1]))
      case (Some(j), Some(i)) => Some((j, i))
      case _ => None
  }

  /** The names the builder gives its variables parse back to the same (job, resource) pair. */
  lemma XNameRoundTrip(j: int, i: int)
    ensures StartsWithX(XName(j, i))
    ensures ParseXName(XName(j, i)) == Some((j, i))
  {
    var name, sj, si := XName(j, i), IntToString(j), IntToString(i);
    assert name[1..] == sj + ['_'] + si;
    SplitAfterSeparator(sj, '_', si);
    assert Split(name[1..], '_') == [sj, si];
    ParseIntOfIntToString(j);
    ParseIntOfIntToString(i);
  }

  /** Only start-time variables pass the 'x' test; the indicators and the makespan do not. */
  lemma OnlyStartTimesStartWithX(j: int, k: int, i: int)
    ensures StartsWithX(XName(j, i))
    ensures !StartsWithX(YName(j, k, i)) && !StartsWithX(MakespanName)
  {
  }

  /** Distinct (job, resource) pairs get distinct start-time names. */
  lemma XNameInjective(j: int, i: int, j': int, i': int)
    requires XName(j, i) == XName(j', i')
    ensures j == j' && i == i'
  {
    XNameRoundTrip(j, i);
    XNameRoundTrip(j', i');
  }

  // Constraint labels, as the builder formats them.

  function PrecedenceLabel(job: int, machine: int): string
  {
    "pj" + PairTail(job, machine)
  }

  function OverlapLabel(j: int, k: int, i: int): string
  {
    "OneJobj" + TripleTail(j, k, i)
  }

  function Disjunction1Label(j: int, k: int, i: int): string
  {
    "disjunction1" + TripleTail(j, k, i)
  }

  function Disjunction2Label(j: int, k: int, i: int): string
  {
    "disjunction2" + TripleTail(j, k, i)
  }

  function MakespanLabel(job: int): string
  {
    "makespan_ctr" + IntToString(job)
  }

  /** str() never gives two integers the same rendering. */
  lemma IntToStringInjective(a: int, b: int)
    requires IntToString(a) == IntToString(b)
    ensures a == b
  {
    ParseIntOfIntToString(a);
    ParseIntOfIntToString(b);
  }

  lemma PrefixCancels(p: string, a: string, b: string)
    requires p + a == p + b
    ensures a == b
  {
    assert a == (p + a)[|p|..];
    assert b == (p + b)[|p|..];
  }

  /** The part of a precedence label after its fixed prefix: '{job}_m{machine}'. */
  function PairTail(job: int, machine: int): string
  {
    IntToString(job) + "_" + ("m" + IntToString(machine))
  }

  lemma PairTailSplit(job: int, machine: int)
    ensures Split(PairTail(job, machine), '_') == [IntToString(job), "m" + IntToString(machine)]
  {
    SplitAfterSeparator(IntToString(job), '_', "m" + IntToString(machine));
  }

  /** The part of a three-identifier label after its fixed prefix: '{j}_j{k}_m{i}'. */
  function TripleTail(j: int, k: int, i: int): string
  {
    IntToString(j) + "_" + ("j" + IntToString(k) + "_" + ("m" + IntToString(i)))
  }

  lemma TripleTailInjective(j: int, k: int, i: int, j': int, k': int, i': int)
    requires TripleTail(j, k, i) == TripleTail(j', k', i')
    ensures j == j' && k == k' && i == i'
  {
    TripleTailSplit(j, k, i);
    TripleTailSplit(j', k', i');
    IntToStringInjective(j, j');
    PrefixCancels("j", IntToString(k), IntToString(k'));
    IntToStringInjective(k, k');
    PrefixCancels("m", IntToString(i), IntToString(i'));
    IntToStringInjective(i, i');
  }

  lemma TripleTailSplit(j: int, k: int, i: int)
    ensures Split(TripleTail(j, k, i), '_') == [IntToString(j), "j" + IntToString(k), "m" + IntToString(i)]
  {
    var sj, sk, si := IntToString(j), "j" + IntToString(k), "m" + IntToString(i);
    SplitAfterSeparator(sj, '_', sk + "_" + si);
    SplitAfterSeparator(sk, '_', si);
  }

  /** Precedence labels 'pj{job}_m{machine}' determine the job and the machine. */
  lemma PrecedenceLabelInjective(job: int, m: int, job': int, m': int)
    requires PrecedenceLabel(job, m) == PrecedenceLabel(job', m')
    ensures job == job' && m == m'
  {
    PrefixCancels("pj", PairTail(job, m), PairTail(job', m'));
    PairTailSplit(job, m);
    PairTailSplit(job', m');
    IntToStringInjective(job, job');
    PrefixCancels("m", IntToString(m), IntToString(m'));
    IntToStringInjective(m, m');
  }

  /** Bilinear labels 'OneJobj{j}_j{k}_m{i}' determine j, k and i. */
  lemma OverlapLabelInjective(j: int, k: int, i: int, j': int, k': int, i': int)
    requires OverlapLabel(j, k, i) == OverlapLabel(j', k', i')
    ensures j == j' && k == k' && i == i'
  {
    PrefixCancels("OneJobj", TripleTail(j, k, i), TripleTail(j', k', i'));
    TripleTailInjective(j, k, i, j', k', i');
  }

  /** Big-M labels 'disjunction1{j}_j{k}_m{i}' determine j, k and i. */
  lemma Disjunction1LabelInjective(j: int, k: int, i: int, j': int, k': int, i': int)
    requires Disjunction1Label(j, k, i) == Disjunction1Label(j', k', i')
    ensures j == j' && k == k' && i == i'
  {
    PrefixCancels("disjunction1", TripleTail(j, k, i), TripleTail(j', k', i'));
    TripleTailInjective(j, k, i, j', k', i');
  }

  /** Big-M labels 'disjunction2{j}_j{k}_m{i}' determine j, k and i. */
  lemma Disjunction2LabelInjective(j: int, k: int, i: int, j': int, k': int, i': int)
    requires Disjunction2Label(j, k, i) == Disjunction2Label(j', k', i')
    ensures j == j' && k == k' && i == i'
  {
    PrefixCancels("disjunction2", TripleTail(j, k, i), TripleTail(j', k', i'));
    TripleTailInjective(j, k, i, j', k', i');
  }

  /** Makespan labels 'makespan_ctr{job}' determine the job. */
  lemma MakespanLabelInjective(job: int, job': int)
    requires MakespanLabel(job) == MakespanLabel(job')
    ensures job == job'
  {
    PrefixCancels("makespan_ctr", IntToString(job), IntToString(job'));
    IntToStringInjective(job, job');
  }
}
