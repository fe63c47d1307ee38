/**
 * Turning a solver's sample back into a schedule. The MIP path walks the
 * sample's (name, value) items in order, skips every name that does not start
 * with 'x', parses the rest back into (job, resource) and stores
 * (task, start, duration) under that key of an insertion-ordered dictionary;
 * the schedule table then has one row per dictionary entry.
 */
module Extraction {
  import opened ShopData
  import opened Names

  /** One entry of the solution dictionary: (job, resource) -> (task, start, duration). */
  datatype Entry = Entry(job: int, resource: int, task: Task, start: int, duration: int)

  function KeyOf(e: Entry): (int, int)
  {
    (e.job, e.resource)
  }

  /** A dictionary holds each key once. */
  predicate DistinctKeys(sol: seq<Entry>)
  {
    forall m, n :: 0 <= m < n < |sol| ==> KeyOf(sol[m]) != KeyOf(sol[n])
  }

  /** The dictionary as a map from key to entry. */
  function View(sol: seq<Entry>): map<(int, int), Entry>
    decreases |sol|
  {
    if sol == [] then map[] else View(sol[1..])[KeyOf(sol[0]) := sol[0]]
  }

  lemma {:induction false} ViewKeys(sol: seq<Entry>, key: (int, int))
    ensures key in View(sol) <==> exists n :: 0 <= n < |sol| && KeyOf(sol[n]) == key
    decreases |sol|
  {
    if sol != [] {
      ViewKeys(sol[1..], key);
      if exists n :: 0 <= n < |sol[1..]| && KeyOf(sol[1..][n]) == key {
        var n :| 0 <= n < |sol[1..]| && KeyOf(sol[1..][n]) == key;
        assert KeyOf(sol[n + 1]) == key;
      }
      if exists n :: 0 <= n < |sol| && KeyOf(sol[n]) == key {
        var n :| 0 <= n < |sol| && KeyOf(sol[n]) == key;
        if n > 0 {
          assert KeyOf(sol[1..][n - 1]) == key;
        }
      }
    }
  }

  /**
   * `solution[key] = e` on an insertion-ordered dictionary: an existing key
   * keeps its position and takes the new entry, a new key goes at the end.
   */
  function Put(sol: seq<Entry>, e: Entry): (r: seq<Entry>)
    ensures e in r && |sol| <= |r| <= |sol| + 1
    decreases |sol|
  {
    if sol == [] then [e]
    else if KeyOf(sol[0]) == KeyOf(e) then [e] + sol[1..]
    else [sol[0]] + Put(sol[1..], e)
  }

  /** Every other key keeps its entry and its position: the dictionary stays in insertion order. */
  lemma {:induction false} PutKeepsOrder(sol: seq<Entry>, e: Entry, n: nat)
    requires n < |sol| && KeyOf(sol[n]) != KeyOf(e)
    ensures Put(sol, e)[n] == sol[n]
    decreases |sol|
  {
    if n > 0 && KeyOf(sol[0]) != KeyOf(e) {
      PutKeepsOrder(sol[1..], e, n - 1);
    }
  }

  lemma {:induction false} PutKeepsKeysDistinct(sol: seq<Entry>, e: Entry)
    requires DistinctKeys(sol)
    ensures DistinctKeys(Put(sol, e))
    ensures forall n :: 0 <= n < |Put(sol, e)| ==> KeyOf(Put(sol, e)[n]) == KeyOf(e) || KeyOf(Put(sol, e)[n]) in View(sol)
    decreases |sol|
  {
    if sol != [] {
      var r := Put(sol, e);
      forall n | 0 < n < |sol| ensures KeyOf(sol[n]) in View(sol) {
        ViewKeys(sol, KeyOf(sol[n]));
      }
      if KeyOf(sol[0]) != KeyOf(e) {
        PutKeepsKeysDistinct(sol[1..], e);
        var rest := Put(sol[1..], e);
        assert r == [sol[0]] + rest;
        forall n | 0 <= n < |rest| ensures KeyOf(rest[n]) != KeyOf(sol[0]) {
          if KeyOf(rest[n]) != KeyOf(e) {
            ViewKeys(sol[1..], KeyOf(rest[n]));
            var m :| 0 <= m < |sol[1..]| && KeyOf(sol[1..][m]) == KeyOf(rest[n]);
            assert KeyOf(sol[m + 1]) == KeyOf(rest[n]);
          }
        }
        forall n | 0 <= n < |r| ensures KeyOf(r[n]) == KeyOf(e) || KeyOf(r[n]) in View(sol) {
          if n > 0 {
            assert r[n] == rest[n - 1];
            if KeyOf(rest[n - 1]) != KeyOf(e) {
              assert KeyOf(rest[n - 1]) in View(sol[1..]);
            }
          }
        }
      }
    }
  }

  /** Storing an entry updates exactly its key in the dictionary's view. */
  lemma {:induction false} PutView(sol: seq<Entry>, e: Entry)
    requires DistinctKeys(sol)
    ensures View(Put(sol, e)) == View(sol)[KeyOf(e) := e]
    decreases |sol|
  {
    if sol != [] && KeyOf(sol[0]) != KeyOf(e) {
      PutView(sol[1..], e);
      assert Put(sol, e)[1..] == Put(sol[1..], e);
    } else if sol != [] {
      assert Put(sol, e)[1..] == sol[1..];
    }
  }

  /** Why the Python loop would raise: a name that does not parse, or a pair the data source has no task for. */
  datatype Failure = MalformedName(name: string) | NoTask(job: int, resource: int)

  /** The dictionary after the loop, and the error that stopped it, if any. */
  datatype Extraction = Extraction(solution: seq<Entry>, failure: Option<Failure>)

  /** One iteration of the loop over the sample's items. */
  function Step(lookup: map<(int, int), Task>, sol: seq<Entry>, item: (string, int)): (r: Result<seq<Entry>, Failure>)
    ensures r.Err? ==> StartsWithX(item.0)
    ensures r.Ok? ==> |sol| <= |r.value| <= |sol| + 1
  {
    if !StartsWithX(item.0) then Ok(sol)
    else match ParseXName(item.0)
      case None => Err(MalformedName(item.0))
      case Some((j, i)) =>
        if (j, i) !in lookup then Err(NoTask(j, i))
        else Ok(Put(sol, Entry(j, i, lookup[(j, i)], item.1, lookup[(j, i)].duration)))
  }

  /** The loop of the MIP post-processing over `items`, starting from an empty dictionary. */
  function Absorb(lookup: map<(int, int), Task>, items: seq<(string, int)>): (r: Extraction)
    ensures |r.solution| <= |items|
    decreases |items|
  {
    if items == [] then Extraction([], None)
    else Advance(lookup, Absorb(lookup, items[..|items| - 1]), items[|items| - 1])
  }

  /** One more item: nothing once the loop has raised, otherwise one step. */
  function Advance(lookup: map<(int, int), Task>, before: Extraction, item: (string, int)): (r: Extraction)
    ensures before.failure.Some? ==> r.failure.Some?
    ensures |before.solution| <= |r.solution| <= |before.solution| + 1
  {
    if before.failure.Some? then before
    else match Step(lookup, before.solution, item)
      case Ok(sol) => Extraction(sol, None)
      case Err(f) => Extraction(before.solution, Some(f))
  }

  /** Every entry is the data source's task for its key, with that task's duration. */
  predicate FromLookup(lookup: map<(int, int), Task>, sol: seq<Entry>)
  {
    forall n :: 0 <= n < |sol| ==>
      KeyOf(sol[n]) in lookup && sol[n].task == lookup[KeyOf(sol[n])] && sol[n].duration == sol[n].task.duration
  }

  /** The key of an item that names a start-time variable, when its name parses. */
  predicate NamesKey(item: (string, int), key: (int, int))
  {
    StartsWithX(item.0) && ParseXName(item.0) == Some(key)
  }

  lemma {:induction false} PutFromLookup(lookup: map<(int, int), Task>, sol: seq<Entry>, e: Entry)
    requires FromLookup(lookup, sol)
    requires KeyOf(e) in lookup && e.task == lookup[KeyOf(e)] && e.duration == e.task.duration
    ensures FromLookup(lookup, Put(sol, e))
    decreases |sol|
  {
    if sol != [] && KeyOf(sol[0]) != KeyOf(e) {
      PutFromLookup(lookup, sol[1..], e);
    }
  }

  /**
   * The loop keeps a well-formed dictionary whose every entry is the data
   * source's task for its key, and whose every key was parsed from an 'x'
   * name of the sample: 'makespan' and the 'y' names are never added.
   */
  lemma {:induction false} AbsorbInvariant(lookup: map<(int, int), Task>, items: seq<(string, int)>)
    ensures DistinctKeys(Absorb(lookup, items).solution)
    ensures FromLookup(lookup, Absorb(lookup, items).solution)
    ensures forall key :: key in View(Absorb(lookup, items).solution) ==>
      exists n :: 0 <= n < |items| && NamesKey(items[n], key)
    decreases |items|
  {
    if items != [] {
      var front, item := items[..|items| - 1], items[|items| - 1];
      AbsorbInvariant(lookup, front);
      var before := Absorb(lookup, front);
      forall key | key in View(before.solution)
        ensures exists n :: 0 <= n < |items| && NamesKey(items[n], key)
      {
        var n :| 0 <= n < |front| && NamesKey(front[n], key);
        assert items[n] == front[n];
      }
      if before.failure.None? && StartsWithX(item.0) && ParseXName(item.0).Some? {
        var (j, i) := ParseXName(item.0).value;
        if (j, i) in lookup {
          var e := Entry(j, i, lookup[(j, i)], item.1, lookup[(j, i)].duration);
          PutKeepsKeysDistinct(before.solution, e);
          PutFromLookup(lookup, before.solution, e);
          PutView(before.solution, e);
          assert NamesKey(items[|items| - 1], (j, i));
        }
      }
    }
  }

  /** The items of `items` whose names start with 'x', in order. */
  function StartTimeItems(items: seq<(string, int)>): (r: seq<(string, int)>)
    ensures |r| <= |items|
    ensures forall n :: 0 <= n < |r| ==> StartsWithX(r[n].0)
    decreases |items|
  {
    if items == [] then []
    else
      var last := items[|items| - 1];
      StartTimeItems(items[..|items| - 1]) + (if StartsWithX(last.0) then [last] else [])
  }

  /** Items whose names do not start with 'x' have no effect: the loop sees only the start times. */
  lemma {:induction false} AbsorbIgnoresOtherNames(lookup: map<(int, int), Task>, items: seq<(string, int)>)
    ensures Absorb(lookup, items) == Absorb(lookup, StartTimeItems(items))
    decreases |items|
  {
    if items != [] {
      var front, last := items[..|items| - 1], items[|items| - 1];
      AbsorbIgnoresOtherNames(lookup, front);
      var filtered := StartTimeItems(items);
      var before := Absorb(lookup, front);
      if StartsWithX(last.0) {
        assert filtered == StartTimeItems(front) + [last];
        assert filtered[..|filtered| - 1] == StartTimeItems(front);
        assert Absorb(lookup, filtered) == Advance(lookup, before, last);
      } else {
        assert filtered == StartTimeItems(front);
        assert Step(lookup, before.solution, last) == Ok(before.solution);
      }
    }
  }

  /** Once the loop has raised, later items change nothing. */
  lemma {:induction false} AbsorbStopsAtFailure(lookup: map<(int, int), Task>, items: seq<(string, int)>, n: nat)
    requires n <= |items| && Absorb(lookup, items[..n]).failure.Some?
    ensures Absorb(lookup, items) == Absorb(lookup, items[..n])
    decreases |items| - n
  {
    if n < |items| {
      assert items[..n + 1][..n] == items[..n];
      AbsorbStopsAtFailure(lookup, items, n + 1);
    } else {
      assert items[..n] == items;
    }
  }

  /** Every key parsed from an 'x' name is in the dictionary, unless the loop raised. */
  lemma {:induction false} AbsorbKeepsNamedKeys(lookup: map<(int, int), Task>, items: seq<(string, int)>, n: nat, key: (int, int))
    requires n < |items| && NamesKey(items[n], key)
    requires Absorb(lookup, items).failure == None
    ensures key in View(Absorb(lookup, items).solution)
    decreases |items|
  {
    var front, item := items[..|items| - 1], items[|items| - 1];
    var before := Absorb(lookup, front);
    AbsorbInvariant(lookup, front);
    assert before.failure == None;
    if n < |front| {
      assert NamesKey(front[n], key);
      AbsorbKeepsNamedKeys(lookup, front, n, key);
    }
    if StartsWithX(item.0) && ParseXName(item.0).Some? {
      var (j, i) := ParseXName(item.0).value;
      if (j, i) in lookup {
        var e := Entry(j, i, lookup[(j, i)], item.1, lookup[(j, i)].duration);
        PutView(before.solution, e);
      }
    }
  }

  /** The sample's 'x' items name pairs the data source knows, each carrying the value `x` gives that pair. */
  predicate SampleOf(lookup: map<(int, int), Task>, x: map<(int, int), int>, items: seq<(string, int)>)
  {
    forall n :: 0 <= n < |items| && StartsWithX(items[n].0) ==>
      exists p :: p in lookup && p in x && items[n] == (XName(p.0, p.1), x[p])
  }

  lemma {:induction false} AbsorbSampleValues(lookup: map<(int, int), Task>, x: map<(int, int), int>, items: seq<(string, int)>)
    requires SampleOf(lookup, x, items)
    ensures Absorb(lookup, items).failure == None
    ensures forall key :: key in View(Absorb(lookup, items).solution) ==>
      key in lookup && key in x &&
      View(Absorb(lookup, items).solution)[key] == Entry(key.0, key.1, lookup[key], x[key], lookup[key].duration)
    decreases |items|
  {
    if items != [] {
      var front, item := items[..|items| - 1], items[|items| - 1];
      assert SampleOf(lookup, x, front) by {
        forall n | 0 <= n < |front| && StartsWithX(front[n].0)
          ensures exists p :: p in lookup && p in x && front[n] == (XName(p.0, p.1), x[p])
        {
          assert front[n] == items[n];
        }
      }
      AbsorbSampleValues(lookup, x, front);
      var before := Absorb(lookup, front);
      AbsorbInvariant(lookup, front);
      if StartsWithX(item.0) {
        assert exists p :: p in lookup && p in x && items[|items| - 1] == (XName(p.0, p.1), x[p]);
        var p :| p in lookup && p in x && item == (XName(p.0, p.1), x[p]);
        XNameRoundTrip(p.0, p.1);
        var e := Entry(p.0, p.1, lookup[p], x[p], lookup[p].duration);
        assert Step(lookup, before.solution, item) == Ok(Put(before.solution, e));
        PutView(before.solution, e);
      } else {
        assert Step(lookup, before.solution, item) == Ok(before.solution);
      }
    }
  }

  /**
   * A sample whose 'x' names are the builder's names of pairs the data
   * source knows, each carrying the value `x` gives that pair, is read back
   * without error; the dictionary holds exactly the pairs named in the
   * sample, each with its task, its value as start time and the task's
   * duration.
   */
  lemma AbsorbReadsStartTimes(lookup: map<(int, int), Task>, x: map<(int, int), int>, items: seq<(string, int)>)
    requires SampleOf(lookup, x, items)
    ensures Absorb(lookup, items).failure == None
    ensures forall key :: key in View(Absorb(lookup, items).solution) <==>
      exists n :: 0 <= n < |items| && NamesKey(items[n], key)
    ensures forall key :: key in View(Absorb(lookup, items).solution) ==>
      key in lookup && key in x &&
      View(Absorb(lookup, items).solution)[key] == Entry(key.0, key.1, lookup[key], x[key], lookup[key].duration)
  {
    AbsorbSampleValues(lookup, x, items);
    AbsorbInvariant(lookup, items);
    forall key, n | 0 <= n < |items| && NamesKey(items[n], key)
      ensures key in View(Absorb(lookup, items).solution)
    {
      AbsorbKeepsNamedKeys(lookup, items, n, key);
    }
  }

  /** One row of the schedule table: Job, Task, Start, Finish, Resource. */
  datatype Row = Row(job: int, task: Task, start: int, finish: int, resource: int)
}
