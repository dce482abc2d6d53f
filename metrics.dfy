/** The in-memory metrics of backend/dist/shared/logger.js: `MetricsCollector` keeps a
    counter table and a gauge table, two JavaScript `Map`s changed in place. The static
    maps are the fields of one collector instance here. */
module Metrics {
  import opened Wrappers
  import opened OrderedMaps

  /** The value a counter reads as: its stored value, or 0 when it has none. */
  function CounterValue(m: OrderedMap<int>, name: string): int {
    m.Get(name).GetOr(0)
  }

  /** The counter table after `incrementCounter(name, value)`. */
  function Incremented(m: OrderedMap<int>, name: string, value: int): (r: OrderedMap<int>)
    requires m.Valid()
    ensures r.Valid()
  {
    m.Set(name, CounterValue(m, name) + value)
  }

  /** An increment adds `value` to its own counter and to no other. */
  lemma IncrementedReads(m: OrderedMap<int>, name: string, value: int, other: string)
    requires m.Valid()
    ensures CounterValue(Incremented(m, name, value), name) == CounterValue(m, name) + value
    ensures other != name ==> CounterValue(Incremented(m, name, value), other) == CounterValue(m, other)
  {
    SetGet(m, name, CounterValue(m, name) + value, other);
  }

  /** The counter table after one default increment (by 1) per name, in order. */
  function IncrementAll(m: OrderedMap<int>, names: seq<string>): (r: OrderedMap<int>)
    requires m.Valid()
    ensures r.Valid()
  {
    if names == [] then m else Incremented(IncrementAll(m, names[..|names| - 1]), names[|names| - 1], 1)
  }

  /** One more increment extends the run by one name. */
  lemma IncrementOneMore(m: OrderedMap<int>, names: seq<string>, name: string)
    requires m.Valid()
    ensures IncrementAll(m, names + [name]) == Incremented(IncrementAll(m, names), name, 1)
  {
    assert (names + [name])[..|names|] == names;
  }

  /** One increment. */
  lemma IncrementOne(m: OrderedMap<int>, a: string)
    requires m.Valid()
    ensures IncrementAll(m, [a]) == Incremented(m, a, 1)
  {
    IncrementOneMore(m, [], a);
    assert [] + [a] == [a];
  }

  /** Two increments in a row. */
  lemma IncrementTwo(m: OrderedMap<int>, a: string, b: string)
    requires m.Valid()
    ensures IncrementAll(m, [a, b]) == Incremented(IncrementAll(m, [a]), b, 1)
  {
    IncrementOneMore(m, [a], b);
    assert [a] + [b] == [a, b];
  }

  /** Three increments in a row. */
  lemma IncrementThree(m: OrderedMap<int>, a: string, b: string, c: string)
    requires m.Valid()
    ensures IncrementAll(m, [a, b, c]) == Incremented(IncrementAll(m, [a, b]), c, 1)
  {
    IncrementOneMore(m, [a, b], c);
    assert [a, b] + [c] == [a, b, c];
  }

  /** How many times `name` occurs in `names`. */
  function Occurrences(names: seq<string>, name: string): nat {
    if names == [] then 0
    else Occurrences(names[..|names| - 1], name) + (if names[|names| - 1] == name then 1 else 0)
  }

  /** After a run of increments every counter has grown by the number of times it was named. */
  lemma {:induction false} IncrementAllReads(m: OrderedMap<int>, names: seq<string>, name: string)
    requires m.Valid()
    ensures CounterValue(IncrementAll(m, names), name) == CounterValue(m, name) + Occurrences(names, name)
  {
    if names != [] {
      IncrementAllReads(m, names[..|names| - 1], name);
      IncrementedReads(IncrementAll(m, names[..|names| - 1]), names[|names| - 1], 1, name);
    }
  }

  /** `getMetrics()` without its timestamp: the two tables as they stand. */
  datatype Snapshot = Snapshot(counters: OrderedMap<int>, gauges: OrderedMap<int>)

  class MetricsCollector {
    var counters: OrderedMap<int>
    var gauges: OrderedMap<int>

    ghost predicate Valid()
      reads this
    {
      counters.Valid() && gauges.Valid()
    }

    constructor()
      ensures Valid()
      ensures counters == Empty() && gauges == Empty()
    {
      counters := Empty();
      gauges := Empty();
    }

    /** `incrementCounter(name, value)`: the counter becomes its old value (0 when absent)
        plus `value`; the gauges are untouched. */
    method IncrementCounter(name: string, value: int)
      requires Valid()
      modifies this
      ensures Valid()
      ensures counters == Incremented(old(counters), name, value)
      ensures gauges == old(gauges)
    {
      var current := counters.Get(name).GetOr(0);
      counters := counters.Set(name, current + value);
    }

    /** `setGauge(name, value)`: overwrites one gauge; the counters are untouched. */
    method SetGauge(name: string, value: int)
      requires Valid()
      modifies this
      ensures Valid()
      ensures gauges == old(gauges).Set(name, value)
      ensures counters == old(counters)
    {
      gauges := gauges.Set(name, value);
    }

    /** `getMetrics`. */
    method GetMetrics() returns (s: Snapshot)
      requires Valid()
      ensures s == Snapshot(counters, gauges)
      ensures s.counters.Valid() && s.gauges.Valid()
    {
      s := Snapshot(counters, gauges);
    }

    /** `reset`: empties both tables. */
    method Reset()
      modifies this
      ensures Valid()
      ensures counters == Empty() && gauges == Empty()
    {
      counters := Empty();
      gauges := Empty();
    }
  }
}
