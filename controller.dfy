/** The search controller (backend/dist/presentation/controllers/SearchController.js): the
    Prometheus text rendering of the metrics, and the search endpoint's validation and its
    classification of every outcome into counters. */
module Controller {
  import opened Wrappers
  import opened JsText
  import opened OrderedMaps
  import opened PersonEntity
  import opened Metrics
  import opened SearchUseCase

  /** `# TYPE name kind`, the type line of a metric. */
  function TypeLine(name: string, kind: string): string {
    "# TYPE " + name + " " + kind + "\n"
  }

  /** `name value`, the sample line of a metric. */
  function SampleLine(name: string, value: int): string {
    name + " " + IntToString(value) + "\n"
  }

  /** The two lines one metric contributes: its type line and its sample line. */
  function Block(name: string, kind: string, value: int): string {
    TypeLine(name, kind) + SampleLine(name, value)
  }

  /** The strings of `ss` one after the other. */
  function Concat(ss: seq<string>): string {
    if ss == [] then "" else Concat(ss[..|ss| - 1]) + ss[|ss| - 1]
  }

  /** The block of each of `keys`, in that order, reading each value from `values`. */
  function Blocks(keys: seq<string>, values: map<string, int>, kind: string): (r: seq<string>)
    requires forall k :: k in keys ==> k in values
    ensures |r| == |keys|
    ensures forall j :: 0 <= j < |keys| ==> r[j] == Block(keys[j], kind, values[keys[j]])
  {
    seq(|keys|, j requires 0 <= j < |keys| => Block(keys[j], kind, values[keys[j]]))
  }

  /** The text of one kind of metric. */
  function Section(keys: seq<string>, values: map<string, int>, kind: string): string
    requires forall k :: k in keys ==> k in values
  {
    Concat(Blocks(keys, values, kind))
  }

  /** The whole text: every counter in insertion order, then every gauge. */
  function Prometheus(metrics: Snapshot): string
    requires metrics.counters.Valid() && metrics.gauges.Valid()
  {
    Section(metrics.counters.keys, metrics.counters.entries, "counter")
      + Section(metrics.gauges.keys, metrics.gauges.entries, "gauge")
  }

  /** `formatPrometheusMetrics`: the counter loop, then the gauge loop. */
  method FormatPrometheusMetrics(metrics: Snapshot) returns (output: string)
    requires metrics.counters.Valid() && metrics.gauges.Valid()
    ensures output == Prometheus(metrics)
  {
    output := "";
    output := AppendSection(output, metrics.counters.keys, metrics.counters.entries, "counter");
    output := AppendSection(output, metrics.gauges.keys, metrics.gauges.entries, "gauge");
    assert "" + Section(metrics.counters.keys, metrics.counters.entries, "counter")
           == Section(metrics.counters.keys, metrics.counters.entries, "counter");
  }

  /** One of the two loops: for each metric, in order, `output += "# TYPE name kind\n"` and
      `output += "name value\n"`. */
  method AppendSection(start: string, keys: seq<string>, values: map<string, int>, kind: string)
    returns (output: string)
    requires forall k :: k in keys ==> k in values
    ensures output == start + Section(keys, values, kind)
  {
    output := start;
    ghost var bs := Blocks(keys, values, kind);
    for i := 0 to |keys|
      invariant output == start + Concat(bs[..i])
    {
      assert bs[..i + 1][..i] == bs[..i];
      var name := keys[i];
      var value := values[name];
      AppendTwo(start, Concat(bs[..i]), TypeLine(name, kind), SampleLine(name, value));
      output := output + TypeLine(name, kind);
      output := output + SampleLine(name, value);
      assert Concat(bs[..i + 1]) == Concat(bs[..i]) + bs[i];
    }
    assert bs[..|keys|] == bs;
  }

  /** Appending two pieces one after the other appends their concatenation. */
  lemma AppendTwo(a: string, b: string, c: string, d: string)
    ensures a + b + c + d == a + (b + (c + d))
  {
  }

  /** The i-th string sits right after the strings before it. */
  lemma {:induction false} ConcatAt(ss: seq<string>, i: nat)
    requires i < |ss|
    ensures Concat(ss) == Concat(ss[..i]) + ss[i] + Concat(ss[i + 1..])
  {
    var init := ss[..|ss| - 1];
    if i == |ss| - 1 {
      assert ss[i + 1..] == [];
    } else {
      ConcatAt(init, i);
      assert init[..i] == ss[..i];
      var rest := ss[i + 1..];
      assert rest[..|rest| - 1] == init[i + 1..];
    }
  }

  /** A non-empty list of metrics renders to non-empty text. */
  lemma SectionNonEmpty(keys: seq<string>, values: map<string, int>, kind: string)
    requires forall k :: k in keys ==> k in values
    requires keys != []
    ensures Section(keys, values, kind) != ""
  {
    var bs := Blocks(keys, values, kind);
    assert |bs[|bs| - 1]| > 0;
  }

  /** No metrics at all give the empty text, and only then. */
  lemma PrometheusEmpty(metrics: Snapshot)
    requires metrics.counters.Valid() && metrics.gauges.Valid()
    ensures Prometheus(metrics) == "" <==> metrics.counters.keys == [] && metrics.gauges.keys == []
  {
    if metrics.counters.keys != [] {
      SectionNonEmpty(metrics.counters.keys, metrics.counters.entries, "counter");
    }
    if metrics.gauges.keys != [] {
      SectionNonEmpty(metrics.gauges.keys, metrics.gauges.entries, "gauge");
    }
  }

  /** The counters' text comes first, the gauges' text after it. */
  lemma CountersFirst(metrics: Snapshot)
    requires metrics.counters.Valid() && metrics.gauges.Valid()
    ensures StartsWith(Prometheus(metrics), Section(metrics.counters.keys, metrics.counters.entries, "counter"))
    ensures EndsWith(Prometheus(metrics), Section(metrics.gauges.keys, metrics.gauges.entries, "gauge"))
  {
    var ct := Section(metrics.counters.keys, metrics.counters.entries, "counter");
    var gt := Section(metrics.gauges.keys, metrics.gauges.entries, "gauge");
    assert (ct + gt)[..|ct|] == ct;
    assert (ct + gt)[|ct + gt| - |gt|..] == gt;
  }

  /** Every metric of a section appears in it with its type line and its current value. */
  lemma InSection(keys: seq<string>, values: map<string, int>, kind: string, name: string)
    requires forall k :: k in keys ==> k in values
    requires name in keys
    ensures Contains(Section(keys, values, kind), Block(name, kind, values[name]))
  {
    var i :| 0 <= i < |keys| && keys[i] == name;
    var bs := Blocks(keys, values, kind);
    ConcatAt(bs, i);
    ContainsSelf(bs[i]);
    ContainsInConcat(Concat(bs[..i]), bs[i], Concat(bs[i + 1..]), bs[i]);
  }

  /** Every counter is rendered with its current value. */
  lemma CounterRendered(metrics: Snapshot, name: string)
    requires metrics.counters.Valid() && metrics.gauges.Valid()
    requires name in metrics.counters.entries
    ensures Contains(Prometheus(metrics), Block(name, "counter", metrics.counters.entries[name]))
  {
    var ct := Section(metrics.counters.keys, metrics.counters.entries, "counter");
    var gt := Section(metrics.gauges.keys, metrics.gauges.entries, "gauge");
    InSection(metrics.counters.keys, metrics.counters.entries, "counter", name);
    ContainsInConcat("", ct, gt, Block(name, "counter", metrics.counters.entries[name]));
    assert "" + ct == ct;
  }

  /** Every gauge is rendered with its current value. */
  lemma GaugeRendered(metrics: Snapshot, name: string)
    requires metrics.counters.Valid() && metrics.gauges.Valid()
    requires name in metrics.gauges.entries
    ensures Contains(Prometheus(metrics), Block(name, "gauge", metrics.gauges.entries[name]))
  {
    var ct := Section(metrics.counters.keys, metrics.counters.entries, "counter");
    var gt := Section(metrics.gauges.keys, metrics.gauges.entries, "gauge");
    InSection(metrics.gauges.keys, metrics.gauges.entries, "gauge", name);
    ContainsInConcat(ct, gt, "", Block(name, "gauge", metrics.gauges.entries[name]));
    assert ct + gt + "" == ct + gt;
  }

  // ---------------------------------------------------------------------------------
  // searchPerson

  /** What `searchPersonUseCase.execute` does for one request: it answers, or it throws. */
  datatype Execution = Returned(response: Response) | Threw

  const RequiredError := "Query e type são obrigatórios"
  const InternalError := "Erro interno do servidor"

  const Total := "search_requests_total"
  const Invalid := "search_requests_invalid"
  const Successful := "search_requests_successful"
  const Failed := "search_requests_failed"
  const CacheHits := "search_cache_hits"
  const CacheMisses := "search_cache_misses"
  const Errored := "search_requests_error"

  /** `!query || !type` is false: both are present and non-empty. */
  predicate Accepted(query: Option<string>, kind: Option<string>) {
    Truthy(query) && Truthy(kind)
  }

  /** The cache counter a successful answer moves: hits when it says it was cached. */
  function CacheCounter(cached: Option<bool>): string {
    if cached == Some(true) then CacheHits else CacheMisses
  }

  /** The counters the use case's outcome increments after search_requests_total. */
  function OutcomeCounters(outcome: Execution): seq<string> {
    match outcome
    case Threw => [Errored]
    case Returned(result) => if result.success then [Successful, CacheCounter(result.cached)] else [Failed]
  }

  /** The counters one request increments, in the order the endpoint increments them. */
  function Classification(query: Option<string>, kind: Option<string>, execute: (string, string) -> Execution): seq<string> {
    if !Accepted(query, kind) then [Total, Invalid]
    else [Total] + OutcomeCounters(execute(query.value, kind.value))
  }

  /** `searchPerson` on the body's `query` and `type`, with `execute` standing for the use
      case. Returns the HTTP status, the JSON body and whether the use case was run. */
  method SearchPerson(metrics: MetricsCollector, query: Option<string>, kind: Option<string>,
                      execute: (string, string) -> Execution)
    returns (status: int, body: Response, invoked: bool)
    requires metrics.Valid()
    modifies metrics
    ensures metrics.Valid()
    ensures metrics.counters == IncrementAll(old(metrics.counters), Classification(query, kind, execute))
    ensures metrics.gauges == old(metrics.gauges)
    ensures invoked <==> Accepted(query, kind)
    ensures !invoked ==> status == 400 && body == ErrorResponse(RequiredError)
    ensures invoked ==> match execute(query.value, kind.value)
                        case Threw => status == 500 && body == ErrorResponse(InternalError)
                        case Returned(result) => status == 200 && body == result
  {
    ghost var start := metrics.counters;
    metrics.IncrementCounter(Total, 1);
    if !Truthy(query) || !Truthy(kind) {
      metrics.IncrementCounter(Invalid, 1);
      IncrementOne(start, Total);
      IncrementTwo(start, Total, Invalid);
      return 400, ErrorResponse(RequiredError), false;
    }
    invoked := true;
    var outcome := execute(query.value, kind.value);
    match outcome
    case Threw =>
      metrics.IncrementCounter(Errored, 1);
      IncrementOne(start, Total);
      IncrementTwo(start, Total, Errored);
      assert [Total] + [Errored] == [Total, Errored];
      status, body := 500, ErrorResponse(InternalError);
    case Returned(result) =>
      if result.success {
        metrics.IncrementCounter(Successful, 1);
        if result.cached == Some(true) {
          metrics.IncrementCounter(CacheHits, 1);
        } else {
          metrics.IncrementCounter(CacheMisses, 1);
        }
        IncrementOne(start, Total);
        IncrementTwo(start, Total, Successful);
        IncrementThree(start, Total, Successful, CacheCounter(result.cached));
        assert [Total] + [Successful, CacheCounter(result.cached)] == [Total, Successful, CacheCounter(result.cached)];
      } else {
        metrics.IncrementCounter(Failed, 1);
        IncrementOne(start, Total);
        IncrementTwo(start, Total, Failed);
        assert [Total] + [Failed] == [Total, Failed];
      }
      status, body := 200, result;
  }

  /** How much a request moves one counter. */
  function Delta(query: Option<string>, kind: Option<string>, execute: (string, string) -> Execution, name: string): nat {
    Occurrences(Classification(query, kind, execute), name)
  }

  /** The request's effect on a counter is exactly its `Delta`. */
  lemma SearchPersonDelta(m: OrderedMap<int>, query: Option<string>, kind: Option<string>,
                          execute: (string, string) -> Execution, name: string)
    requires m.Valid()
    ensures CounterValue(IncrementAll(m, Classification(query, kind, execute)), name)
            == CounterValue(m, name) + Delta(query, kind, execute, name)
  {
    IncrementAllReads(m, Classification(query, kind, execute), name);
  }

  lemma OccurrencesOfTwo(a: string, b: string, name: string)
    ensures Occurrences([a, b], name) == (if a == name then 1 else 0) + (if b == name then 1 else 0)
  {
    assert [a, b][..1] == [a];
    assert Occurrences([a], name) == (if a == name then 1 else 0) by {
      assert [a][..0] == [];
    }
  }

  lemma OccurrencesOfThree(a: string, b: string, c: string, name: string)
    ensures Occurrences([a, b, c], name)
            == (if a == name then 1 else 0) + (if b == name then 1 else 0) + (if c == name then 1 else 0)
  {
    assert [a, b, c][..2] == [a, b];
    OccurrencesOfTwo(a, b, name);
  }

  /** The four lists a request can increment. */
  lemma ClassificationCases(query: Option<string>, kind: Option<string>, execute: (string, string) -> Execution)
    ensures !Accepted(query, kind) ==> Classification(query, kind, execute) == [Total, Invalid]
    ensures Accepted(query, kind) && execute(query.value, kind.value).Threw? ==>
              Classification(query, kind, execute) == [Total, Errored]
    ensures Accepted(query, kind) && execute(query.value, kind.value).Returned? ==>
              var result := execute(query.value, kind.value).response;
              Classification(query, kind, execute)
              == if result.success then [Total, Successful, CacheCounter(result.cached)] else [Total, Failed]
  {
    if Accepted(query, kind) {
      match execute(query.value, kind.value)
      case Threw =>
        assert [Total] + [Errored] == [Total, Errored];
      case Returned(result) =>
        assert [Total] + [Failed] == [Total, Failed];
        assert [Total] + [Successful, CacheCounter(result.cached)] == [Total, Successful, CacheCounter(result.cached)];
    }
  }

  /** Every request counts once in search_requests_total, whatever happens to it. */
  lemma {:induction false} TotalCountedOnce(query: Option<string>, kind: Option<string>, execute: (string, string) -> Execution)
    ensures Delta(query, kind, execute, Total) == 1
  {
    ClassificationCases(query, kind, execute);
    var cls := Classification(query, kind, execute);
    if |cls| == 2 {
      OccurrencesOfTwo(cls[0], cls[1], Total);
    } else {
      OccurrencesOfThree(cls[0], cls[1], cls[2], Total);
    }
  }

  /** A request without both fields counts as invalid and in no outcome counter. */
  lemma {:induction false} RejectedCounted(query: Option<string>, kind: Option<string>, execute: (string, string) -> Execution)
    requires !Accepted(query, kind)
    ensures Delta(query, kind, execute, Invalid) == 1
    ensures Delta(query, kind, execute, Successful) == 0 && Delta(query, kind, execute, Failed) == 0
    ensures Delta(query, kind, execute, Errored) == 0
  {
    ClassificationCases(query, kind, execute);
    OccurrencesOfTwo(Total, Invalid, Invalid);
    OccurrencesOfTwo(Total, Invalid, Successful);
    OccurrencesOfTwo(Total, Invalid, Failed);
    OccurrencesOfTwo(Total, Invalid, Errored);
  }

  /** A successful answer counts as successful and in exactly one of the cache counters,
      the hit counter exactly when the answer says it came from the cache. */
  lemma {:induction false} SuccessCounted(query: Option<string>, kind: Option<string>, execute: (string, string) -> Execution)
    requires Accepted(query, kind)
    requires execute(query.value, kind.value).Returned? && execute(query.value, kind.value).response.success
    ensures Delta(query, kind, execute, Successful) == 1 && Delta(query, kind, execute, Failed) == 0
    ensures Delta(query, kind, execute, Invalid) == 0 && Delta(query, kind, execute, Errored) == 0
    ensures Delta(query, kind, execute, CacheHits) + Delta(query, kind, execute, CacheMisses) == 1
    ensures Delta(query, kind, execute, CacheHits) == 1 <==> execute(query.value, kind.value).response.cached == Some(true)
  {
    ClassificationCases(query, kind, execute);
    var cls := Classification(query, kind, execute);
    OccurrencesOfThree(cls[0], cls[1], cls[2], Successful);
    OccurrencesOfThree(cls[0], cls[1], cls[2], Failed);
    OccurrencesOfThree(cls[0], cls[1], cls[2], Invalid);
    OccurrencesOfThree(cls[0], cls[1], cls[2], Errored);
    OccurrencesOfThree(cls[0], cls[1], cls[2], CacheHits);
    OccurrencesOfThree(cls[0], cls[1], cls[2], CacheMisses);
  }

  /** A failed answer counts as failed, touching neither cache counter. */
  lemma {:induction false} FailureCounted(query: Option<string>, kind: Option<string>, execute: (string, string) -> Execution)
    requires Accepted(query, kind)
    requires execute(query.value, kind.value).Returned? && !execute(query.value, kind.value).response.success
    ensures Delta(query, kind, execute, Failed) == 1 && Delta(query, kind, execute, Successful) == 0
    ensures Delta(query, kind, execute, CacheHits) == 0 && Delta(query, kind, execute, CacheMisses) == 0
  {
    ClassificationCases(query, kind, execute);
    OccurrencesOfTwo(Total, Failed, Failed);
    OccurrencesOfTwo(Total, Failed, Successful);
    OccurrencesOfTwo(Total, Failed, CacheHits);
    OccurrencesOfTwo(Total, Failed, CacheMisses);
  }

  /** A thrown use case counts as an error and in no result counter. */
  lemma {:induction false} ErrorCounted(query: Option<string>, kind: Option<string>, execute: (string, string) -> Execution)
    requires Accepted(query, kind)
    requires execute(query.value, kind.value).Threw?
    ensures Delta(query, kind, execute, Errored) == 1
    ensures Delta(query, kind, execute, Successful) == 0 && Delta(query, kind, execute, Failed) == 0
    ensures Delta(query, kind, execute, Invalid) == 0
  {
    ClassificationCases(query, kind, execute);
    OccurrencesOfTwo(Total, Errored, Errored);
    OccurrencesOfTwo(Total, Errored, Successful);
    OccurrencesOfTwo(Total, Errored, Failed);
    OccurrencesOfTwo(Total, Errored, Invalid);
  }
}
