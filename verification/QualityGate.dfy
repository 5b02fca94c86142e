/** The labeled benchmark of `src/audit/quality_benchmark.py`: counts by layer, pipeline and rule, and
    the gate on them. Rates are exact ratios here. */
module QualityGate {
  import opened Text

  datatype Layer = Axe | Alfa | Behavioral | OcrVlm | Semantic
  const LAYERS := [Axe, Alfa, Behavioral, OcrVlm, Semantic]

  datatype Disposition = Finding | ReviewLead | Suppressed

  datatype Observation = Observation(layer: Layer, pipeline: string, rule: string, barrier: bool, disposition: Disposition)

  datatype Metrics = Metrics(
    total: nat, surfaced: nat, suppressed: nat,
    truePositives: nat, falsePositives: nat, trueNegatives: nat, falseNegatives: nat)

  const ZERO := Metrics(0, 0, 0, 0, 0, 0, 0)

  function Add(a: Metrics, b: Metrics): Metrics {
    Metrics(a.total + b.total, a.surfaced + b.surfaced, a.suppressed + b.suppressed,
            a.truePositives + b.truePositives, a.falsePositives + b.falsePositives,
            a.trueNegatives + b.trueNegatives, a.falseNegatives + b.falseNegatives)
  }

  // --- Counting ---

  function One(o: Observation): Metrics {
    var shown := !o.disposition.Suppressed?;
    Metrics(1, if shown then 1 else 0, if shown then 0 else 1,
            if shown && o.barrier then 1 else 0, if shown && !o.barrier then 1 else 0,
            if !shown && !o.barrier then 1 else 0, if !shown && o.barrier then 1 else 0)
  }

  function MetricsOf(observations: seq<Observation>): Metrics {
    if observations == [] then ZERO else Add(One(observations[0]), MetricsOf(observations[1..]))
  }

  lemma {:induction false} AddSwaps(a: Metrics, b: Metrics, c: Metrics)
    ensures Add(a, Add(b, c)) == Add(b, Add(a, c)) == Add(Add(a, b), c)
  {
  }

  lemma {:induction false} MetricsNext(group: seq<Observation>, o: Observation)
    ensures MetricsOf(group + [o]) == Add(MetricsOf(group), One(o))
  {
    if group == [] {
      assert [] + [o] == [o] && [o][1..] == [];
    } else {
      assert (group + [o])[1..] == group[1..] + [o];
      MetricsNext(group[1..], o);
      AddSwaps(One(group[0]), MetricsOf(group[1..]), One(o));
    }
  }

  lemma {:induction false} MetricsTake(observations: seq<Observation>, i: nat)
    requires i < |observations|
    ensures MetricsOf(observations[..i + 1]) == Add(MetricsOf(observations[..i]), One(observations[i]))
  {
    var before, o := observations[..i], observations[i];
    assert observations[..i + 1] == before + [o];
    MetricsNext(before, o);
  }

  /** Every observation is in one cell of each split. */
  lemma {:induction false} MetricsBalance(observations: seq<Observation>)
    ensures var m := MetricsOf(observations);
            && m.total == |observations| == m.surfaced + m.suppressed
            && m.surfaced == m.truePositives + m.falsePositives && m.suppressed == m.trueNegatives + m.falseNegatives
  {
    if observations != [] {
      MetricsBalance(observations[1..]);
    }
  }

  // --- What each count counts ---

  /** The places of the observations with a property. */
  function Where(observations: seq<Observation>, p: Observation -> bool): set<nat> {
    set i | 0 <= i < |observations| && p(observations[i])
  }

  lemma {:induction false} WhereNext(group: seq<Observation>, o: Observation, p: Observation -> bool)
    ensures |Where(group + [o], p)| == |Where(group, p)| + if p(o) then 1 else 0
  {
    var all := group + [o];
    assert forall i :: 0 <= i < |group| ==> all[i] == group[i];
    assert Where(all, p) == Where(group, p) + if p(o) then {|group|} else {};
  }

  predicate Surfaced(o: Observation) {
    !o.disposition.Suppressed?
  }

  predicate Hidden(o: Observation) {
    o.disposition.Suppressed?
  }

  /** The kinds of observation of one layer that the gate looks at. */
  function Kind(layer: Layer, surfaced: bool, barrier: bool): Observation -> bool {
    (o: Observation) => o.layer == layer && o.disposition.Suppressed? != surfaced && o.barrier == barrier
  }

  function AnyKind(surfaced: bool, barrier: bool): Observation -> bool {
    (o: Observation) => o.disposition.Suppressed? != surfaced && o.barrier == barrier
  }

  lemma {:induction false} CountsOfKinds(observations: seq<Observation>)
    ensures var m := MetricsOf(observations);
            && m.surfaced == |Where(observations, Surfaced)| && m.suppressed == |Where(observations, Hidden)|
            && m.truePositives == |Where(observations, AnyKind(true, true))|
            && m.falsePositives == |Where(observations, AnyKind(true, false))|
            && m.falseNegatives == |Where(observations, AnyKind(false, true))|
            && m.trueNegatives == |Where(observations, AnyKind(false, false))|
    decreases |observations|
  {
    if observations != [] {
      var init, last := observations[..|observations| - 1], observations[|observations| - 1];
      assert observations == init + [last];
      CountsOfKinds(init);
      MetricsNext(init, last);
      WhereNext(init, last, Surfaced);
      WhereNext(init, last, Hidden);
      WhereNext(init, last, AnyKind(true, true));
      WhereNext(init, last, AnyKind(true, false));
      WhereNext(init, last, AnyKind(false, true));
      WhereNext(init, last, AnyKind(false, false));
    }
  }

  lemma {:induction false} SplitIsExact(observations: seq<Observation>)
    ensures MetricsOf(observations).surfaced ==
            |set i | 0 <= i < |observations| && !observations[i].disposition.Suppressed?|
    ensures MetricsOf(observations).suppressed ==
            |set i | 0 <= i < |observations| && observations[i].disposition.Suppressed?|
  {
    CountsOfKinds(observations);
    assert Where(observations, Surfaced) ==
           set i | 0 <= i < |observations| && !observations[i].disposition.Suppressed?;
    assert Where(observations, Hidden) == set i | 0 <= i < |observations| && observations[i].disposition.Suppressed?;
  }

  /** A true positive was shown and is a barrier; a false positive was shown and is none. */
  lemma {:induction false} PositivesAreExact(observations: seq<Observation>)
    ensures MetricsOf(observations).truePositives ==
            |set i | 0 <= i < |observations| && !observations[i].disposition.Suppressed? && observations[i].barrier|
    ensures MetricsOf(observations).falsePositives ==
            |set i | 0 <= i < |observations| && !observations[i].disposition.Suppressed? && !observations[i].barrier|
  {
    CountsOfKinds(observations);
    assert Where(observations, AnyKind(true, true)) ==
           set i | 0 <= i < |observations| && !observations[i].disposition.Suppressed? && observations[i].barrier;
    assert Where(observations, AnyKind(true, false)) ==
           set i | 0 <= i < |observations| && !observations[i].disposition.Suppressed? && !observations[i].barrier;
  }

  /** A false negative was suppressed and is a barrier; a true negative was suppressed and is none. */
  lemma {:induction false} NegativesAreExact(observations: seq<Observation>)
    ensures MetricsOf(observations).falseNegatives ==
            |set i | 0 <= i < |observations| && observations[i].disposition.Suppressed? && observations[i].barrier|
    ensures MetricsOf(observations).trueNegatives ==
            |set i | 0 <= i < |observations| && observations[i].disposition.Suppressed? && !observations[i].barrier|
  {
    CountsOfKinds(observations);
    assert Where(observations, AnyKind(false, true)) ==
           set i | 0 <= i < |observations| && observations[i].disposition.Suppressed? && observations[i].barrier;
    assert Where(observations, AnyKind(false, false)) ==
           set i | 0 <= i < |observations| && observations[i].disposition.Suppressed? && !observations[i].barrier;
  }

  /** One round of the counting loop. */
  method Tally(m: Metrics, o: Observation) returns (r: Metrics)
    ensures r == Add(m, One(o))
  {
    var tp, fp, tn, fn, surfaced := m.truePositives, m.falsePositives, m.trueNegatives, m.falseNegatives, m.surfaced;
    if !o.disposition.Suppressed? {
      surfaced := surfaced + 1;
      if o.barrier {
        tp := tp + 1;
      } else {
        fp := fp + 1;
      }
    } else if o.barrier {
      fn := fn + 1;
    } else {
      tn := tn + 1;
    }
    r := Metrics(m.total + 1, surfaced, m.suppressed + if o.disposition.Suppressed? then 1 else 0, tp, fp, tn, fn);
  }

  method Count(observations: seq<Observation>) returns (m: Metrics)
    ensures m == MetricsOf(observations)
  {
    m := ZERO;
    for i := 0 to |observations|
      invariant m == MetricsOf(observations[..i])
    {
      MetricsTake(observations, i);
      m := Tally(m, observations[i]);
    }
    assert observations[..|observations|] == observations;
  }

  // --- Groups ---

  function Appended<K>(groups: map<K, seq<Observation>>, k: K, o: Observation): map<K, seq<Observation>> {
    groups[k := (if k in groups then groups[k] else []) + [o]]
  }

  function Grouped<K>(key: Observation -> K, observations: seq<Observation>): map<K, seq<Observation>> {
    if observations == [] then map[]
    else
      var last := observations[|observations| - 1];
      Appended(Grouped(key, observations[..|observations| - 1]), key(last), last)
  }

  function Counted<K>(groups: map<K, seq<Observation>>): map<K, Metrics> {
    map k | k in groups :: MetricsOf(groups[k])
  }

  /** The observations with one key, in order. */
  function With<K(==)>(key: Observation -> K, observations: seq<Observation>, k: K): seq<Observation> {
    if observations == [] then []
    else
      var last := observations[|observations| - 1];
      With(key, observations[..|observations| - 1], k) + if key(last) == k then [last] else []
  }

  /** A group holds just the observations with its key, and a key without any has no group. */
  lemma {:induction false} GroupIsWith<K>(key: Observation -> K, observations: seq<Observation>, k: K)
    ensures k in Grouped(key, observations) <==> With(key, observations, k) != []
    ensures k in Grouped(key, observations) ==> Grouped(key, observations)[k] == With(key, observations, k)
    decreases |observations|
  {
    if observations != [] {
      GroupIsWith(key, observations[..|observations| - 1], k);
    }
  }

  // --- Sums over groups ---

  ghost function Sum<K(!new)>(m: map<K, Metrics>): Metrics {
    if m == map[] then ZERO
    else
      var k :| k in m;
      Add(m[k], Sum(m - {k}))
  }

  lemma {:induction false} SumWithout<K(!new)>(m: map<K, Metrics>, k: K)
    requires k in m
    ensures Sum(m) == Add(m[k], Sum(m - {k}))
    decreases |m|
  {
    var first :| first in m && Sum(m) == Add(m[first], Sum(m - {first}));
    if first != k {
      SumWithout(m - {first}, k);
      SumWithout(m - {k}, first);
      assert m - {first} - {k} == m - {k} - {first};
      AddSwaps(m[first], m[k], Sum(m - {k} - {first}));
    }
  }

  /** Raising one entry raises the sum alike. */
  lemma {:induction false} SumRaised<K(!new)>(m: map<K, Metrics>, k: K, more: Metrics)
    ensures Sum(m[k := Add(if k in m then m[k] else ZERO, more)]) == Add(Sum(m), more)
  {
    var r := m[k := Add(if k in m then m[k] else ZERO, more)];
    SumWithout(r, k);
    if k in m {
      SumWithout(m, k);
      assert r - {k} == m - {k};
    } else {
      assert r - {k} == m;
    }
  }

  lemma {:induction false} GroupsRaised<K(!new)>(groups: map<K, seq<Observation>>, k: K, o: Observation)
    ensures Sum(Counted(Appended(groups, k, o))) == Add(Sum(Counted(groups)), One(o))
  {
    var group := if k in groups then groups[k] else [];
    assert MetricsOf(group) == if k in Counted(groups) then Counted(groups)[k] else ZERO;
    CountedAppended(groups, k, o, group);
    SumRaised(Counted(groups), k, One(o));
  }

  /** However observations are grouped, the groups' counts add up to the overall counts. */
  lemma {:induction false} GroupsAddUp<K(!new)>(key: Observation -> K, observations: seq<Observation>)
    ensures Sum(Counted(Grouped(key, observations))) == MetricsOf(observations)
    decreases |observations|
  {
    if observations != [] {
      var init, last := observations[..|observations| - 1], observations[|observations| - 1];
      assert observations == init + [last];
      GroupsAddUp(key, init);
      GroupsRaised(Grouped(key, init), key(last), last);
      MetricsNext(init, last);
    }
  }

  lemma {:induction false} CountedElsewhere<K>(groups: map<K, seq<Observation>>, k: K, o: Observation)
    ensures Counted(groups).Keys == groups.Keys && Counted(Appended(groups, k, o)).Keys == groups.Keys + {k}
    ensures forall j :: j in groups && j != k ==> Counted(Appended(groups, k, o))[j] == Counted(groups)[j]
  {
  }

  lemma {:induction false} CountedThere<K>(groups: map<K, seq<Observation>>, k: K, o: Observation, group: seq<Observation>)
    requires group == if k in groups then groups[k] else []
    ensures k in Counted(Appended(groups, k, o)) && Counted(Appended(groups, k, o))[k] == Add(MetricsOf(group), One(o))
  {
    MetricsNext(group, o);
  }

  lemma {:induction false} MapRaised<K>(m: map<K, Metrics>, n: map<K, Metrics>, k: K, v: Metrics)
    requires n.Keys == m.Keys + {k} && n[k] == v && forall j :: j in m && j != k ==> n[j] == m[j]
    ensures n == m[k := v]
  {
  }

  /** An observation more in a group counts one more there and nowhere else. */
  lemma {:induction false} CountedAppended<K>(groups: map<K, seq<Observation>>, k: K, o: Observation, group: seq<Observation>)
    requires group == if k in groups then groups[k] else []
    ensures Counted(Appended(groups, k, o)) == Counted(groups)[k := Add(MetricsOf(group), One(o))]
  {
    var m, n := Counted(groups), Counted(Appended(groups, k, o));
    CountedElsewhere(groups, k, o);
    CountedThere(groups, k, o, group);
    MapRaised(m, n, k, Add(MetricsOf(group), One(o)));
  }

  // --- evaluate ---

  datatype Report = Report(
    overall: Metrics, byLayer: map<Layer, Metrics>, byPipeline: map<string, Metrics>,
    byRule: map<(string, string), Metrics>)

  function LayerOf(o: Observation): Layer {
    o.layer
  }

  function PipelineOf(o: Observation): string {
    o.pipeline
  }

  function RuleOf(o: Observation): (string, string) {
    (o.pipeline, o.rule)
  }

  function ReportOf(observations: seq<Observation>): Report {
    Report(MetricsOf(observations), Counted(Grouped(LayerOf, observations)),
           Counted(Grouped(PipelineOf, observations)), Counted(Grouped(RuleOf, observations)))
  }

  method CountGroups<K>(groups: map<K, seq<Observation>>) returns (counts: map<K, Metrics>)
    ensures counts == Counted(groups)
  {
    counts := map[];
    var left := groups.Keys;
    while left != {}
      invariant left <= groups.Keys && counts.Keys == groups.Keys - left
      invariant forall k :: k in counts ==> counts[k] == MetricsOf(groups[k])
      decreases |left|
    {
      var k :| k in left;
      var m := Count(groups[k]);
      counts := counts[k := m];
      left := left - {k};
    }
  }

  method Evaluate(observations: seq<Observation>) returns (report: Report)
    ensures report == ReportOf(observations)
  {
    var byLayer: map<Layer, seq<Observation>> := map[];
    var byPipeline: map<string, seq<Observation>> := map[];
    var byRule: map<(string, string), seq<Observation>> := map[];
    for i := 0 to |observations|
      invariant byLayer == Grouped(LayerOf, observations[..i])
      invariant byPipeline == Grouped(PipelineOf, observations[..i])
      invariant byRule == Grouped(RuleOf, observations[..i])
    {
      assert observations[..i + 1][..i] == observations[..i];
      var o := observations[i];
      byLayer := Appended(byLayer, o.layer, o);
      byPipeline := Appended(byPipeline, o.pipeline, o);
      byRule := Appended(byRule, (o.pipeline, o.rule), o);
    }
    assert observations[..|observations|] == observations;
    var overall := Count(observations);
    var layers := CountGroups(byLayer);
    var pipelines := CountGroups(byPipeline);
    var rules := CountGroups(byRule);
    report := Report(overall, layers, pipelines, rules);
  }

  /** Each of the three groupings loses and repeats nothing. */
  lemma {:induction false} ReportAddsUp(observations: seq<Observation>)
    ensures var r := ReportOf(observations);
            Sum(r.byLayer) == r.overall && Sum(r.byPipeline) == r.overall && Sum(r.byRule) == r.overall
  {
    GroupsAddUp(LayerOf, observations);
    GroupsAddUp(PipelineOf, observations);
    GroupsAddUp(RuleOf, observations);
  }

  // --- What each group holds ---

  lemma {:induction false} WithCounts<K>(key: Observation -> K, observations: seq<Observation>, k: K, p: Observation -> bool)
    requires forall i :: 0 <= i < |observations| ==> (key(observations[i]) == k <==> p(observations[i]))
    ensures |With(key, observations, k)| == |Where(observations, p)|
    decreases |observations|
  {
    if observations != [] {
      var init, last := observations[..|observations| - 1], observations[|observations| - 1];
      assert observations == init + [last];
      WithCounts(key, init, k, p);
      WhereNext(init, last, p);
    }
  }

  lemma {:induction false} GroupTotal<K>(key: Observation -> K, observations: seq<Observation>, k: K, p: Observation -> bool)
    requires forall i :: 0 <= i < |observations| ==> (key(observations[i]) == k <==> p(observations[i]))
    ensures var groups, held := Counted(Grouped(key, observations)), |Where(observations, p)|;
            (k in groups <==> held > 0) && (k in groups ==> groups[k].total == held)
  {
    GroupIsWith(key, observations, k);
    WithCounts(key, observations, k, p);
    MetricsBalance(With(key, observations, k));
  }

  function InLayer(layer: Layer): Observation -> bool {
    (o: Observation) => o.layer == layer
  }

  /** A layer has a group when it has observations, and the group counts them all. */
  lemma {:induction false} LayerTotal(observations: seq<Observation>, layer: Layer)
    ensures var groups := ReportOf(observations).byLayer;
            var held := |set i | 0 <= i < |observations| && observations[i].layer == layer|;
            (layer in groups <==> held > 0) && (layer in groups ==> groups[layer].total == held)
  {
    var p := InLayer(layer);
    assert Where(observations, p) == set i | 0 <= i < |observations| && observations[i].layer == layer;
    GroupTotal(LayerOf, observations, layer, p);
  }

  function InPipeline(pipeline: string): Observation -> bool {
    (o: Observation) => o.pipeline == pipeline
  }

  /** So has a pipeline. */
  lemma {:induction false} PipelineTotal(observations: seq<Observation>, pipeline: string)
    ensures var groups := ReportOf(observations).byPipeline;
            var held := |set i | 0 <= i < |observations| && observations[i].pipeline == pipeline|;
            (pipeline in groups <==> held > 0) && (pipeline in groups ==> groups[pipeline].total == held)
  {
    var p := InPipeline(pipeline);
    assert Where(observations, p) == set i | 0 <= i < |observations| && observations[i].pipeline == pipeline;
    GroupTotal(PipelineOf, observations, pipeline, p);
  }

  function UnderRule(pipeline: string, rule: string): Observation -> bool {
    (o: Observation) => o.pipeline == pipeline && o.rule == rule
  }

  /** And a rule, within its pipeline. */
  lemma {:induction false} RuleTotal(observations: seq<Observation>, pipeline: string, rule: string)
    ensures var groups := ReportOf(observations).byRule;
            var held := |set i | 0 <= i < |observations| && observations[i].pipeline == pipeline && observations[i].rule == rule|;
            ((pipeline, rule) in groups <==> held > 0) && ((pipeline, rule) in groups ==> groups[(pipeline, rule)].total == held)
  {
    var p := UnderRule(pipeline, rule);
    assert Where(observations, p) == set i | 0 <= i < |observations| && observations[i].pipeline == pipeline && observations[i].rule == rule;
    GroupTotal(RuleOf, observations, (pipeline, rule), p);
  }

  // --- The gate ---

  datatype Gate = Gate(maxFdr: real, minSurfaced: nat, minNegatives: nat, minRecall: real)

  datatype Scope = Overall | Of(layer: Layer)

  datatype Failure =
    | NoObservations(layer: Layer)
    | NothingSurfaced(scope: Scope) | FdrTooHigh(scope: Scope) | RecallTooLow(scope: Scope)
    | TooFewSurfaced(scope: Scope) | TooFewNegatives(scope: Scope)

  function Ratio(part: nat, whole: nat): Option<real> {
    if whole == 0 then None else Some(part as real / whole as real)
  }

  function Fdr(m: Metrics): Option<real> {
    Ratio(m.falsePositives, m.truePositives + m.falsePositives)
  }

  function Recall(m: Metrics): Option<real> {
    Ratio(m.truePositives, m.truePositives + m.falseNegatives)
  }

  function FdrFailures(scope: Scope, m: Metrics, gate: Gate): seq<Failure> {
    if Fdr(m).None? then [NothingSurfaced(scope)] else if Fdr(m).value >= gate.maxFdr then [FdrTooHigh(scope)] else []
  }

  function RecallFailures(scope: Scope, m: Metrics, gate: Gate): seq<Failure> {
    if Recall(m).None? || Recall(m).value < gate.minRecall then [RecallTooLow(scope)] else []
  }

  function RateFailures(scope: Scope, m: Metrics, gate: Gate): seq<Failure> {
    FdrFailures(scope, m, gate) + RecallFailures(scope, m, gate)
  }

  function FloorFailures(scope: Scope, m: Metrics, gate: Gate): seq<Failure> {
    (if m.surfaced < gate.minSurfaced then [TooFewSurfaced(scope)] else [])
    + (if m.falsePositives + m.trueNegatives < gate.minNegatives then [TooFewNegatives(scope)] else [])
  }

  method CheckMetricThreshold(failures: seq<Failure>, scope: Scope, m: Metrics, gate: Gate, floor: bool)
    returns (r: seq<Failure>)
    ensures r == failures + (RateFailures(scope, m, gate) + if floor then FloorFailures(scope, m, gate) else [])
  {
    r := failures;
    if Fdr(m).None? {
      r := r + [NothingSurfaced(scope)];
    } else if Fdr(m).value >= gate.maxFdr {
      r := r + [FdrTooHigh(scope)];
    }
    assert r == failures + FdrFailures(scope, m, gate);
    if Recall(m).None? || Recall(m).value < gate.minRecall {
      r := r + [RecallTooLow(scope)];
    }
    JoinAssociates(failures, FdrFailures(scope, m, gate), RecallFailures(scope, m, gate));
    assert r == failures + RateFailures(scope, m, gate);
    if floor {
      r := CheckSampleFloor(r, scope, m, gate);
      JoinAssociates(failures, RateFailures(scope, m, gate), FloorFailures(scope, m, gate));
    } else {
      assert RateFailures(scope, m, gate) + [] == RateFailures(scope, m, gate);
    }
  }

  method CheckSampleFloor(failures: seq<Failure>, scope: Scope, m: Metrics, gate: Gate) returns (r: seq<Failure>)
    ensures r == failures + FloorFailures(scope, m, gate)
  {
    r := failures;
    if m.surfaced < gate.minSurfaced {
      r := r + [TooFewSurfaced(scope)];
    }
    if m.falsePositives + m.trueNegatives < gate.minNegatives {
      r := r + [TooFewNegatives(scope)];
    }
  }

  function LayerFailures(layer: Layer, report: Report, gate: Gate): seq<Failure> {
    if layer !in report.byLayer then [NoObservations(layer)]
    else RateFailures(Of(layer), report.byLayer[layer], gate) + FloorFailures(Of(layer), report.byLayer[layer], gate)
  }

  /** The failures one layer contributes. */
  function FailuresOf(report: Report, gate: Gate): Layer -> seq<Failure> {
    layer => LayerFailures(layer, report, gate)
  }

  function AllFailures(report: Report, gate: Gate): seq<Failure> {
    RateFailures(Overall, report.overall, gate) + FlatMap(FailuresOf(report, gate), LAYERS)
  }

  method GateFailures(report: Report, gate: Gate) returns (failures: seq<Failure>)
    ensures failures == AllFailures(report, gate)
  {
    failures := CheckMetricThreshold([], Overall, report.overall, gate, false);
    ghost var overall := RateFailures(Overall, report.overall, gate);
    assert failures == overall + FlatMap(FailuresOf(report, gate), LAYERS[..0]);
    for i := 0 to |LAYERS|
      invariant failures == overall + FlatMap(FailuresOf(report, gate), LAYERS[..i])
    {
      FlatMapNext(FailuresOf(report, gate), LAYERS, i);
      JoinAssociates(overall, FlatMap(FailuresOf(report, gate), LAYERS[..i]), LayerFailures(LAYERS[i], report, gate));
      var layer := LAYERS[i];
      if layer !in report.byLayer {
        failures := failures + [NoObservations(layer)];
      } else {
        failures := CheckMetricThreshold(failures, Of(layer), report.byLayer[layer], gate, true);
      }
    }
    assert LAYERS[..|LAYERS|] == LAYERS;
  }

  // --- The gate on the whole follows from the gate on the layers ---

  /** The rate checks without division. */
  predicate Passes(m: Metrics, gate: Gate) {
    && m.truePositives + m.falsePositives > 0 && m.truePositives + m.falseNegatives > 0
    && m.falsePositives as real < Times(gate.maxFdr, m.truePositives + m.falsePositives)
    && m.truePositives as real >= Times(gate.minRecall, m.truePositives + m.falseNegatives)
  }

  function Times(rate: real, n: nat): real {
    rate * n as real
  }

  lemma {:induction false} TimesAdds(rate: real, a: nat, b: nat)
    ensures Times(rate, a + b) == Times(rate, a) + Times(rate, b)
  {
  }

  lemma {:induction false} RatioBelow(part: nat, whole: nat, rate: real)
    requires whole > 0
    ensures Ratio(part, whole).value < rate <==> part as real < Times(rate, whole)
    ensures Ratio(part, whole).value >= rate <==> part as real >= Times(rate, whole)
  {
    var w, r := whole as real, part as real / whole as real;
    assert r * w == part as real;
    if r < rate {
      MulMono(r, rate, w);
    } else if r > rate {
      MulMono(rate, r, w);
    }
  }

  lemma {:induction false} MulMono(a: real, b: real, w: real)
    requires a < b && w > 0.0
    ensures a * w < b * w
  {
    assert (b - a) * w > 0.0;
  }

  lemma {:induction false} PassesIsNoRateFailure(scope: Scope, m: Metrics, gate: Gate)
    ensures RateFailures(scope, m, gate) == [] <==> Passes(m, gate)
  {
    if m.truePositives + m.falsePositives > 0 {
      RatioBelow(m.falsePositives, m.truePositives + m.falsePositives, gate.maxFdr);
    }
    if m.truePositives + m.falseNegatives > 0 {
      RatioBelow(m.truePositives, m.truePositives + m.falseNegatives, gate.minRecall);
    }
  }

  lemma {:induction false} PassesAdds(a: Metrics, b: Metrics, gate: Gate)
    requires Passes(a, gate) && Passes(b, gate)
    ensures Passes(Add(a, b), gate)
  {
    TimesAdds(gate.maxFdr, a.truePositives + a.falsePositives, b.truePositives + b.falsePositives);
    TimesAdds(gate.minRecall, a.truePositives + a.falseNegatives, b.truePositives + b.falseNegatives);
  }

  /** Groups that all pass pass together. */
  lemma {:induction false} SumPasses<K(!new)>(m: map<K, Metrics>, gate: Gate)
    requires m != map[] && forall k :: k in m ==> Passes(m[k], gate)
    ensures Passes(Sum(m), gate)
    decreases |m|
  {
    var k :| k in m;
    SumWithout(m, k);
    if m - {k} == map[] {
      assert Add(m[k], ZERO) == m[k];
    } else {
      SumPasses(m - {k}, gate);
      PassesAdds(m[k], Sum(m - {k}), gate);
    }
  }

  lemma {:induction false} FlatMapIsEmpty<A, B>(f: A -> seq<B>, s: seq<A>)
    ensures FlatMap(f, s) == [] <==> forall i :: 0 <= i < |s| ==> f(s[i]) == []
  {
    if s != [] {
      FlatMapIsEmpty(f, s[1..]);
      assert forall i :: 0 <= i < |s| - 1 ==> s[1..][i] == s[i + 1];
      assert (forall i :: 0 <= i < |s| ==> f(s[i]) == []) ==> forall i :: 0 <= i < |s| - 1 ==> f(s[1..][i]) == [];
    }
  }

  function IndexOfLayer(layer: Layer): (i: nat)
    ensures i < |LAYERS| && LAYERS[i] == layer
  {
    match layer
    case Axe => 0
    case Alfa => 1
    case Behavioral => 2
    case OcrVlm => 3
    case Semantic => 4
  }

  ghost predicate AllLayersPass(report: Report, gate: Gate) {
    forall layer: Layer :: LayerFailures(layer, report, gate) == []
  }

  lemma {:induction false} NoLayerFails(report: Report, gate: Gate)
    ensures FlatMap(FailuresOf(report, gate), LAYERS) == [] <==> AllLayersPass(report, gate)
  {
    FlatMapIsEmpty(FailuresOf(report, gate), LAYERS);
    forall layer: Layer | FlatMap(FailuresOf(report, gate), LAYERS) == []
      ensures LayerFailures(layer, report, gate) == []
    {
      assert LAYERS[IndexOfLayer(layer)] == layer;
    }
  }

  /** If every layer passes, so do the overall figures. */
  lemma {:induction false} LayersPassTogether(observations: seq<Observation>, gate: Gate)
    requires AllLayersPass(ReportOf(observations), gate)
    ensures RateFailures(Overall, MetricsOf(observations), gate) == []
  {
    var byLayer := ReportOf(observations).byLayer;
    forall layer: Layer ensures layer in byLayer && Passes(byLayer[layer], gate) {
      assert LayerFailures(layer, ReportOf(observations), gate) == [];
      if layer in byLayer {
        PassesIsNoRateFailure(Of(layer), byLayer[layer], gate);
      }
    }
    assert Axe in byLayer;
    SumPasses(byLayer, gate);
    GroupsAddUp(LayerOf, observations);
    PassesIsNoRateFailure(Overall, MetricsOf(observations), gate);
  }

  /** The gate is exactly the layers': nothing fails just when every layer has observations and passes its
      own checks; the check on the overall figures can never be the only one to fail. */
  lemma {:induction false} GateIsLayers(observations: seq<Observation>, gate: Gate)
    ensures AllFailures(ReportOf(observations), gate) == [] <==> AllLayersPass(ReportOf(observations), gate)
  {
    NoLayerFails(ReportOf(observations), gate);
    if AllLayersPass(ReportOf(observations), gate) {
      LayersPassTogether(observations, gate);
    }
  }

  // --- The gate, on the observations themselves ---

  /** How many observations of a layer are of one kind. */
  function Number(observations: seq<Observation>, layer: Layer, surfaced: bool, barrier: bool): nat {
    |set i | 0 <= i < |observations| && observations[i].layer == layer
             && observations[i].disposition.Suppressed? != surfaced && observations[i].barrier == barrier|
  }

  lemma {:induction false} NumberIs(observations: seq<Observation>, layer: Layer, surfaced: bool, barrier: bool)
    ensures Number(observations, layer, surfaced, barrier) == |Where(observations, Kind(layer, surfaced, barrier))|
  {
    assert Where(observations, Kind(layer, surfaced, barrier)) ==
           set i | 0 <= i < |observations| && observations[i].layer == layer
                   && observations[i].disposition.Suppressed? != surfaced && observations[i].barrier == barrier;
  }

  lemma {:induction false} NumberNext(init: seq<Observation>, last: Observation, layer: Layer, surfaced: bool, barrier: bool)
    ensures Number(init + [last], layer, surfaced, barrier) ==
            Number(init, layer, surfaced, barrier) + if Kind(layer, surfaced, barrier)(last) then 1 else 0
  {
    NumberIs(init, layer, surfaced, barrier);
    NumberIs(init + [last], layer, surfaced, barrier);
    WhereNext(init, last, Kind(layer, surfaced, barrier));
  }

  lemma {:induction false} WithNext(init: seq<Observation>, last: Observation, layer: Layer)
    ensures With(LayerOf, init + [last], layer) ==
            if last.layer == layer then With(LayerOf, init, layer) + [last] else With(LayerOf, init, layer)
  {
    assert (init + [last])[..|init|] == init;
  }

  lemma {:induction false} LayerNext(init: seq<Observation>, last: Observation, layer: Layer)
    ensures MetricsOf(With(LayerOf, init + [last], layer)) ==
            if last.layer == layer then Add(MetricsOf(With(LayerOf, init, layer)), One(last))
            else MetricsOf(With(LayerOf, init, layer))
  {
    WithNext(init, last, layer);
    MetricsNext(With(LayerOf, init, layer), last);
  }

  lemma {:induction false} LayerCounts(observations: seq<Observation>, layer: Layer)
    ensures var m := MetricsOf(With(LayerOf, observations, layer));
            && m.truePositives == Number(observations, layer, true, true)
            && m.falsePositives == Number(observations, layer, true, false)
            && m.falseNegatives == Number(observations, layer, false, true)
            && m.trueNegatives == Number(observations, layer, false, false)
    decreases |observations|
  {
    if observations != [] {
      var init, last := observations[..|observations| - 1], observations[|observations| - 1];
      assert observations == init + [last];
      LayerCounts(init, layer);
      LayerNext(init, last, layer);
      NumberNext(init, last, layer, true, true);
      NumberNext(init, last, layer, true, false);
      NumberNext(init, last, layer, false, true);
      NumberNext(init, last, layer, false, false);
    }
  }

  /** What the gate asks: something shown and some barrier known, fewer false discoveries than the maximum, no less
      recall than the minimum, and enough of what was shown and of what is no barrier. */
  predicate Meets(found: nat, wrong: nat, missed: nat, cleared: nat, gate: Gate) {
    && found + wrong > 0 && found + missed > 0
    && wrong as real < gate.maxFdr * (found + wrong) as real
    && found as real >= gate.minRecall * (found + missed) as real
    && found + wrong >= gate.minSurfaced && wrong + cleared >= gate.minNegatives
  }

  predicate LayerMeets(observations: seq<Observation>, layer: Layer, gate: Gate) {
    Meets(Number(observations, layer, true, true), Number(observations, layer, true, false),
          Number(observations, layer, false, true), Number(observations, layer, false, false), gate)
  }

  lemma {:induction false} MeetsIsNoFailure(scope: Scope, m: Metrics, gate: Gate)
    requires m.surfaced == m.truePositives + m.falsePositives
    ensures RateFailures(scope, m, gate) + FloorFailures(scope, m, gate) == [] <==>
            Meets(m.truePositives, m.falsePositives, m.falseNegatives, m.trueNegatives, gate)
  {
    PassesIsNoRateFailure(scope, m, gate);
    assert FloorFailures(scope, m, gate) == [] <==>
           m.surfaced >= gate.minSurfaced && m.falsePositives + m.trueNegatives >= gate.minNegatives;
  }

  lemma {:induction false} GroupFailures(observations: seq<Observation>, layer: Layer, gate: Gate)
    ensures var group := With(LayerOf, observations, layer);
            LayerFailures(layer, ReportOf(observations), gate) ==
            if group == [] then [NoObservations(layer)]
            else RateFailures(Of(layer), MetricsOf(group), gate) + FloorFailures(Of(layer), MetricsOf(group), gate)
  {
    GroupIsWith(LayerOf, observations, layer);
  }

  lemma {:induction false} LayerIsMet(observations: seq<Observation>, layer: Layer, gate: Gate)
    ensures LayerFailures(layer, ReportOf(observations), gate) == [] <==> LayerMeets(observations, layer, gate)
  {
    var group := With(LayerOf, observations, layer);
    GroupFailures(observations, layer, gate);
    LayerCounts(observations, layer);
    MetricsBalance(group);
    MeetsIsNoFailure(Of(layer), MetricsOf(group), gate);
  }

  /** The gate passes exactly when every one of the five layers meets it. */
  lemma {:induction false} GateIsMet(observations: seq<Observation>, gate: Gate)
    ensures AllFailures(ReportOf(observations), gate) == [] <==>
            forall layer: Layer :: LayerMeets(observations, layer, gate)
  {
    GateIsLayers(observations, gate);
    forall layer: Layer {
      LayerIsMet(observations, layer, gate);
    }
  }

  // --- What each failure says ---

  function LayerNamed(f: Failure): Option<Layer> {
    match f
    case NoObservations(layer) => Some(layer)
    case _ => if f.scope.Overall? then None else Some(f.scope.layer)
  }

  lemma {:induction false} OverallNamesNone(m: Metrics, gate: Gate, f: Failure)
    requires f in RateFailures(Overall, m, gate)
    ensures LayerNamed(f) == None
  {
    assert f in FdrFailures(Overall, m, gate) || f in RecallFailures(Overall, m, gate);
  }

  lemma {:induction false} LayerNamesItself(report: Report, gate: Gate, layer: Layer, f: Failure)
    requires f in LayerFailures(layer, report, gate)
    ensures LayerNamed(f) == Some(layer)
  {
    if layer in report.byLayer {
      var m := report.byLayer[layer];
      assert f in FdrFailures(Of(layer), m, gate) || f in RecallFailures(Of(layer), m, gate)
        || f in FloorFailures(Of(layer), m, gate);
    }
  }

  /** A failure that names a layer is that layer's. */
  lemma {:induction false} NamedFailureIsItsLayers(report: Report, gate: Gate, layer: Layer, f: Failure)
    requires LayerNamed(f) == Some(layer)
    ensures f in AllFailures(report, gate) <==> f in FailuresOf(report, gate)(layer)
  {
    var own := FailuresOf(report, gate);
    if f in RateFailures(Overall, report.overall, gate) {
      OverallNamesNone(report.overall, gate, f);
    }
    if f in FlatMap(own, LAYERS) {
      var found := FlatMapSource(own, LAYERS, f);
      LayerNamesItself(report, gate, found, f);
    }
    if f in own(layer) {
      assert LAYERS[IndexOfLayer(layer)] == layer;
      FlatMapHas(own, LAYERS, layer, f);
    }
  }

  /** Rates, floors and missing layers are told apart by the failures they give. */
  lemma {:induction false} FailureKinds(report: Report, gate: Gate, layer: Layer, f: Failure)
    requires layer in report.byLayer && f in LayerFailures(layer, report, gate)
    ensures f in RateFailures(Of(layer), report.byLayer[layer], gate) ==>
              f.NothingSurfaced? || f.FdrTooHigh? || f.RecallTooLow?
    ensures f in FloorFailures(Of(layer), report.byLayer[layer], gate) ==> f.TooFewSurfaced? || f.TooFewNegatives?
    ensures !f.NoObservations?
  {
    var m := report.byLayer[layer];
    assert f in FdrFailures(Of(layer), m, gate) || f in RecallFailures(Of(layer), m, gate)
      || f in FloorFailures(Of(layer), m, gate);
  }

  /** A layer is named as missing exactly when it has no observations. */
  lemma {:induction false} MissingLayerIsNamed(report: Report, gate: Gate, layer: Layer)
    ensures NoObservations(layer) in AllFailures(report, gate) <==> layer !in report.byLayer
  {
    NamedFailureIsItsLayers(report, gate, layer, NoObservations(layer));
    if layer in report.byLayer && NoObservations(layer) in LayerFailures(layer, report, gate) {
      FailureKinds(report, gate, layer, NoObservations(layer));
    }
  }

  /** A layer is named for a rate exactly when its own figures miss it. */
  lemma {:induction false} RateFailureIsListed(report: Report, gate: Gate, layer: Layer, f: Failure)
    requires layer in report.byLayer && f in {NothingSurfaced(Of(layer)), FdrTooHigh(Of(layer)), RecallTooLow(Of(layer))}
    ensures f in AllFailures(report, gate) <==> f in RateFailures(Of(layer), report.byLayer[layer], gate)
  {
    NamedFailureIsItsLayers(report, gate, layer, f);
    if f in LayerFailures(layer, report, gate) {
      FailureKinds(report, gate, layer, f);
    }
  }

  /** The sample floors: what was shown against one, what is no barrier against the other. */
  lemma {:induction false} FloorFailuresAreExact(report: Report, gate: Gate, layer: Layer)
    requires layer in report.byLayer
    ensures var m, failures := report.byLayer[layer], AllFailures(report, gate);
            && (TooFewSurfaced(Of(layer)) in failures <==> m.surfaced < gate.minSurfaced)
            && (TooFewNegatives(Of(layer)) in failures <==> m.falsePositives + m.trueNegatives < gate.minNegatives)
  {
    FloorFailureIsListed(report, gate, layer, TooFewSurfaced(Of(layer)));
    FloorFailureIsListed(report, gate, layer, TooFewNegatives(Of(layer)));
  }

  lemma {:induction false} FloorFailureIsListed(report: Report, gate: Gate, layer: Layer, f: Failure)
    requires layer in report.byLayer && f in {TooFewSurfaced(Of(layer)), TooFewNegatives(Of(layer))}
    ensures f in AllFailures(report, gate) <==> f in FloorFailures(Of(layer), report.byLayer[layer], gate)
  {
    NamedFailureIsItsLayers(report, gate, layer, f);
    if f in LayerFailures(layer, report, gate) {
      FailureKinds(report, gate, layer, f);
    }
  }

  /** The rates: nothing shown at all, too large a share of it wrong, too small a share of the barriers found. */
  lemma {:induction false} RateFailuresSay(scope: Scope, m: Metrics, gate: Gate)
    ensures var shown, known := m.truePositives + m.falsePositives, m.truePositives + m.falseNegatives;
            && (NothingSurfaced(scope) in RateFailures(scope, m, gate) <==> shown == 0)
            && (FdrTooHigh(scope) in RateFailures(scope, m, gate) <==>
                  shown > 0 && m.falsePositives as real >= Times(gate.maxFdr, shown))
            && (RecallTooLow(scope) in RateFailures(scope, m, gate) <==>
                  known == 0 || m.truePositives as real < Times(gate.minRecall, known))
  {
    if m.truePositives + m.falsePositives > 0 {
      RatioBelow(m.falsePositives, m.truePositives + m.falsePositives, gate.maxFdr);
    }
    if m.truePositives + m.falseNegatives > 0 {
      RatioBelow(m.truePositives, m.truePositives + m.falseNegatives, gate.minRecall);
    }
  }
}
