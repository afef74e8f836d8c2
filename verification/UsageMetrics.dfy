/** Usage metrics with explicit availability, and their aggregation (usage.py). */
module UsageMetrics {
  import opened Common

  datatype Availability = Complete | Partial | Unavailable | Unknown | Pending

  datatype RawMetric = Metric(value: Option<nat>, availability: Availability)

  /** A complete metric has a value; every other metric hides it. */
  type UsageMetric = m: RawMetric | m.availability.Complete? <==> m.value.Some?
    witness Metric(Some(0), Complete)

  predicate Has(items: seq<UsageMetric>, a: Availability) {
    exists i :: 0 <= i < |items| && items[i].availability == a
  }

  function Total(items: seq<UsageMetric>): (total: nat) {
    if items == [] then 0
    else (if items[0].value.Some? then items[0].value.value else 0) + Total(items[1..])
  }

  function AggregateUsageMetrics(items: seq<UsageMetric>): (r: UsageMetric) {
    if items == [] then Metric(Some(0), Complete)
    else if Has(items, Unknown) then Metric(None, Unknown)
    else if Has(items, Pending) then Metric(None, Pending)
    else if !Has(items, Partial) && !Has(items, Unavailable) then Metric(Some(Total(items)), Complete)
    else if Has(items, Complete) || Has(items, Partial) then Metric(None, Partial)
    else Metric(None, Unavailable)
  }

  /** One token counter over all attempts of one run; a missing count stays missing. */
  function TokenMetric(values: seq<Option<nat>>): (r: UsageMetric) {
    if values == [] then Metric(Some(0), Complete)
    else
      var known := Filter(values, (v: Option<nat>) => v.Some?);
      if |known| == |values| then Metric(Some(SumKnown(values)), Complete)
      else if known != [] then Metric(None, Partial)
      else Metric(None, Unavailable)
  }

  function SumKnown(values: seq<Option<nat>>): (total: nat) {
    if values == [] then 0
    else (if values[0].Some? then values[0].value else 0) + SumKnown(values[1..])
  }

  // ----- aggregation is insensitive to order and to grouping -----

  lemma {:induction false} TotalConcat(a: seq<UsageMetric>, b: seq<UsageMetric>)
    ensures Total(a + b) == Total(a) + Total(b)
  {
    if a == [] {
      assert a + b == b;
    } else {
      assert (a + b)[1..] == a[1..] + b;
      TotalConcat(a[1..], b);
    }
  }

  lemma HasConcat(a: seq<UsageMetric>, b: seq<UsageMetric>, v: Availability)
    ensures Has(a + b, v) <==> Has(a, v) || Has(b, v)
  {
    if Has(a, v) {
      var i :| 0 <= i < |a| && a[i].availability == v;
      assert (a + b)[i].availability == v;
    }
    if Has(b, v) {
      var i :| 0 <= i < |b| && b[i].availability == v;
      assert (a + b)[|a| + i].availability == v;
    }
  }

  lemma {:induction false} TotalPermutation(a: seq<UsageMetric>, b: seq<UsageMetric>)
    requires multiset(a) == multiset(b)
    ensures Total(a) == Total(b)
    decreases |a|
  {
    if a == [] {
      assert |b| == |multiset(b)| == |multiset(a)| == 0;
    } else {
      assert a[0] in multiset(b);
      var i :| 0 <= i < |b| && b[i] == a[0];
      var rest := b[..i] + b[i + 1..];
      assert a == [a[0]] + a[1..];
      assert b == b[..i] + ([b[i]] + b[i + 1..]);
      assert multiset(a) == multiset{a[0]} + multiset(a[1..]);
      assert multiset(b) == multiset(b[..i]) + (multiset{b[i]} + multiset(b[i + 1..]));
      assert multiset(rest) == multiset(b[..i]) + multiset(b[i + 1..]);
      assert multiset(a[1..]) == multiset(a) - multiset{a[0]};
      assert multiset(rest) == multiset(b) - multiset{b[i]};
      TotalPermutation(a[1..], rest);
      TotalConcat(b[..i], [b[i]] + b[i + 1..]);
      TotalConcat(b[..i], b[i + 1..]);
    }
  }

  lemma HasPermutation(a: seq<UsageMetric>, b: seq<UsageMetric>, v: Availability)
    requires multiset(a) == multiset(b)
    ensures Has(a, v) <==> Has(b, v)
  {
    if Has(a, v) {
      var i :| 0 <= i < |a| && a[i].availability == v;
      assert a[i] in multiset(b);
    }
    if Has(b, v) {
      var i :| 0 <= i < |b| && b[i].availability == v;
      assert b[i] in multiset(a);
    }
  }

  /** The aggregate depends only on which metrics there are, not on their order. */
  lemma AggregatePermutation(a: seq<UsageMetric>, b: seq<UsageMetric>)
    requires multiset(a) == multiset(b)
    ensures AggregateUsageMetrics(a) == AggregateUsageMetrics(b)
  {
    TotalPermutation(a, b);
    forall v ensures Has(a, v) <==> Has(b, v) { HasPermutation(a, b, v); }
    assert |a| == |multiset(a)| == |multiset(b)| == |b|;
  }

  lemma HasPair(x: UsageMetric, y: UsageMetric, v: Availability)
    ensures Has([x, y], v) <==> x.availability == v || y.availability == v
  {
    if x.availability == v { assert [x, y][0].availability == v; }
    if y.availability == v { assert [x, y][1].availability == v; }
  }

  lemma TotalPair(x: UsageMetric, y: UsageMetric)
    ensures Total([x, y]) == (if x.value.Some? then x.value.value else 0) + (if y.value.Some? then y.value.value else 0)
  {
    assert [x] + [y] == [x, y];
    TotalConcat([x], [y]);
    TotalOne(x);
    TotalOne(y);
  }

  lemma TotalOne(x: UsageMetric)
    ensures Total([x]) == if x.value.Some? then x.value.value else 0
  {
    assert [x][1..] == [];
  }

  /** The availability of an aggregate, from which kinds occur; only a complete one has a value. */
  function Combined(unknown: bool, pending: bool, partial: bool, unavailable: bool, complete: bool): Availability {
    if unknown then Unknown
    else if pending then Pending
    else if !partial && !unavailable then Complete
    else if complete || partial then Partial
    else Unavailable
  }

  lemma AvailabilityOf(items: seq<UsageMetric>)
    requires items != []
    ensures AggregateUsageMetrics(items).availability ==
      Combined(Has(items, Unknown), Has(items, Pending), Has(items, Partial), Has(items, Unavailable), Has(items, Complete))
    ensures AggregateUsageMetrics(items).availability.Complete? ==>
      AggregateUsageMetrics(items).value == Some(Total(items))
    ensures Has(items, Unknown) || Has(items, Pending) || Has(items, Partial) || Has(items, Unavailable) || Has(items, Complete)
  {
    SomeKind(items);
  }

  lemma SomeKind(items: seq<UsageMetric>)
    requires items != []
    ensures Has(items, Unknown) || Has(items, Pending) || Has(items, Partial) || Has(items, Unavailable) || Has(items, Complete)
  {
    var v := items[0].availability;
    assert Has(items, v);
    match v
    case Complete =>
    case Partial =>
    case Unavailable =>
    case Unknown =>
    case Pending =>
  }

  /** Aggregating two non-empty parts first gives the aggregate of the whole. */
  lemma AggregateOfParts(a: seq<UsageMetric>, b: seq<UsageMetric>)
    requires a != [] && b != []
    ensures AggregateUsageMetrics([AggregateUsageMetrics(a), AggregateUsageMetrics(b)])
         == AggregateUsageMetrics(a + b)
  {
    var x, y := AggregateUsageMetrics(a), AggregateUsageMetrics(b);
    PartsAvailability(a, b);
    AvailabilityOf(a);
    AvailabilityOf(b);
    AvailabilityOf(a + b);
    AvailabilityOf([x, y]);
    TotalConcat(a, b);
    TotalPair(x, y);
  }

  lemma PartsAvailability(a: seq<UsageMetric>, b: seq<UsageMetric>)
    requires a != [] && b != []
    ensures var x, y, whole := AggregateUsageMetrics(a), AggregateUsageMetrics(b), AggregateUsageMetrics(a + b);
      && AggregateUsageMetrics([x, y]).availability == whole.availability
      && (whole.availability.Complete? ==> x.availability.Complete? && y.availability.Complete?)
  {
    var x, y := AggregateUsageMetrics(a), AggregateUsageMetrics(b);
    AvailabilityOf(a);
    AvailabilityOf(b);
    AvailabilityOf(a + b);
    AvailabilityOf([x, y]);
    HasConcat(a, b, Unknown);
    HasConcat(a, b, Pending);
    HasConcat(a, b, Partial);
    HasConcat(a, b, Unavailable);
    HasConcat(a, b, Complete);
    HasPair(x, y, Unknown);
    HasPair(x, y, Pending);
    HasPair(x, y, Partial);
    HasPair(x, y, Unavailable);
    HasPair(x, y, Complete);
  }

  function AggregateEach(groups: seq<seq<UsageMetric>>): (r: seq<UsageMetric>)
    ensures |r| == |groups|
    ensures forall i :: 0 <= i < |groups| ==> r[i] == AggregateUsageMetrics(groups[i])
  {
    seq(|groups|, i requires 0 <= i < |groups| => AggregateUsageMetrics(groups[i]))
  }

  /** Grouping is irrelevant as long as no group is empty. */
  lemma {:induction false} AggregateOfGroups(groups: seq<seq<UsageMetric>>)
    requires forall i :: 0 <= i < |groups| ==> groups[i] != []
    ensures AggregateUsageMetrics(AggregateEach(groups)) == AggregateUsageMetrics(Flatten(groups))
  {
    if groups == [] {
    } else {
      var first, rest := groups[0], groups[1..];
      AggregateOfGroups(rest);
      assert AggregateEach(groups) == [AggregateUsageMetrics(first)] + AggregateEach(rest);
      var head := [AggregateUsageMetrics(first)];
      AggregateSingleton(AggregateUsageMetrics(first));
      if rest == [] {
        assert AggregateEach(rest) == [];
        assert AggregateEach(groups) == head;
        assert Flatten(rest) == [];
        assert Flatten(groups) == first;
      } else {
        AggregateOfParts(head, AggregateEach(rest));
        assert Flatten(rest) != [] by { assert rest[0] != []; }
        AggregateOfParts(first, Flatten(rest));
      }
    }
  }

  lemma AggregateSingleton(m: UsageMetric)
    ensures AggregateUsageMetrics([m]) == m
  {
    assert [m][0].availability == m.availability;
    assert Total([m]) == (if m.value.Some? then m.value.value else 0) + Total([m][1..]);
  }

  // ----- the account total against the flat sum over all attempts -----

  function AttemptMetric(v: Option<nat>): (m: UsageMetric) {
    if v.Some? then Metric(v, Complete) else Metric(None, Unavailable)
  }

  function AttemptMetrics(values: seq<Option<nat>>): (r: seq<UsageMetric>)
    ensures |r| == |values| && forall i :: 0 <= i < |r| ==> r[i] == AttemptMetric(values[i])
  {
    seq(|values|, i requires 0 <= i < |values| => AttemptMetric(values[i]))
  }

  lemma {:induction false} FilterKeepsAll(values: seq<Option<nat>>)
    ensures |Filter(values, (v: Option<nat>) => v.Some?)| == |values| <==> None !in values
  {
    if values != [] {
      FilterKeepsAll(values[1..]);
      assert values == [values[0]] + values[1..];
    }
  }

  lemma {:induction false} TotalOfAttempts(values: seq<Option<nat>>)
    ensures Total(AttemptMetrics(values)) == SumKnown(values)
  {
    if values != [] {
      TotalOfAttempts(values[1..]);
      assert AttemptMetrics(values)[1..] == AttemptMetrics(values[1..]);
    }
  }

  /** A run's own metric is the aggregate of one metric per attempt. */
  lemma TokenMetricIsAggregate(values: seq<Option<nat>>)
    ensures TokenMetric(values) == AggregateUsageMetrics(AttemptMetrics(values))
  {
    var items := AttemptMetrics(values);
    FilterKeepsAll(values);
    TotalOfAttempts(values);
    var known := Filter(values, (v: Option<nat>) => v.Some?);
    assert Has(items, Unavailable) <==> None in values by {
      if None in values { var i :| 0 <= i < |values| && values[i] == None; assert items[i].availability.Unavailable?; }
    }
    assert Has(items, Complete) <==> known != [] by {
      if known != [] { assert known[0] in known; var i :| 0 <= i < |values| && values[i] == known[0]; assert items[i].availability.Complete?; }
      if Has(items, Complete) { var i :| 0 <= i < |items| && items[i].availability.Complete?; assert values[i] in known; }
    }
  }

  function RunMetrics(runs: seq<seq<Option<nat>>>): (r: seq<UsageMetric>)
    ensures |r| == |runs| && forall i :: 0 <= i < |r| ==> r[i] == TokenMetric(runs[i])
  {
    seq(|runs|, i requires 0 <= i < |runs| => TokenMetric(runs[i]))
  }

  function AttemptGroups(runs: seq<seq<Option<nat>>>): (r: seq<seq<UsageMetric>>)
    ensures |r| == |runs| && forall i :: 0 <= i < |r| ==> r[i] == AttemptMetrics(runs[i])
  {
    seq(|runs|, i requires 0 <= i < |runs| => AttemptMetrics(runs[i]))
  }

  lemma {:induction false} FlattenAttemptGroups(runs: seq<seq<Option<nat>>>)
    ensures Flatten(AttemptGroups(runs)) == AttemptMetrics(Flatten(runs))
  {
    if runs != [] {
      FlattenAttemptGroups(runs[1..]);
      assert AttemptGroups(runs) == [AttemptMetrics(runs[0])] + AttemptGroups(runs[1..]);
      assert AttemptGroups(runs)[1..] == AttemptGroups(runs[1..]);
    }
  }

  /** If every final run has an attempt, the account total equals the flat total in every field. */
  lemma TwoLevelAgrees(runs: seq<seq<Option<nat>>>)
    requires forall i :: 0 <= i < |runs| ==> runs[i] != []
    ensures AggregateUsageMetrics(RunMetrics(runs)) == TokenMetric(Flatten(runs))
  {
    var groups := AttemptGroups(runs);
    forall i | 0 <= i < |runs| ensures RunMetrics(runs)[i] == AggregateEach(groups)[i] {
      TokenMetricIsAggregate(runs[i]);
    }
    assert RunMetrics(runs) == AggregateEach(groups);
    forall i | 0 <= i < |groups| ensures groups[i] != [] { assert |groups[i]| == |runs[i]|; }
    AggregateOfGroups(groups);
    FlattenAttemptGroups(runs);
    TokenMetricIsAggregate(Flatten(runs));
  }

  function NonEmptyRuns(runs: seq<seq<Option<nat>>>): (r: seq<seq<Option<nat>>>)
    ensures forall i :: 0 <= i < |r| ==> r[i] != []
  {
    var r := Filter(runs, (run: seq<Option<nat>>) => run != []);
    assert forall i :: 0 <= i < |r| ==> r[i] in r;
    r
  }

  lemma NonEmptyStep(runs: seq<seq<Option<nat>>>)
    requires runs != []
    ensures NonEmptyRuns(runs) == (if runs[0] == [] then [] else [runs[0]]) + NonEmptyRuns(runs[1..])
  {}

  lemma RunMetricsCons(run: seq<Option<nat>>, runs: seq<seq<Option<nat>>>)
    ensures RunMetrics([run] + runs) == [TokenMetric(run)] + RunMetrics(runs)
  {}

  lemma TotalCons(x: UsageMetric, items: seq<UsageMetric>)
    ensures Total([x] + items) == (if x.value.Some? then x.value.value else 0) + Total(items)
  {
    assert ([x] + items)[1..] == items;
  }

  lemma {:induction false} FlattenSkipsEmpty(runs: seq<seq<Option<nat>>>)
    ensures Flatten(NonEmptyRuns(runs)) == Flatten(runs)
  {
    if runs != [] {
      NonEmptyStep(runs);
      FlattenSkipsEmpty(runs[1..]);
      if runs[0] != [] { assert NonEmptyRuns(runs)[1..] == NonEmptyRuns(runs[1..]); }
    }
  }

  lemma {:induction false} TotalSkipsEmpty(runs: seq<seq<Option<nat>>>)
    ensures Total(RunMetrics(NonEmptyRuns(runs))) == Total(RunMetrics(runs))
  {
    if runs != [] {
      var rest := runs[1..];
      NonEmptyStep(runs);
      TotalSkipsEmpty(rest);
      assert runs == [runs[0]] + rest;
      RunMetricsCons(runs[0], rest);
      TotalCons(TokenMetric(runs[0]), RunMetrics(rest));
      if runs[0] != [] {
        RunMetricsCons(runs[0], NonEmptyRuns(rest));
        TotalCons(TokenMetric(runs[0]), RunMetrics(NonEmptyRuns(rest)));
      } else {
        assert [] + NonEmptyRuns(rest) == NonEmptyRuns(rest);
      }
    }
  }

  lemma RunMetricsAvailability(runs: seq<seq<Option<nat>>>, v: Availability)
    requires v.Partial? || v.Unavailable?
    ensures Has(RunMetrics(runs), v) <==> Has(RunMetrics(NonEmptyRuns(runs)), v)
  {
    var kept := NonEmptyRuns(runs);
    if Has(RunMetrics(runs), v) {
      var i :| 0 <= i < |runs| && TokenMetric(runs[i]).availability == v;
      assert runs[i] != [] && runs[i] in kept;
      var j :| 0 <= j < |kept| && kept[j] == runs[i];
      assert RunMetrics(kept)[j].availability == v;
    }
    if Has(RunMetrics(kept), v) {
      var j :| 0 <= j < |kept| && TokenMetric(kept[j]).availability == v;
      assert kept[j] in kept;
      var i :| 0 <= i < |runs| && runs[i] == kept[j];
      assert RunMetrics(runs)[i].availability == v;
    }
  }

  /** The account total is complete with value v exactly when the flat total is. */
  lemma TwoLevelCompleteIff(runs: seq<seq<Option<nat>>>, v: nat)
    ensures AggregateUsageMetrics(RunMetrics(runs)) == Metric(Some(v), Complete)
       <==> TokenMetric(Flatten(runs)) == Metric(Some(v), Complete)
  {
    var kept := NonEmptyRuns(runs);
    FlattenSkipsEmpty(runs);
    TwoLevelAgrees(kept);
    CompleteSkipsEmpty(runs);
  }

  lemma CompleteSkipsEmpty(runs: seq<seq<Option<nat>>>)
    ensures AggregateUsageMetrics(RunMetrics(runs)).value == AggregateUsageMetrics(RunMetrics(NonEmptyRuns(runs))).value
  {
    var kept := NonEmptyRuns(runs);
    TotalSkipsEmpty(runs);
    RunMetricsAvailability(runs, Partial);
    RunMetricsAvailability(runs, Unavailable);
    RunMetricsAreFinal(runs);
    RunMetricsAreFinal(kept);
    ValueOf(RunMetrics(runs));
    ValueOf(RunMetrics(kept));
  }

  /** An aggregate of final metrics has a value exactly if none is incomplete, and it is their total. */
  lemma ValueOf(items: seq<UsageMetric>)
    requires !Has(items, Unknown) && !Has(items, Pending)
    ensures AggregateUsageMetrics(items).value ==
      if Has(items, Partial) || Has(items, Unavailable) then None else Some(Total(items))
  {}

  lemma CompleteRunMetrics(runs: seq<seq<Option<nat>>>)
    ensures Has(RunMetrics(runs), Complete) <==> Has(RunMetrics(NonEmptyRuns(runs)), Complete) || [] in runs
  {
    var kept := NonEmptyRuns(runs);
    if Has(RunMetrics(runs), Complete) {
      var i :| 0 <= i < |runs| && TokenMetric(runs[i]).availability.Complete?;
      if runs[i] != [] {
        assert runs[i] in kept;
        var j :| 0 <= j < |kept| && kept[j] == runs[i];
        assert RunMetrics(kept)[j].availability.Complete?;
      }
    }
    if Has(RunMetrics(kept), Complete) {
      var j :| 0 <= j < |kept| && TokenMetric(kept[j]).availability.Complete?;
      assert kept[j] in kept;
      var i :| 0 <= i < |runs| && runs[i] == kept[j];
      assert RunMetrics(runs)[i].availability.Complete?;
    }
    if [] in runs {
      var i :| 0 <= i < |runs| && runs[i] == [];
      assert RunMetrics(runs)[i].availability.Complete?;
    }
  }

  lemma RunMetricsAreFinal(runs: seq<seq<Option<nat>>>)
    ensures !Has(RunMetrics(runs), Unknown) && !Has(RunMetrics(runs), Pending)
  {}

  lemma {:induction false} NothingSkipped(runs: seq<seq<Option<nat>>>)
    requires [] !in runs
    ensures NonEmptyRuns(runs) == runs
  {
    if runs != [] { NothingSkipped(runs[1..]); }
  }

  /**
    The two levels agree in every field exactly if every run has an attempt or the flat total is
    not wholly unavailable: only then can an empty run's complete zero change the kind.
  */
  lemma TwoLevelAgreesIff(runs: seq<seq<Option<nat>>>)
    ensures AggregateUsageMetrics(RunMetrics(runs)) == TokenMetric(Flatten(runs))
       <==> [] !in runs || !TokenMetric(Flatten(runs)).availability.Unavailable?
  {
    var kept := NonEmptyRuns(runs);
    var flat := TokenMetric(Flatten(runs));
    FlattenSkipsEmpty(runs);
    TwoLevelAgrees(kept);
    if [] !in runs {
      NothingSkipped(runs);
    } else if flat.availability.Complete? {
      TwoLevelCompleteIff(runs, flat.value.value);
    } else {
      TwoLevelKind(runs);
    }
  }

  /** The kind of the account total beside the kind of the runs that have attempts. */
  lemma TwoLevelKind(runs: seq<seq<Option<nat>>>)
    requires [] in runs && !AggregateUsageMetrics(RunMetrics(NonEmptyRuns(runs))).availability.Complete?
    ensures AggregateUsageMetrics(RunMetrics(runs)) == Metric(None, Partial)
    ensures AggregateUsageMetrics(RunMetrics(NonEmptyRuns(runs))).value.None?
  {
    var kept := NonEmptyRuns(runs);
    RunMetricsAreFinal(runs);
    RunMetricsAreFinal(kept);
    RunMetricsAvailability(runs, Partial);
    RunMetricsAvailability(runs, Unavailable);
    CompleteRunMetrics(runs);
    AvailabilityOf(RunMetrics(runs));
    if kept != [] { AvailabilityOf(RunMetrics(kept)); }
  }

  /** A run without attempts counts as a complete zero, so beside an unmeasured run the two levels differ. */
  lemma TwoLevelDiffersOnEmptyRun()
    ensures AggregateUsageMetrics(RunMetrics([[], [None]])) == Metric(None, Partial)
    ensures TokenMetric(Flatten([[], [None]])) == Metric(None, Unavailable)
  {
    var runs: seq<seq<Option<nat>>> := [[], [None]];
    var items := RunMetrics(runs);
    FilterKeepsAll([None]);
    assert Filter([None], (v: Option<nat>) => v.Some?) == [];
    assert items[0] == Metric(Some(0), Complete) && items[1] == Metric(None, Unavailable);
    assert items[0].availability.Complete? && items[1].availability.Unavailable?;
    assert Flatten(runs) == [None] by {
      assert runs[1..] == [[None]];
      assert Flatten(runs[1..]) == [None] + Flatten(runs[1..][1..]);
    }
  }
}
