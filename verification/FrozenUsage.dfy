/** What the usage frozen with a terminal run says, in terms of the run's own attempt rows (repository.py). */
module FrozenUsage {
  import opened Common
  import opened UsageMetrics
  import opened RunRecords

  function SumOf(attempts: seq<AttemptRow>, field: AttemptRow -> Option<nat>): nat {
    if attempts == [] then 0
    else (match field(attempts[0]) case Some(v) => v case None => 0) + SumOf(attempts[1..], field)
  }

  /** One counter: known of all attempts and their sum, of some of them, or of none. */
  ghost predicate Counts(m: UsageMetric, attempts: seq<AttemptRow>, field: AttemptRow -> Option<nat>) {
    && (m.availability.Complete? <==> forall i :: 0 <= i < |attempts| ==> field(attempts[i]).Some?)
    && (m.availability.Complete? ==> m.value == Some(SumOf(attempts, field)))
    && (m.availability.Partial? <==>
         && (exists i :: 0 <= i < |attempts| && field(attempts[i]).Some?)
         && (exists i :: 0 <= i < |attempts| && field(attempts[i]).None?))
    && (m.availability.Unavailable? <==> attempts != [] && forall i :: 0 <= i < |attempts| ==> field(attempts[i]).None?)
  }

  /** The time from one moment to a later one, never negative. */
  predicate Lasts(ms: nat, start: int, end: int) { ms == if end > start then end - start else 0 }

  predicate GivesAnswer(a: AttemptRow) { a.kind != Decision }

  /** The only attempt that answers, and it succeeded. */
  ghost predicate OnlyAnswer(attempts: seq<AttemptRow>, i: nat) {
    && i < |attempts| && GivesAnswer(attempts[i]) && attempts[i].status.Succeeded? && attempts[i].completedAt.Some?
    && forall j :: 0 <= j < |attempts| && GivesAnswer(attempts[j]) ==> j == i
  }

  function InputTokens(a: AttemptRow): Option<nat> { a.tokens.input }
  function OutputTokens(a: AttemptRow): Option<nat> { a.tokens.output }
  function CachedTokens(a: AttemptRow): Option<nat> { a.tokens.cached }
  function ReasoningTokens(a: AttemptRow): Option<nat> { a.tokens.reasoning }
  function AllTokens(a: AttemptRow): Option<nat> { a.tokens.total }

  ghost predicate TokenTotals(u: RunUsage, attempts: seq<AttemptRow>) {
    && u.FinalUsage?
    && Counts(u.input, attempts, InputTokens)
    && Counts(u.output, attempts, OutputTokens)
    && Counts(u.cached, attempts, CachedTokens)
    && Counts(u.reasoning, attempts, ReasoningTokens)
    && Counts(u.total, attempts, AllTokens)
  }

  ghost predicate CallTotals(u: RunUsage, attempts: seq<AttemptRow>) {
    && u.FinalUsage? && u.modelCalls == |attempts|
    && u.retries == |set i | 0 <= i < |attempts| && attempts[i].attemptIndex > 1|
    && (u.generationMs.Some? <==> exists i: nat :: OnlyAnswer(attempts, i))
    && (forall i: nat :: OnlyAnswer(attempts, i) ==>
         Lasts(u.generationMs.value, attempts[i].startedAt, attempts[i].completedAt.value))
  }

  ghost predicate RunTimes(u: RunUsage, createdAt: int, firstVisible: Option<int>, endedAt: int) {
    && u.FinalUsage? && Lasts(u.durationMs, createdAt, endedAt)
    && (u.firstVisibleMs.Some? <==> firstVisible.Some?)
    && (firstVisible.Some? ==> Lasts(u.firstVisibleMs.value, createdAt, firstVisible.value))
  }

  /** The usage of a run that ended, field by field. */
  ghost predicate UsageTotals(u: RunUsage, row: RunRow, endedAt: int) {
    TokenTotals(u, row.attempts) && CallTotals(u, row.attempts) && RunTimes(u, row.createdAt, row.firstVisible, endedAt)
  }

  lemma {:induction false} SumKnownIs(attempts: seq<AttemptRow>, field: AttemptRow -> Option<nat>,
                                      values: seq<Option<nat>>)
    requires |values| == |attempts| && forall i :: 0 <= i < |values| ==> values[i] == field(attempts[i])
    ensures SumKnown(values) == SumOf(attempts, field)
  {
    if attempts != [] {
      assert forall i :: 0 <= i < |values| - 1 ==> values[1..][i] == field(attempts[1..][i]);
      SumKnownIs(attempts[1..], field, values[1..]);
    }
  }

  lemma MetricCounts(attempts: seq<AttemptRow>, field: AttemptRow -> Option<nat>, values: seq<Option<nat>>)
    requires |values| == |attempts| && forall i :: 0 <= i < |values| ==> values[i] == field(attempts[i])
    ensures Counts(TokenMetric(values), attempts, field)
  {
    SumKnownIs(attempts, field, values);
    KnownCount(values);
    var known := Filter(values, (v: Option<nat>) => v.Some?);
    assert known != [] <==> exists i :: 0 <= i < |values| && values[i].Some? by {
      if known != [] { assert known[0] in known; }
      if i :| 0 <= i < |values| && values[i].Some? { assert values[i] in known; }
    }
    if i :| 0 <= i < |values| && values[i].Some? { assert field(attempts[i]).Some?; }
    if i :| 0 <= i < |values| && values[i].None? { assert field(attempts[i]).None?; }
  }

  /** Nothing is filtered out exactly if everything is known. */
  lemma {:induction false} KnownCount(values: seq<Option<nat>>)
    ensures |Filter(values, (v: Option<nat>) => v.Some?)| == |values| <==>
      forall i :: 0 <= i < |values| ==> values[i].Some?
  {
    if values != [] {
      KnownCount(values[1..]);
      assert (forall i :: 0 <= i < |values| ==> values[i].Some?) <==>
        values[0].Some? && (forall i :: 0 <= i < |values| - 1 ==> values[1..][i].Some?);
    }
  }

  lemma RetriesAre(attempts: seq<AttemptRow>)
    ensures |Filter(attempts, (a: AttemptRow) => a.attemptIndex > 1)|
      == |set i | 0 <= i < |attempts| && attempts[i].attemptIndex > 1|
  {
    var at := FilterSelects(attempts, (a: AttemptRow) => a.attemptIndex > 1);
    RisingSize(at, set i | 0 <= i < |attempts| && attempts[i].attemptIndex > 1);
  }

  lemma FirstTwoDiffer(at: seq<nat>)
    requires Rising(at) && |at| > 1
    ensures at[0] != at[1]
  {}

  lemma GenerationIs(attempts: seq<AttemptRow>)
    ensures GenerationMs(attempts).Some? <==> exists i: nat :: OnlyAnswer(attempts, i)
    ensures forall i: nat :: OnlyAnswer(attempts, i) ==>
      GenerationMs(attempts) == Some(ElapsedMs(attempts[i].startedAt, attempts[i].completedAt.value))
  {
    var at := FilterSelects(attempts, AnswerAttempt);
    var answers := Filter(attempts, AnswerAttempt);
    forall i: nat | OnlyAnswer(attempts, i) ensures |answers| == 1 && answers[0] == attempts[i] {
      assert i in at;
      forall k | 0 <= k < |at| ensures at[k] == i { assert at[k] in at && GivesAnswer(attempts[at[k]]); }
      if |at| > 1 { FirstTwoDiffer(at); }
    }
    if GenerationMs(attempts).Some? {
      forall j | 0 <= j < |attempts| && GivesAnswer(attempts[j]) ensures j == at[0] { assert j in at; }
      assert OnlyAnswer(attempts, at[0]);
    }
  }

  lemma FieldCounts(attempts: seq<AttemptRow>, f: TokenField, field: AttemptRow -> Option<nat>, m: UsageMetric)
    requires m == TokenMetric(TokensOf(attempts, f))
    requires forall i :: 0 <= i < |attempts| ==> field(attempts[i]) == Get(attempts[i].tokens, f)
    ensures Counts(m, attempts, field)
  {
    MetricCounts(attempts, field, TokensOf(attempts, f));
  }

  lemma InputTokensMean(attempts: seq<AttemptRow>, m: UsageMetric)
    requires m == TokenMetric(TokensOf(attempts, Input))
    ensures Counts(m, attempts, InputTokens)
  {
    FieldCounts(attempts, Input, InputTokens, m);
  }

  lemma OutputTokensMean(attempts: seq<AttemptRow>, m: UsageMetric)
    requires m == TokenMetric(TokensOf(attempts, Output))
    ensures Counts(m, attempts, OutputTokens)
  {
    FieldCounts(attempts, Output, OutputTokens, m);
  }

  lemma CachedTokensMean(attempts: seq<AttemptRow>, m: UsageMetric)
    requires m == TokenMetric(TokensOf(attempts, Cached))
    ensures Counts(m, attempts, CachedTokens)
  {
    FieldCounts(attempts, Cached, CachedTokens, m);
  }

  lemma ReasoningTokensMean(attempts: seq<AttemptRow>, m: UsageMetric)
    requires m == TokenMetric(TokensOf(attempts, Reasoning))
    ensures Counts(m, attempts, ReasoningTokens)
  {
    FieldCounts(attempts, Reasoning, ReasoningTokens, m);
  }

  lemma AllTokensMean(attempts: seq<AttemptRow>, m: UsageMetric)
    requires m == TokenMetric(TokensOf(attempts, Sum))
    ensures Counts(m, attempts, AllTokens)
  {
    FieldCounts(attempts, Sum, AllTokens, m);
  }

  lemma TokensMean(row: RunRow, at: int, category: Option<ErrorCategory>)
    ensures TokenTotals(TerminalRunUsage(row, at, category), row.attempts)
  {
    var u := TerminalRunUsage(row, at, category);
    InputTokensMean(row.attempts, u.input);
    OutputTokensMean(row.attempts, u.output);
    CachedTokensMean(row.attempts, u.cached);
    ReasoningTokensMean(row.attempts, u.reasoning);
    AllTokensMean(row.attempts, u.total);
  }

  lemma CallsMean(row: RunRow, at: int, category: Option<ErrorCategory>)
    ensures CallTotals(TerminalRunUsage(row, at, category), row.attempts)
  {
    RetriesAre(row.attempts);
    GenerationIs(row.attempts);
  }

  /** The totals of a terminal run, field by field, from its attempt rows and times. */
  lemma TerminalUsageMeans(row: RunRow, at: int, category: Option<ErrorCategory>)
    ensures var u := TerminalRunUsage(row, at, category); UsageTotals(u, row, at) && u.category == category
  {
    TokensMean(row, at, category);
    CallsMean(row, at, category);
  }

  /** The attempts of a run that ends: the open ones are closed now, the others stay. */
  ghost predicate AttemptsClosed(before: seq<AttemptRow>, after: seq<AttemptRow>, at: int, open: AttemptStatus) {
    && |after| == |before|
    && (forall i :: 0 <= i < |after| ==> AttemptClosed(before[i], after[i], at, open))
  }

  predicate AttemptClosed(before: AttemptRow, after: AttemptRow, at: int, open: AttemptStatus) {
    after == if before.status.Open? then before.(status := open, completedAt := Some(at)) else before
  }

  /** What freezing the usage does: it is the total of the run's own closed attempts, and the rest of the run stays. */
  ghost predicate TerminalUsageWritten(before: RunRow, after: RunRow, at: int, open: AttemptStatus,
                                       category: Option<ErrorCategory>) {
    && after == before.(attempts := after.attempts, usage := after.usage)
    && (if before.metered
        then
          && AttemptsClosed(before.attempts, after.attempts, at, open)
          && after.usage.Some? && UsageTotals(after.usage.value, after, at) && after.usage.value.category == category
        else after == before)
  }

  lemma UsageWritten(run: RunRow, at: int, open: AttemptStatus, category: Option<ErrorCategory>)
    ensures TerminalUsageWritten(run, WithTerminalUsage(run, at, open, category), at, open, category)
  {
    if run.metered {
      var closed := run.(attempts := CloseOpen(run.attempts, open, at));
      TotalsIgnoreUsage(closed, at, category);
      TotalsWritten(closed.(usage := Some(TerminalRunUsage(closed, at, category))), at, category);
      OpenClosed(run.attempts, at, open);
    }
  }

  lemma TotalsWritten(after: RunRow, at: int, category: Option<ErrorCategory>)
    requires after.usage == Some(TerminalRunUsage(after, at, category))
    ensures UsageTotals(after.usage.value, after, at) && after.usage.value.category == category
  {
    TerminalUsageMeans(after, at, category);
  }

  lemma OpenClosed(attempts: seq<AttemptRow>, at: int, open: AttemptStatus)
    ensures AttemptsClosed(attempts, CloseOpen(attempts, open, at), at, open)
  {}
}
