/** Merging a late thread snapshot into the one on screen (App.tsx): nothing known is lost and no run goes back. */
module ThreadMerge {
  import opened Common
  import opened RunRecords

  datatype Role = User | Assistant

  datatype Message = Message(id: string, role: Role, content: string, run: Option<string>)

  /** `createdAt` is absent when it cannot be read as a date. */
  datatype Run = Run(id: string, status: RunStatus, lastSeq: nat, createdAt: Option<int>)

  datatype Snapshot = Snapshot(messages: seq<Message>, runs: seq<Run>, active: Option<Run>)

  predicate MessagesMatch(left: Message, right: Message) {
    || left.id == right.id
    || (left.role == right.role
        && (if left.run.Some? && right.run.Some? then left.run == right.run
            else left.role.User? && left.content == right.content))
  }

  predicate Matched(messages: seq<Message>, m: Message) {
    exists i :: 0 <= i < |messages| && MessagesMatch(messages[i], m)
  }

  /** The optimistic question is added until its persisted form is in the snapshot. */
  function MergeOptimistic(s: Snapshot, pending: Message): Snapshot {
    if exists i :: 0 <= i < |s.messages| && s.messages[i].role.User?
         && (if pending.run.Some? then s.messages[i].run == pending.run else s.messages[i].content == pending.content)
    then s else s.(messages := s.messages + [pending])
  }

  function MergeMessages(base: seq<Message>, current: seq<Message>): seq<Message> {
    if current == [] then base
    else
      var merged := MergeMessages(base, current[..|current| - 1]);
      if Matched(merged, current[|current| - 1]) then merged else merged + [current[|current| - 1]]
  }

  function FindRun(runs: seq<Run>, id: string): (r: Option<nat>)
    ensures r.Some? ==> r.value < |runs| && runs[r.value].id == id && forall i :: 0 <= i < r.value ==> runs[i].id != id
    ensures r.None? ==> forall i :: 0 <= i < |runs| ==> runs[i].id != id
  {
    if runs == [] then None
    else
      var front := FindRun(runs[..|runs| - 1], id);
      if front.Some? then front else if runs[|runs| - 1].id == id then Some(|runs| - 1) else None
  }

  function RunOf(runs: seq<Run>, id: string): Option<Run> {
    var at := FindRun(runs, id);
    if at.None? then None else Some(runs[at.value])
  }

  /** One known run: added if the snapshot lacks it, kept if it is further along. */
  function MergeRun(runs: seq<Run>, run: Run): seq<Run> {
    var at := FindRun(runs, run.id);
    if at.None? then runs + [run]
    else if runs[at.value].lastSeq < run.lastSeq then runs[at.value := run]
    else runs
  }

  function MergeRuns(base: seq<Run>, current: seq<Run>): seq<Run> {
    if current == [] then base else MergeRun(MergeRuns(base, current[..|current| - 1]), current[|current| - 1])
  }

  predicate KnownEnded(current: seq<Run>, active: Run) {
    var known := RunOf(current, active.id);
    known.Some? && !known.value.status.Active() && known.value.lastSeq >= active.lastSeq
  }

  predicate NoOlder(current: Run, incoming: Option<Run>) {
    incoming.None? || current.createdAt.None? || incoming.value.createdAt.None? || current.createdAt.value >= incoming.value.createdAt.value
  }

  function MergeActive(current: Snapshot, base: Snapshot, runs: seq<Run>): Option<Run> {
    var incoming := if base.active.Some? && KnownEnded(current.runs, base.active.value) then None else base.active;
    if current.active.None? then incoming
    else
      var mine := current.active.value;
      var other := incoming.None? || incoming.value.id != mine.id;
      var merged := RunOf(runs, mine.id);
      var chosen := if other && merged.Some? && merged.value.status.Active() && NoOlder(mine, incoming) then Some(mine) else incoming;
      if chosen.Some? then chosen
      else
        var listed := RunOf(base.runs, mine.id);
        if listed.None? || listed.value.status.Active() then Some(mine) else None
  }

  function MergeThreads(current: Snapshot, incoming: Snapshot, pending: Option<Message>): Snapshot {
    var base := if pending.Some? then MergeOptimistic(incoming, pending.value) else incoming;
    var runs := MergeRuns(base.runs, current.runs);
    Snapshot(MergeMessages(base.messages, current.messages), runs, MergeActive(current, base, runs))
  }

  /** The active run of the merged page. */
  method ChooseActive(current: Snapshot, base: Snapshot, runs: seq<Run>) returns (active: Option<Run>)
    ensures active == MergeActive(current, base, runs)
  {
    active := base.active;
    if active.Some? && KnownEnded(current.runs, active.value) { active := None; }
    if current.active.Some? && (active.None? || active.value.id != current.active.value.id) {
      var merged := RunOf(runs, current.active.value.id);
      if merged.Some? && merged.value.status.Active() && NoOlder(current.active.value, active) { active := current.active; }
    }
    if active.None? && current.active.Some? {
      var listed := RunOf(base.runs, current.active.value.id);
      if listed.None? || listed.value.status.Active() { active := current.active; }
    }
  }

  /** The merge as the page runs it, for two snapshots of one thread. */
  method MergeThreadSnapshotMonotonic(current: Snapshot, incoming: Snapshot, pending: Option<Message>)
    returns (next: Snapshot)
    ensures next == MergeThreads(current, incoming, pending)
  {
    var base := if pending.Some? then MergeOptimistic(incoming, pending.value) else incoming;
    var messages := base.messages;
    for i := 0 to |current.messages|
      invariant messages == MergeMessages(base.messages, current.messages[..i])
    {
      assert current.messages[..i + 1][..i] == current.messages[..i];
      if !Matched(messages, current.messages[i]) { messages := messages + [current.messages[i]]; }
    }
    assert current.messages[..|current.messages|] == current.messages;
    var runs := base.runs;
    for i := 0 to |current.runs|
      invariant runs == MergeRuns(base.runs, current.runs[..i])
    {
      assert current.runs[..i + 1][..i] == current.runs[..i];
      var run := current.runs[i];
      var at := FindRun(runs, run.id);
      if at.None? { runs := runs + [run]; }
      else if runs[at.value].lastSeq < run.lastSeq { runs := runs[at.value := run]; }
    }
    assert current.runs[..|current.runs|] == current.runs;
    var active := ChooseActive(current, base, runs);
    next := Snapshot(messages, runs, active);
  }

  // ----- what a merge keeps -----

  lemma {:induction false} MessagesKept(base: seq<Message>, current: seq<Message>)
    ensures base <= MergeMessages(base, current)
    ensures forall i :: 0 <= i < |current| ==> Matched(MergeMessages(base, current), current[i])
  {
    if current != [] {
      var front, last := current[..|current| - 1], current[|current| - 1];
      MessagesKept(base, front);
      var before, after := MergeMessages(base, front), MergeMessages(base, current);
      forall i | 0 <= i < |current| ensures Matched(after, current[i]) {
        if i < |front| {
          assert Matched(before, front[i]);
          var j :| 0 <= j < |before| && MessagesMatch(before[j], current[i]);
          assert after[j] == before[j];
        } else if !Matched(before, last) {
          assert after[|before|] == last && MessagesMatch(last, last);
        }
      }
    }
  }

  /** The further of two known states of a run; the snapshot wins a tie. */
  function Further(base: Option<Run>, current: Option<Run>): Option<Run> {
    if base.None? then current
    else if current.Some? && base.value.lastSeq < current.value.lastSeq then current
    else base
  }

  ghost predicate DistinctRuns(runs: seq<Run>) { forall i, j :: 0 <= i < j < |runs| ==> runs[i].id != runs[j].id }

  lemma MergeRunIsFurther(runs: seq<Run>, run: Run, id: string)
    ensures RunOf(MergeRun(runs, run), id) == if id == run.id then Further(RunOf(runs, id), Some(run)) else RunOf(runs, id)
  {
    var merged := MergeRun(runs, run);
    var at := FindRun(runs, run.id);
    if at.None? {
      assert merged[..|runs|] == runs;
      assert FindRun(merged[..|merged| - 1], id) == FindRun(runs, id);
    } else {
      FindRunSame(merged, runs, id);
    }
  }

  lemma {:induction false} FindRunSame(a: seq<Run>, b: seq<Run>, id: string)
    requires |a| == |b| && forall i :: 0 <= i < |a| ==> a[i].id == b[i].id
    ensures FindRun(a, id) == FindRun(b, id)
  {
    if a != [] { FindRunSame(a[..|a| - 1], b[..|b| - 1], id); }
  }

  /** Every run known on either side is kept, in the further of its two states. */
  lemma {:induction false} MergeKeepsFurther(base: seq<Run>, current: seq<Run>, id: string)
    requires DistinctRuns(current)
    ensures RunOf(MergeRuns(base, current), id) == Further(RunOf(base, id), RunOf(current, id))
  {
    if current != [] {
      var front, last := current[..|current| - 1], current[|current| - 1];
      MergeKeepsFurther(base, front, id);
      MergeRunIsFurther(MergeRuns(base, front), last, id);
      if last.id == id { assert FindRun(front, id).None?; }
    }
  }

  /** The run shown as active is not one the snapshot knows to have ended. */
  ghost predicate ActiveIsOpen(s: Snapshot) {
    s.active.Some? ==> RunOf(s.runs, s.active.value.id).Some? ==> RunOf(s.runs, s.active.value.id).value.status.Active()
  }

  /** A snapshot as the server answers it: its active run is one of its runs. */
  ghost predicate FromServer(s: Snapshot) {
    s.active.Some? ==> RunOf(s.runs, s.active.value.id) == s.active && s.active.value.status.Active()
  }

  /**
    Merging a server snapshot, however stale, into a consistent page keeps every message and every
    run in its further state, and never shows a run as active that is known to have ended.
  */
  lemma MergeIsMonotone(current: Snapshot, incoming: Snapshot, pending: Option<Message>, id: string)
    requires DistinctRuns(current.runs) && ActiveIsOpen(current) && FromServer(incoming)
    ensures var next := MergeThreads(current, incoming, pending);
      && incoming.messages <= next.messages
      && (forall i :: 0 <= i < |current.messages| ==> Matched(next.messages, current.messages[i]))
      && RunOf(next.runs, id) == Further(RunOf(incoming.runs, id), RunOf(current.runs, id))
      && ActiveIsOpen(next)
  {
    var base := if pending.Some? then MergeOptimistic(incoming, pending.value) else incoming;
    var next := MergeThreads(current, incoming, pending);
    MessagesKept(base.messages, current.messages);
    MergeKeepsFurther(base.runs, current.runs, id);
    if next.active.Some? {
      MergeKeepsFurther(base.runs, current.runs, next.active.value.id);
      ActiveStaysOpen(current, base, next.runs);
    }
  }

  lemma ActiveStaysOpen(current: Snapshot, base: Snapshot, runs: seq<Run>)
    requires ActiveIsOpen(current) && FromServer(base) && MergeActive(current, base, runs).Some?
    requires var id := MergeActive(current, base, runs).value.id;
      RunOf(runs, id) == Further(RunOf(base.runs, id), RunOf(current.runs, id))
    ensures var id := MergeActive(current, base, runs).value.id; RunOf(runs, id).Some? ==> RunOf(runs, id).value.status.Active()
  {}

  // ----- nothing is made up, and what is open stays open -----

  /** No two messages of a list are the same one. */
  ghost predicate NoTwins(messages: seq<Message>) {
    forall i, j :: 0 <= i < j < |messages| ==> !MessagesMatch(messages[i], messages[j])
  }

  lemma {:induction false} MessagesExact(base: seq<Message>, current: seq<Message>)
    ensures forall m :: m in MergeMessages(base, current) ==> m in base || m in current
    ensures NoTwins(base) ==> NoTwins(MergeMessages(base, current))
  {
    if current != [] {
      var front, last := current[..|current| - 1], current[|current| - 1];
      MessagesExact(base, front);
      assert current == front + [last];
      var merged := MergeMessages(base, front);
      if !Matched(merged, last) && NoTwins(base) { TwinsAppend(merged, last); }
    }
  }

  lemma TwinsAppend(messages: seq<Message>, m: Message)
    requires NoTwins(messages) && !Matched(messages, m)
    ensures NoTwins(messages + [m])
  {
    var more := messages + [m];
    forall i, j | 0 <= i < j < |more| ensures !MessagesMatch(more[i], more[j]) {
      if j == |messages| { assert !MessagesMatch(messages[i], m); }
    }
  }

  /** The run the snapshot shows as active, unless the page knows that it has ended since. */
  function Offered(current: Snapshot, incoming: Snapshot): Option<Run> {
    if incoming.active.Some? && KnownEnded(current.runs, incoming.active.value) then None else incoming.active
  }

  /** The page's own active run, as far as both sides know, still runs. */
  predicate StillRuns(current: Snapshot, incoming: Snapshot, run: Run) {
    var known := Further(RunOf(incoming.runs, run.id), RunOf(current.runs, run.id));
    known.Some? && known.value.status.Active()
  }

  /** The snapshot lists the run as ended. */
  predicate ListedEnded(incoming: Snapshot, run: Run) {
    RunOf(incoming.runs, run.id).Some? && !RunOf(incoming.runs, run.id).value.status.Active()
  }

  /**
    Which run the merged page shows as active: the page's own if it still runs and the snapshot offers no other
    that is newer, else the one offered; if none is offered, the page's own unless it is listed as ended.
  */
  lemma ActiveIff(current: Snapshot, incoming: Snapshot, pending: Option<Message>)
    requires DistinctRuns(current.runs)
    ensures var next, offered := MergeThreads(current, incoming, pending).active, Offered(current, incoming);
      if current.active.None? then next == offered
      else
        var mine := current.active.value;
        var keeps := StillRuns(current, incoming, mine)
          && (offered.None? || (offered.value.id != mine.id && NoOlder(mine, offered)));
        && (next == (if keeps || (offered.None? && !ListedEnded(incoming, mine)) then Some(mine) else offered))
        && (next.None? <==> offered.None? && ListedEnded(incoming, mine) && !StillRuns(current, incoming, mine))
  {
    var base := if pending.Some? then MergeOptimistic(incoming, pending.value) else incoming;
    assert base.active == incoming.active && base.runs == incoming.runs;
    if current.active.Some? { MergeKeepsFurther(base.runs, current.runs, current.active.value.id); }
  }

  /** A merged page shows only messages of one of the two sides, and no message twice. */
  lemma MergeMakesNothingUp(current: Snapshot, incoming: Snapshot, pending: Option<Message>)
    ensures forall m :: m in MergeThreads(current, incoming, pending).messages ==>
      m in incoming.messages || m in current.messages || pending == Some(m)
    ensures NoTwins(incoming.messages) && pending.None? ==> NoTwins(MergeThreads(current, incoming, pending).messages)
  {
    var base := if pending.Some? then MergeOptimistic(incoming, pending.value) else incoming;
    MessagesExact(base.messages, current.messages);
  }
}
