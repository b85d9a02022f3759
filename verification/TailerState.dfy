/**
 What the transcript follower remembers between lines (internal/transcript/tailer.go): the per-turn
 accumulator of internal-issue reports, the outstanding Task calls, and the pending queue operations.
 */
module TailerState {
  import opened Wrappers
  import opened TurnStore

  datatype InternalIssueReport = InternalIssueReport(
    category: string, severity: string, description: string, offendingTool: string, resourceId: string)

  // ---------------------------------------------------------------- internal-issue reports

  datatype IssueEvent =
    | Reported(turn: TurnId, report: InternalIssueReport)
    | Drained(turn: TurnId)

  datatype Accumulator = Accumulator(turn: TurnId, pending: seq<InternalIssueReport>)

  const EMPTY := Accumulator(IDLE, [])

  function Accumulate(a: Accumulator, turn: TurnId, report: InternalIssueReport): Accumulator {
    Accumulator(turn, (if turn != a.turn then [] else a.pending) + [report])
  }

  /** The accumulator after a drain, and what the drain returned. */
  function Drain(a: Accumulator, turn: TurnId): (Accumulator, seq<InternalIssueReport>) {
    if turn == IDLE || turn != a.turn then (a, []) else (EMPTY, a.pending)
  }

  class IssueLog {
    var iiTurnID: TurnId
    var internalIssues: seq<InternalIssueReport>

    ghost function View(): Accumulator
      reads this
    {
      Accumulator(iiTurnID, internalIssues)
    }

    constructor ()
      ensures View() == EMPTY
    {
      iiTurnID, internalIssues := IDLE, [];
    }

    method AccumulateInternalIssue(turn: TurnId, report: InternalIssueReport)
      modifies this
      ensures View() == Accumulate(old(View()), turn, report)
    {
      if turn != iiTurnID {
        internalIssues := [];
        iiTurnID := turn;
      }
      internalIssues := internalIssues + [report];
    }

    method DrainInternalIssues(turn: TurnId) returns (out: seq<InternalIssueReport>)
      modifies this
      ensures (View(), out) == Drain(old(View()), turn)
    {
      if turn == IDLE || turn != iiTurnID {
        return [];
      }
      out := internalIssues;
      internalIssues := [];
      iiTurnID := IDLE;
    }
  }

  /** The accumulator after a history that starts with an empty one. */
  function After(history: seq<IssueEvent>): Accumulator {
    if history == [] then EMPTY
    else
      var a := After(history[..|history| - 1]);
      match history[|history| - 1]
      case Reported(turn, report) => Accumulate(a, turn, report)
      case Drained(turn) => Drain(a, turn).0
  }

  /** The reports of a turn since its last drain and since any other turn last reported something. */
  function Outstanding(history: seq<IssueEvent>, turn: TurnId): seq<InternalIssueReport> {
    if history == [] then []
    else
      var before := Outstanding(history[..|history| - 1], turn);
      match history[|history| - 1]
      case Reported(t, report) => if t == turn then before + [report] else []
      case Drained(t) => if t == turn then [] else before
  }

  /** A drain for a turn returns exactly that turn's outstanding reports, in order. */
  lemma {:induction false} DrainReturnsTheTurnsReports(history: seq<IssueEvent>, turn: TurnId)
    requires turn != IDLE
    ensures Drain(After(history), turn).1 == Outstanding(history, turn)
  {
    if history != [] {
      DrainReturnsTheTurnsReports(history[..|history| - 1], turn);
    }
  }

  /** The reports of a turn in a history, in order. */
  function ReportsOf(history: seq<IssueEvent>, turn: TurnId): seq<InternalIssueReport> {
    if history == [] then []
    else
      var before := ReportsOf(history[..|history| - 1], turn);
      var last := history[|history| - 1];
      if last.Reported? && last.turn == turn then before + [last.report] else before
  }

  /** One turn's stretch of a history: only this turn reports, and nobody drains it. */
  predicate OnlyReports(during: seq<IssueEvent>, turn: TurnId) {
    forall i :: 0 <= i < |during| ==> (during[i].Reported? <==> during[i].turn == turn)
  }

  /**
   When the reports of a turn arrive together, some of them perhaps after the turn ended, the first drain
   for it returns every one, whatever came before and whichever other turns are drained meanwhile.
   */
  lemma {:induction false} DrainReturnsAll(before: seq<IssueEvent>, during: seq<IssueEvent>, turn: TurnId)
    requires turn != IDLE && ReportsOf(before, turn) == [] && OnlyReports(during, turn)
    ensures Drain(After(before + during), turn).1 == ReportsOf(during, turn)
    decreases |during|
  {
    DrainReturnsTheTurnsReports(before + during, turn);
    if during == [] {
      NothingOutstanding(before, turn);
      assert before + during == before;
    } else {
      var front := during[..|during| - 1];
      DrainReturnsAll(before, front, turn);
      DrainReturnsTheTurnsReports(before + front, turn);
      assert (before + during)[..|before + during| - 1] == before + front;
      assert (before + during)[|before + during| - 1] == during[|during| - 1];
    }
  }

  lemma {:induction false} NothingOutstanding(history: seq<IssueEvent>, turn: TurnId)
    requires ReportsOf(history, turn) == []
    ensures Outstanding(history, turn) == []
  {
    if history != [] {
      NothingOutstanding(history[..|history| - 1], turn);
    }
  }

  /** Every report ever accumulated. */
  function Accumulated(history: seq<IssueEvent>): multiset<InternalIssueReport> {
    if history == [] then multiset{}
    else
      var last := history[|history| - 1];
      Accumulated(history[..|history| - 1]) + if last.Reported? then multiset{last.report} else multiset{}
  }

  /** Every report some drain returned. */
  function Returned(history: seq<IssueEvent>): multiset<InternalIssueReport> {
    if history == [] then multiset{}
    else
      var front, last := history[..|history| - 1], history[|history| - 1];
      Returned(front) + if last.Drained? then multiset(Drain(After(front), last.turn).1) else multiset{}
  }

  /** Every report discarded because another turn reported before it was drained. */
  function Dropped(history: seq<IssueEvent>): multiset<InternalIssueReport> {
    if history == [] then multiset{}
    else
      var front, last := history[..|history| - 1], history[|history| - 1];
      Dropped(front) +
      if last.Reported? && last.turn != After(front).turn then multiset(After(front).pending) else multiset{}
  }

  /** No report is returned by two drains: each is returned once, discarded once, or still pending. */
  lemma {:induction false} EachReportReturnedOnce(history: seq<IssueEvent>)
    ensures Accumulated(history) == Returned(history) + Dropped(history) + multiset(After(history).pending)
  {
    if history != [] {
      EachReportReturnedOnce(history[..|history| - 1]);
    }
  }

  // ---------------------------------------------------------------- outstanding Task calls

  const TASK_TOOL := "Task"

  /** What processLine does about Task calls: a line read during a turn, and the blocks in it. */
  datatype LineEvent =
    | LineAt(turn: TurnId)
    | ToolUse(name: string, id: string)
    | ToolResult(id: string)

  class TaskCalls {
    var taskTurnID: TurnId
    var taskUseIDs: set<string>
    var taskCalls: nat

    /** The set and the counter say what the declarative reading of the events so far says. */
    ghost predicate Reflects(events: seq<LineEvent>)
      reads this
    {
      && taskTurnID == TurnAt(events)
      && taskCalls == |taskUseIDs|
      && forall id :: id in taskUseIDs <==> IsOutstanding(events, id)
    }

    constructor ()
      ensures Reflects([])
    {
      taskTurnID, taskUseIDs, taskCalls := IDLE, {}, 0;
    }

    method Observe(e: LineEvent, ghost before: seq<LineEvent>)
      requires Reflects(before)
      modifies this
      ensures Reflects(before + [e])
    {
      forall id: string ensures IsOutstanding(before + [e], id) == StepOutstanding(before, e, id) {
        OutstandingStep(before, e, id);
      }
      assert (before + [e])[..|before|] == before;
      match e
      case LineAt(turn) =>
        if turn != taskTurnID {
          taskUseIDs := {};
          taskCalls := 0;
          taskTurnID := turn;
        }
      case ToolUse(name, id) =>
        if name == TASK_TOOL && id != "" {
          if id !in taskUseIDs {
            taskUseIDs := taskUseIDs + {id};
            taskCalls := taskCalls + 1;
          }
        }
      case ToolResult(id) =>
        if id in taskUseIDs {
          taskUseIDs := taskUseIDs - {id};
          taskCalls := taskCalls - 1;
        }
    }

    /** Reading a whole transcript from the start. */
    method ObserveAll(events: seq<LineEvent>)
      requires Reflects([])
      modifies this
      ensures Reflects(events)
    {
      var i := 0;
      while i < |events|
        invariant 0 <= i <= |events| && Reflects(events[..i])
      {
        assert events[..i + 1] == events[..i] + [events[i]];
        Observe(events[i], events[..i]);
        i := i + 1;
      }
      assert events[..i] == events;
    }
  }

  /** The turn of the last line read. */
  function TurnAt(events: seq<LineEvent>): TurnId {
    if events == [] then IDLE
    else if events[|events| - 1].LineAt? then events[|events| - 1].turn
    else TurnAt(events[..|events| - 1])
  }

  /** From position i on, every line is of the turn that was current there and no result for id follows. */
  predicate Unanswered(events: seq<LineEvent>, i: nat, id: string)
    requires i < |events|
  {
    forall j :: i < j < |events| ==>
      events[j] != ToolResult(id) && (events[j].LineAt? ==> events[j].turn == TurnAt(events[..i]))
  }

  /** The id of a Task call made during the turn still being read, without a result since. */
  predicate IsOutstanding(events: seq<LineEvent>, id: string) {
    id != "" && exists i :: 0 <= i < |events| && events[i] == ToolUse(TASK_TOOL, id) && Unanswered(events, i, id)
  }

  predicate StepOutstanding(before: seq<LineEvent>, e: LineEvent, id: string) {
    match e
    case LineAt(turn) => turn == TurnAt(before) && IsOutstanding(before, id)
    case ToolUse(name, used) => (name == TASK_TOOL && used == id && id != "") || IsOutstanding(before, id)
    case ToolResult(answered) => answered != id && IsOutstanding(before, id)
  }

  lemma {:induction false} TurnHolds(events: seq<LineEvent>, i: nat, id: string)
    requires i < |events| && Unanswered(events, i, id) && !events[i].LineAt?
    ensures TurnAt(events) == TurnAt(events[..i])
    decreases |events|
  {
    var front := events[..|events| - 1];
    if i < |front| {
      assert front[..i] == events[..i] && front[i] == events[i];
      assert forall j :: i < j < |front| ==> front[j] == events[j];
      TurnHolds(front, i, id);
    }
  }

  lemma OutstandingStep(before: seq<LineEvent>, e: LineEvent, id: string)
    ensures IsOutstanding(before + [e], id) == StepOutstanding(before, e, id)
  {
    var all := before + [e];
    if IsOutstanding(all, id) {
      var i :| 0 <= i < |all| && all[i] == ToolUse(TASK_TOOL, id) && Unanswered(all, i, id);
      if i < |before| {
        assert before[i] == all[i] && before[..i] == all[..i] && all[|before|] == e;
        assert forall j :: i < j < |before| ==> before[j] == all[j];
        assert Unanswered(before, i, id);
        TurnHolds(before, i, id);
      }
    }
    if StepOutstanding(before, e, id) {
      if e == ToolUse(TASK_TOOL, id) {
        assert all[|before|] == e && Unanswered(all, |before|, id);
      } else {
        var i :| 0 <= i < |before| && before[i] == ToolUse(TASK_TOOL, id) && Unanswered(before, i, id);
        TurnHolds(before, i, id);
        assert all[..i] == before[..i] && all[i] == before[i];
        assert forall j :: i < j < |before| ==> all[j] == before[j];
        assert Unanswered(all, i, id);
      }
    }
  }

  // ---------------------------------------------------------------- queue operations

  const MAX_PENDING_QUEUE_ITEMS: nat := 128

  datatype QueuedItem = QueuedItem(key: string, at: int)

  datatype QueueOp = Enqueue(item: QueuedItem) | Remove(key: string)

  function Enqueued(pending: seq<QueuedItem>, item: QueuedItem): seq<QueuedItem> {
    var longer := pending + [item];
    if |longer| > MAX_PENDING_QUEUE_ITEMS then longer[|longer| - MAX_PENDING_QUEUE_ITEMS..] else longer
  }

  /** The first position of a key, or 0 when it is not pending. */
  function Match(pending: seq<QueuedItem>, key: string): (i: nat)
    ensures pending != [] ==> i < |pending|
  {
    if pending == [] then 0
    else if pending[0].key == key then 0
    else
      var i := Match(pending[1..], key);
      if |pending| > 1 && pending[1..][i].key == key then i + 1 else 0
  }

  function Removed(pending: seq<QueuedItem>, key: string): seq<QueuedItem> {
    if pending == [] || key == "" then []
    else pending[..Match(pending, key)] + pending[Match(pending, key) + 1..]
  }

  class QueueTracker {
    var pending: seq<QueuedItem>

    constructor ()
      ensures pending == []
    {
      pending := [];
    }

    method EnqueueItem(item: QueuedItem)
      modifies this
      ensures pending == Enqueued(old(pending), item)
      ensures |pending| <= MAX_PENDING_QUEUE_ITEMS
    {
      pending := pending + [item];
      if |pending| > MAX_PENDING_QUEUE_ITEMS {
        pending := pending[|pending| - MAX_PENDING_QUEUE_ITEMS..];
      }
    }

    method RemoveKey(key: string)
      modifies this
      ensures pending == Removed(old(pending), key)
    {
      if |pending| == 0 {
        return;
      }
      if key == "" {
        pending := [];
        return;
      }
      var i := 0;
      while i < |pending|
        invariant 0 <= i <= |pending| && pending == old(pending)
        invariant forall k :: 0 <= k < i ==> pending[k].key != key
      {
        if pending[i].key == key {
          MatchIs(pending, key, i);
          pending := pending[..i] + pending[i + 1..];
          return;
        }
        i := i + 1;
      }
      NoMatch(pending, key);
      pending := pending[1..];
    }

    /**
     The enqueue time of the entry that a removal of no known item would drop; while entries are in time order,
     the oldest time of any pending entry.
     */
    method PendingSince() returns (at: Option<int>)
      ensures at.None? <==> pending == []
      ensures at.Some? ==> NextToGo(pending, at.value)
      ensures at.Some? && InOrder(pending) ==> IsOldest(pending, at.value)
    {
      if |pending| == 0 {
        return None;
      }
      forall key | key != "" && Unmatched(pending, key) ensures pending == [pending[0]] + Removed(pending, key) {
        NoMatch(pending, key);
      }
      return Some(pending[0].at);
    }
  }

  predicate Unmatched(pending: seq<QueuedItem>, key: string) {
    forall k :: 0 <= k < |pending| ==> pending[k].key != key
  }

  /** A removal whose key matches nothing drops an entry enqueued at this time. */
  ghost predicate NextToGo(pending: seq<QueuedItem>, at: int) {
    forall key :: key != "" && Unmatched(pending, key) ==>
                    exists item :: pending == [item] + Removed(pending, key) && item.at == at
  }

  /** No pending entry is older than this time, and one is exactly as old. */
  predicate IsOldest(pending: seq<QueuedItem>, at: int) {
    && (exists k :: 0 <= k < |pending| && pending[k].at == at)
    && forall k :: 0 <= k < |pending| ==> at <= pending[k].at
  }

  lemma {:induction false} MatchIs(pending: seq<QueuedItem>, key: string, i: nat)
    requires i < |pending| && pending[i].key == key
    requires forall k :: 0 <= k < i ==> pending[k].key != key
    ensures Match(pending, key) == i
  {
    if i > 0 {
      MatchIs(pending[1..], key, i - 1);
    }
  }

  lemma {:induction false} NoMatch(pending: seq<QueuedItem>, key: string)
    requires Unmatched(pending, key)
    ensures Match(pending, key) == 0
  {
    if |pending| > 1 {
      NoMatch(pending[1..], key);
    }
  }

  /**
   A removal without a key drops everything; one with a key drops one entry: the first with that key, or the first of all
   when there is none with it. The others keep their order.
   */
  lemma RemovalDrops(pending: seq<QueuedItem>, key: string)
    ensures key == "" || pending == [] ==> Removed(pending, key) == []
    ensures key != "" && pending != [] ==>
              exists k :: 0 <= k < |pending|
                          && Removed(pending, key) == pending[..k] + pending[k + 1..]
                          && (if Unmatched(pending, key) then k == 0
                              else pending[k].key == key && Unmatched(pending[..k], key))
  {
    if key != "" && pending != [] {
      if Unmatched(pending, key) {
        NoMatch(pending, key);
      } else {
        var k := FirstWith(pending, key);
        MatchIs(pending, key, k);
      }
    }
  }

  lemma {:induction false} FirstWith(pending: seq<QueuedItem>, key: string) returns (k: nat)
    requires !Unmatched(pending, key)
    ensures k < |pending| && pending[k].key == key && Unmatched(pending[..k], key)
  {
    var front := pending[..|pending| - 1];
    if Unmatched(front, key) {
      k := |front|;
      assert forall i :: 0 <= i < |front| ==> pending[i] == front[i];
    } else {
      k := FirstWith(front, key);
      assert front[..k] == pending[..k];
    }
  }

  /** With no removals the last 128 entries are pending. */
  lemma {:induction false} NewestAreKept(items: seq<QueuedItem>)
    ensures PendingAfter(Enqueues(items)) == if |items| > 128 then items[|items| - 128..] else items
  {
    if items != [] {
      var front, last := items[..|items| - 1], items[|items| - 1];
      NewestAreKept(front);
      assert Enqueues(items)[..|items| - 1] == Enqueues(front);
      assert items == front + [last];
    }
  }

  function Enqueues(items: seq<QueuedItem>): seq<QueueOp> {
    seq(|items|, i requires 0 <= i < |items| => Enqueue(items[i]))
  }

  function PendingAfter(ops: seq<QueueOp>): seq<QueuedItem> {
    if ops == [] then []
    else
      var before := PendingAfter(ops[..|ops| - 1]);
      match ops[|ops| - 1]
      case Enqueue(item) => Enqueued(before, item)
      case Remove(key) => Removed(before, key)
  }

  predicate InOrder(items: seq<QueuedItem>) {
    forall i, j :: 0 <= i < j < |items| ==> items[i].at <= items[j].at
  }

  /** Everything pending was enqueued, and at most the cap is kept. */
  lemma {:induction false} PendingWereEnqueued(ops: seq<QueueOp>)
    ensures |PendingAfter(ops)| <= MAX_PENDING_QUEUE_ITEMS
    ensures forall it :: it in PendingAfter(ops) ==> Enqueue(it) in ops
  {
    if ops != [] {
      PendingWereEnqueued(ops[..|ops| - 1]);
      assert ops == ops[..|ops| - 1] + [ops[|ops| - 1]];
    }
  }

  lemma EnqueuedInOrder(pending: seq<QueuedItem>, item: QueuedItem)
    requires InOrder(pending) && forall it :: it in pending ==> it.at <= item.at
    ensures InOrder(Enqueued(pending, item))
  {
    var longer := pending + [item];
    forall i, j | 0 <= i < j < |longer| ensures longer[i].at <= longer[j].at {
      assert i < |pending| && longer[i] == pending[i] && pending[i] in pending;
    }
    assert InOrder(longer);
  }

  lemma RemovedInOrder(pending: seq<QueuedItem>, key: string)
    requires InOrder(pending)
    ensures InOrder(Removed(pending, key))
  {
  }

  predicate TimeOrdered(ops: seq<QueueOp>) {
    forall i, j :: 0 <= i < j < |ops| && ops[i].Enqueue? && ops[j].Enqueue? ==> ops[i].item.at <= ops[j].item.at
  }

  /**
   While lines are enqueued in time order, the first pending item is the oldest one: the stamp published
   never skips an older message that is still waiting.
   */
  lemma {:induction false} OldestIsReported(ops: seq<QueueOp>)
    requires TimeOrdered(ops)
    ensures InOrder(PendingAfter(ops))
    ensures PendingAfter(ops) != [] ==> IsOldest(PendingAfter(ops), PendingAfter(ops)[0].at)
  {
    if ops != [] {
      var front, last := ops[..|ops| - 1], ops[|ops| - 1];
      OldestIsReported(front);
      var before := PendingAfter(front);
      if last.Enqueue? {
        PendingWereEnqueued(front);
        forall it | it in before ensures it.at <= last.item.at {
          assert Enqueue(it) in front;
          var i :| 0 <= i < |front| && front[i] == Enqueue(it);
          assert ops[i] == Enqueue(it);
        }
        EnqueuedInOrder(before, last.item);
      } else {
        RemovedInOrder(before, last.key);
      }
    }
  }
}
