/** One liveness probe followed through the transcript (internal/transcript/probe.go). */
module Probe {
  import opened Wrappers
  import opened Strings

  type Time = int

  const ZERO: Time := 0
  const PROBE_ANSWER_PREFIX := "TATARA-ALIVE"

  datatype ProbeState = Pending | Delivered | Answered

  datatype Outcome = OutcomeAnswered | DeliveredUnanswered | NeverDelivered

  datatype ProbeStatus = ProbeStatus(
    id: string, state: ProbeState, sentAt: Time, enqueuedAt: Time, deliveredAt: Time, answeredAt: Time,
    answer: string)

  datatype ProbeRecord = ProbeRecord(status: ProbeStatus, text: string, finished: bool)

  /** One call of the outcome observer. */
  datatype Emission = Emission(id: string, outcome: Outcome, latency: int)

  datatype Event =
    | Register(id: string, text: string, at: Time)
    | Discard(id: string)
    | Finalize
    | NoteEnqueue(content: string, at: Time)
    | NoteRemoval(at: Time)
    | NoteAssistantText(text: string, at: Time)

  type Cur = Option<ProbeRecord>

  function OutcomeOf(s: ProbeStatus): Emission {
    match s.state
    case Answered => Emission(s.id, OutcomeAnswered, s.answeredAt - s.sentAt)
    case Delivered => Emission(s.id, DeliveredUnanswered, 0)
    case Pending => Emission(s.id, NeverDelivered, 0)
  }

  /** The record marked finished, and the emission finishing it schedules, if it was not finished yet. */
  function Finish(cur: Cur): (Cur, seq<Emission>) {
    if cur == None || cur.value.finished then (cur, [])
    else (Some(cur.value.(finished := true)), [OutcomeOf(cur.value.status)])
  }

  predicate IsAnswer(text: string, at: Time, deliveredAt: Time) {
    deliveredAt <= at && HasPrefix(TrimSpace(text), PROBE_ANSWER_PREFIX)
  }

  function NewRecord(id: string, text: string, at: Time): ProbeRecord {
    ProbeRecord(ProbeStatus(id, Pending, at, ZERO, ZERO, ZERO, ""), TrimSpace(text), false)
  }

  function Step(cur: Cur, e: Event): (Cur, seq<Emission>) {
    match e
    case Register(id, text, at) => (Some(NewRecord(id, text, at)), Finish(cur).1)
    case Discard(id) => (if cur.Some? && cur.value.status.id == id then None else cur, [])
    case Finalize => Finish(cur)
    case NoteEnqueue(content, at) =>
      if cur == None || cur.value.text == "" || TrimSpace(content) != cur.value.text then (cur, [])
      else if cur.value.status.enqueuedAt != ZERO then (cur, [])
      else (Some(cur.value.(status := cur.value.status.(enqueuedAt := at))), [])
    case NoteRemoval(at) =>
      if cur == None || cur.value.status.state != Pending then (cur, [])
      else (Some(cur.value.(status := cur.value.status.(state := Delivered, deliveredAt := at))), [])
    case NoteAssistantText(text, at) =>
      if cur == None || cur.value.status.state != Delivered then (cur, [])
      else if !IsAnswer(text, at, cur.value.status.deliveredAt) then (cur, [])
      else
        var status := cur.value.status.(state := Answered, answeredAt := at, answer := TrimSpace(text));
        Finish(Some(cur.value.(status := status)))
  }

  class ProbeTracker {
    var cur: Cur
    var scheduled: seq<Emission>

    constructor ()
      ensures cur == None && scheduled == []
    {
      cur, scheduled := None, [];
    }

    method FinishLocked()
      modifies this
      ensures (cur, scheduled) == (Finish(old(cur)).0, old(scheduled) + Finish(old(cur)).1)
    {
      if cur == None || cur.value.finished {
        assert scheduled == scheduled + [];
        return;
      }
      var status := cur.value.status;
      cur := Some(cur.value.(finished := true));
      var outcome, latency := NeverDelivered, 0;
      match status.state {
        case Answered =>
          outcome := OutcomeAnswered;
          latency := status.answeredAt - status.sentAt;
        case Delivered =>
          outcome := DeliveredUnanswered;
        case Pending =>
          outcome := NeverDelivered;
      }
      scheduled := scheduled + [Emission(status.id, outcome, latency)];
    }

    method RegisterProbe(id: string, text: string, at: Time)
      modifies this
      ensures cur == Step(old(cur), Register(id, text, at)).0
      ensures scheduled == old(scheduled) + Step(old(cur), Register(id, text, at)).1
    {
      FinishLocked();
      cur := Some(ProbeRecord(ProbeStatus(id, Pending, at, ZERO, ZERO, ZERO, ""), TrimSpace(text), false));
    }

    method DiscardProbe(id: string)
      modifies `cur
      ensures cur == Step(old(cur), Discard(id)).0
    {
      if cur.Some? && cur.value.status.id == id {
        cur := None;
      }
    }

    method FinalizeProbe()
      modifies this
      ensures cur == Step(old(cur), Finalize).0
      ensures scheduled == old(scheduled) + Step(old(cur), Finalize).1
    {
      FinishLocked();
    }

    /** True when the line is the probe's own enqueue line. */
    method NoteEnqueueLine(content: string, at: Time) returns (own: bool)
      modifies `cur
      ensures cur == Step(old(cur), NoteEnqueue(content, at)).0
      ensures own <==>
              old(cur).Some? && old(cur).value.text != "" && TrimSpace(content) == old(cur).value.text
    {
      if cur == None || cur.value.text == "" || TrimSpace(content) != cur.value.text {
        return false;
      }
      if cur.value.status.enqueuedAt == ZERO {
        cur := Some(cur.value.(status := cur.value.status.(enqueuedAt := at)));
      }
      return true;
    }

    method NoteRemovalLine(at: Time)
      modifies `cur
      ensures cur == Step(old(cur), NoteRemoval(at)).0
    {
      if cur == None || cur.value.status.state != Pending {
        return;
      }
      cur := Some(cur.value.(status := cur.value.status.(state := Delivered, deliveredAt := at)));
    }

    /** The latency, when this text is what answered the probe. */
    method NoteAssistantBlock(text: string, at: Time) returns (latency: Option<int>)
      modifies this
      ensures cur == Step(old(cur), NoteAssistantText(text, at)).0
      ensures scheduled == old(scheduled) + Step(old(cur), NoteAssistantText(text, at)).1
      ensures latency.Some? <==>
                (old(cur).Some? && old(cur).value.status.state.Delivered? && cur.value.status.state.Answered?)
      ensures latency.Some? ==> latency.value == at - cur.value.status.sentAt
    {
      if cur == None || cur.value.status.state != Delivered {
        return None;
      }
      if at < cur.value.status.deliveredAt {
        return None;
      }
      var trimmed := TrimSpace(text);
      if !HasPrefix(trimmed, PROBE_ANSWER_PREFIX) {
        return None;
      }
      var status := cur.value.status.(state := Answered, answeredAt := at, answer := trimmed);
      cur := Some(cur.value.(status := status));
      latency := Some(at - status.sentAt);
      FinishLocked();
    }

    method PendingSince() returns (at: Option<Time>)
      ensures at.Some? <==> cur.Some? && cur.value.status.state.Pending?
      ensures at.Some? ==> at.value == cur.value.status.sentAt
    {
      if cur == None || cur.value.status.state != Pending {
        return None;
      }
      return Some(cur.value.status.sentAt);
    }
  }

  // ---------------------------------------------------------------- histories

  function After(events: seq<Event>): Cur {
    if events == [] then None else Step(After(events[..|events| - 1]), events[|events| - 1]).0
  }

  function Emitted(events: seq<Event>): seq<Emission> {
    if events == [] then []
    else Emitted(events[..|events| - 1]) + Step(After(events[..|events| - 1]), events[|events| - 1]).1
  }

  function KeptAfter(kept: seq<string>, cur: Cur, e: Event): seq<string> {
    if e.Register? then kept + [e.id]
    else if e.Discard? && Unfinished(cur) == [e.id] && kept != [] then kept[..|kept| - 1]
    else kept
  }

  /** The probes registered, without those discarded before they had an outcome. */
  function Kept(events: seq<Event>): seq<string> {
    if events == [] then []
    else KeptAfter(Kept(events[..|events| - 1]), After(events[..|events| - 1]), events[|events| - 1])
  }

  function Unfinished(cur: Cur): seq<string> {
    if cur.Some? && !cur.value.finished then [cur.value.status.id] else []
  }

  function Ids(emissions: seq<Emission>): seq<string> {
    if emissions == [] then [] else Ids(emissions[..|emissions| - 1]) + [emissions[|emissions| - 1].id]
  }

  /** What one event moves between the unfinished probe and the emissions. */
  lemma StepMoves(cur: Cur, e: Event)
    ensures |Step(cur, e).1| <= 1
    ensures e.Register? ==> Ids(Step(cur, e).1) == Unfinished(cur) && Unfinished(Step(cur, e).0) == [e.id]
    ensures e.Discard? ==> Ids(Step(cur, e).1) == []
    ensures e.Discard? ==>
              Unfinished(Step(cur, e).0) == if Unfinished(cur) == [e.id] then [] else Unfinished(cur)
    ensures !e.Register? && !e.Discard? ==> Ids(Step(cur, e).1) + Unfinished(Step(cur, e).0) == Unfinished(cur)
  {
    var out := Step(cur, e).1;
    assert out != [] ==> out[..|out| - 1] == [] && out[0].id == cur.value.status.id;
  }

  lemma IdsConcat(emissions: seq<Emission>, more: seq<Emission>)
    requires |more| <= 1
    ensures Ids(emissions + more) == Ids(emissions) + Ids(more)
  {
    if more == [] {
      assert emissions + more == emissions;
    } else {
      assert (emissions + more)[..|emissions|] == emissions && more[..0] == [];
    }
  }

  /**
   Probes get their outcomes one each, in the order they were registered: the kept probes are the ones with an
   outcome, followed by the current one if it is unfinished.
   */
  lemma {:induction false} OneOutcomeEach(events: seq<Event>)
    ensures Kept(events) == Ids(Emitted(events)) + Unfinished(After(events))
  {
    if events != [] {
      var front, last := events[..|events| - 1], events[|events| - 1];
      OneOutcomeEach(front);
      var cur := After(front);
      StepMoves(cur, last);
      IdsConcat(Emitted(front), Step(cur, last).1);
      KeptStep(Kept(front), Ids(Emitted(front)), cur, last);
    }
  }

  lemma KeptStep(kept: seq<string>, done: seq<string>, cur: Cur, e: Event)
    requires kept == done + Unfinished(cur)
    ensures KeptAfter(kept, cur, e) == done + Ids(Step(cur, e).1) + Unfinished(Step(cur, e).0)
  {
    StepMoves(cur, e);
    if e.Discard? && Unfinished(cur) == [e.id] {
      assert kept[..|kept| - 1] == done;
    }
  }

  function Registrations(events: seq<Event>): nat {
    if events == [] then 0
    else Registrations(events[..|events| - 1]) + if events[|events| - 1].Register? then 1 else 0
  }

  function UnfinishedDiscards(events: seq<Event>): nat {
    if events == [] then 0
    else
      var front, last := events[..|events| - 1], events[|events| - 1];
      UnfinishedDiscards(front) + if last.Discard? && Unfinished(After(front)) == [last.id] then 1 else 0
  }

  lemma {:induction false} KeptCount(events: seq<Event>)
    ensures |Kept(events)| + UnfinishedDiscards(events) == Registrations(events)
  {
    if events != [] {
      var front := events[..|events| - 1];
      KeptCount(front);
      OneOutcomeEach(front);
    }
  }

  lemma {:induction false} IdsLength(emissions: seq<Emission>)
    ensures |Ids(emissions)| == |emissions|
  {
    if emissions != [] {
      IdsLength(emissions[..|emissions| - 1]);
    }
  }

  /** Registered equals outcomes, plus unfinished probes discarded, plus one for an unfinished current probe. */
  lemma ProbesAccountedFor(events: seq<Event>)
    ensures Registrations(events) ==
            |Emitted(events)| + UnfinishedDiscards(events) + |Unfinished(After(events))|
  {
    KeptCount(events);
    OneOutcomeEach(events);
    IdsLength(Emitted(events));
  }

  function Rank(s: ProbeState): nat {
    match s case Pending => 0 case Delivered => 1 case Answered => 2
  }

  /** What holds of every tracked probe: an answer carries the marker and is never older than the delivery. */
  predicate Sound(cur: Cur) {
    cur.Some? ==>
      var s := cur.value.status;
      && (s.state.Answered? ==> s.deliveredAt <= s.answeredAt && HasPrefix(s.answer, PROBE_ANSWER_PREFIX))
      && (s.state.Answered? ==> cur.value.finished)
  }

  lemma {:induction false} AnswersFollowDeliveries(events: seq<Event>)
    ensures Sound(After(events))
  {
    if events != [] {
      AnswersFollowDeliveries(events[..|events| - 1]);
    }
  }

  /** A probe still tracked after an event keeps its identity and moves at most one state forward. */
  lemma OnlyForward(events: seq<Event>, e: Event)
    requires After(events).Some? && After(events + [e]).Some? && !e.Register?
    ensures
      var before, after := After(events).value, After(events + [e]).value;
      && before.status.id == after.status.id && before.text == after.text
      && before.status.sentAt == after.status.sentAt
      && Rank(before.status.state) <= Rank(after.status.state) <= Rank(before.status.state) + 1
      && (before.finished ==> after.finished)
  {
    assert (events + [e])[..|events|] == events;
  }

  // ---------------------------------------------------------------- the declarative reading

  /** The first event that hands a queued message to the model. */
  function FirstRemoval(events: seq<Event>): (i: nat)
    ensures i <= |events|
    ensures i < |events| ==> events[i].NoteRemoval?
    ensures forall j :: 0 <= j < i ==> !events[j].NoteRemoval?
  {
    if events == [] then 0
    else
      var i := FirstRemoval(events[..|events| - 1]);
      if i < |events| - 1 || events[|events| - 1].NoteRemoval? then i else |events|
  }

  predicate AnswersAt(events: seq<Event>, j: nat) {
    var r := FirstRemoval(events);
    r < j < |events| && events[j].NoteAssistantText? && IsAnswer(events[j].text, events[j].at, events[r].at)
  }

  predicate Tracks(during: seq<Event>, id: string) {
    forall i :: 0 <= i < |during| ==> !during[i].Register? && during[i] != Discard(id)
  }

  predicate DeliveryIs(cur: Cur, during: seq<Event>) {
    var r := FirstRemoval(during);
    && cur.Some?
    && (cur.value.status.state.Pending? <==> r == |during|)
    && (r < |during| ==> cur.value.status.deliveredAt == during[r].at)
  }

  ghost predicate HasAnswer(events: seq<Event>) {
    exists j: nat :: AnswersAt(events, j)
  }

  ghost predicate StatusIs(cur: Cur, during: seq<Event>) {
    DeliveryIs(cur, during) && (cur.value.status.state.Answered? <==> HasAnswer(during))
  }

  lemma RemovalStep(front: seq<Event>, last: Event)
    ensures FirstRemoval(front + [last]) ==
            if FirstRemoval(front) < |front| || last.NoteRemoval? then FirstRemoval(front) else |front| + 1
  {
    assert (front + [last])[..|front|] == front;
  }

  lemma AnswerStep(front: seq<Event>, last: Event, j: nat)
    ensures AnswersAt(front + [last], j) <==>
            (if j < |front| then AnswersAt(front, j)
             else j == |front| && FirstRemoval(front) < |front| && last.NoteAssistantText?
                  && IsAnswer(last.text, last.at, front[FirstRemoval(front)].at))
  {
    RemovalStep(front, last);
  }

  lemma HasAnswerStep(front: seq<Event>, last: Event)
    ensures HasAnswer(front + [last]) <==> HasAnswer(front) || AnswersAt(front + [last], |front|)
  {
    var during := front + [last];
    if j: nat :| AnswersAt(during, j) {
      AnswerStep(front, last, j);
    }
    if j: nat :| AnswersAt(front, j) {
      AnswerStep(front, last, j);
      assert AnswersAt(during, j);
    }
  }

  lemma DeliveryStep(cur: Cur, front: seq<Event>, last: Event)
    requires DeliveryIs(cur, front) && !last.Register? && last != Discard(cur.value.status.id)
    ensures DeliveryIs(Step(cur, last).0, front + [last])
    ensures Step(cur, last).0.value.status.id == cur.value.status.id
  {
    RemovalStep(front, last);
  }

  lemma StatusStep(cur: Cur, front: seq<Event>, last: Event)
    requires StatusIs(cur, front) && !last.Register? && last != Discard(cur.value.status.id)
    ensures StatusIs(Step(cur, last).0, front + [last])
    ensures Step(cur, last).0.value.status.id == cur.value.status.id
  {
    DeliveryStep(cur, front, last);
    HasAnswerStep(front, last);
    AnswerStep(front, last, |front|);
  }

  ghost predicate FirstAnswer(events: seq<Event>, j: nat) {
    AnswersAt(events, j) && forall k: nat :: k < j ==> !AnswersAt(events, k)
  }

  ghost predicate AnswerIs(cur: Cur, during: seq<Event>) {
    && cur.Some?
    && (cur.value.status.state.Answered? ==>
          exists j: nat :: FirstAnswer(during, j) && cur.value.status.answeredAt == during[j].at
                           && cur.value.status.answer == TrimSpace(during[j].text))
  }

  lemma AnswerIsStep(cur: Cur, front: seq<Event>, last: Event)
    requires StatusIs(cur, front) && AnswerIs(cur, front)
    requires !last.Register? && last != Discard(cur.value.status.id)
    ensures AnswerIs(Step(cur, last).0, front + [last])
  {
    var during, after := front + [last], Step(cur, last).0.value.status;
    forall j: nat ensures j < |front| ==> AnswersAt(during, j) == AnswersAt(front, j) {
      AnswerStep(front, last, j);
    }
    if cur.value.status.state.Answered? {
      var j: nat :| FirstAnswer(front, j) && cur.value.status.answeredAt == front[j].at
                    && cur.value.status.answer == TrimSpace(front[j].text);
      assert FirstAnswer(during, j) && during[j] == front[j];
    } else if after.state.Answered? {
      AnswerStep(front, last, |front|);
      assert FirstAnswer(during, |front|) && during[|front|] == last;
    }
  }

  function Track(cur: Cur, during: seq<Event>): Cur {
    if during == [] then cur else Step(Track(cur, during[..|during| - 1]), during[|during| - 1]).0
  }

  lemma {:induction false} TrackIsAfter(before: seq<Event>, during: seq<Event>)
    ensures After(before + during) == Track(After(before), during)
    decreases |during|
  {
    if during == [] {
      assert before + during == before;
    } else {
      TrackIsAfter(before, during[..|during| - 1]);
      assert (before + during)[..|before + during| - 1] == before + during[..|during| - 1];
    }
  }

  lemma {:induction false} TrackedStatus(cur: Cur, during: seq<Event>)
    requires StatusIs(cur, []) && Tracks(during, cur.value.status.id)
    ensures StatusIs(Track(cur, during), during)
    ensures Track(cur, during).value.status.id == cur.value.status.id
  {
    if during != [] {
      var front, last := during[..|during| - 1], during[|during| - 1];
      TrackedStatus(cur, front);
      StatusStep(Track(cur, front), front, last);
      assert front + [last] == during;
    }
  }

  lemma {:induction false} TrackedAnswer(cur: Cur, during: seq<Event>)
    requires StatusIs(cur, []) && Tracks(during, cur.value.status.id)
    ensures AnswerIs(Track(cur, during), during)
  {
    if during != [] {
      var front, last := during[..|during| - 1], during[|during| - 1];
      assert Tracks(front, cur.value.status.id);
      TrackedStatus(cur, front);
      TrackedAnswer(cur, front);
      AnswerIsStep(Track(cur, front), front, last);
      assert front + [last] == during;
    }
  }

  /**
   What a probe's state says, from its registration on: delivered when some removal line followed, stamped
   with the first one, and answered when a marked text no older than that followed it, by the first such text.
   */
  lemma StateReadsTheTranscript(
    before: seq<Event>, id: string, text: string, at: Time, during: seq<Event>)
    requires Tracks(during, id)
    ensures StatusIs(After(before + [Register(id, text, at)] + during), during)
    ensures AnswerIs(After(before + [Register(id, text, at)] + during), during)
    ensures After(before + [Register(id, text, at)] + during).value.status.id == id
  {
    var start := before + [Register(id, text, at)];
    assert start[..|before|] == before;
    TrackIsAfter(start, during);
    TrackedStatus(After(start), during);
    TrackedAnswer(After(start), during);
  }

  // ---------------------------------------------------------------- what is reported

  /** A probe that has had its outcome: it was answered, or the turn ended. */
  ghost predicate Closed(during: seq<Event>) {
    HasAnswer(during) || exists i :: 0 <= i < |during| && during[i].Finalize?
  }

  ghost predicate ClosedIs(cur: Cur, during: seq<Event>, sentAt: Time) {
    cur.Some? && cur.value.status.sentAt == sentAt && (cur.value.finished <==> Closed(during))
  }

  lemma ClosedStep(front: seq<Event>, last: Event)
    ensures Closed(front + [last]) <==> Closed(front) || last.Finalize? || AnswersAt(front + [last], |front|)
  {
    var during := front + [last];
    HasAnswerStep(front, last);
    if i :| 0 <= i < |front| && front[i].Finalize? {
      assert during[i].Finalize?;
    }
    if last.Finalize? {
      assert during[|front|].Finalize?;
    }
  }

  lemma TrackedStep(cur: Cur, front: seq<Event>, last: Event, sentAt: Time)
    requires StatusIs(cur, front) && ClosedIs(cur, front, sentAt)
    requires !last.Register? && last != Discard(cur.value.status.id)
    ensures ClosedIs(Step(cur, last).0, front + [last], sentAt)
  {
    ClosedStep(front, last);
    AnswerStep(front, last, |front|);
  }

  lemma {:induction false} TrackedClosed(cur: Cur, during: seq<Event>)
    requires StatusIs(cur, []) && Tracks(during, cur.value.status.id) && !cur.value.finished
    ensures ClosedIs(Track(cur, during), during, cur.value.status.sentAt)
  {
    if during != [] {
      var front, last := during[..|during| - 1], during[|during| - 1];
      assert Tracks(front, cur.value.status.id);
      TrackedStatus(cur, front);
      TrackedClosed(cur, front);
      TrackedStep(Track(cur, front), front, last, cur.value.status.sentAt);
      assert front + [last] == during;
    }
  }

  /** The outcome of a probe sent at `at`, by what followed: the latency runs to the first text that answered it. */
  ghost predicate OutcomeReads(o: Emission, id: string, at: Time, during: seq<Event>) {
    && o.id == id
    && (o.outcome == OutcomeAnswered <==> HasAnswer(during))
    && (o.outcome == NeverDelivered <==> FirstRemoval(during) == |during|)
    && (if o.outcome == OutcomeAnswered then exists j: nat :: FirstAnswer(during, j) && o.latency == during[j].at - at
        else o.latency == 0)
  }

  lemma OutcomeFits(cur: Cur, during: seq<Event>, at: Time)
    requires StatusIs(cur, during) && AnswerIs(cur, during) && cur.value.status.sentAt == at
    ensures OutcomeReads(OutcomeOf(cur.value.status), cur.value.status.id, at, during)
  {
    if cur.value.status.state.Answered? {
      var j: nat :| FirstAnswer(during, j) && cur.value.status.answeredAt == during[j].at;
    }
  }

  /** What event e makes known of the probe followed by `during`. */
  ghost predicate ToldBy(out: seq<Emission>, id: string, at: Time, during: seq<Event>, e: Event) {
    && (out != [] <==> !Closed(during) && (e.Register? || e.Finalize? || AnswersAt(during + [e], |during|)))
    && (out != [] ==>
          |out| == 1 && OutcomeReads(out[0], id, at, if e.NoteAssistantText? then during + [e] else during))
  }

  lemma AnswerTells(cur: Cur, during: seq<Event>, e: Event, at: Time)
    requires StatusIs(cur, during) && AnswerIs(cur, during) && ClosedIs(cur, during, at) && e.NoteAssistantText?
    ensures ToldBy(Step(cur, e).1, cur.value.status.id, at, during, e)
  {
    AnswerStep(during, e, |during|);
    StatusStep(cur, during, e);
    AnswerIsStep(cur, during, e);
    OutcomeFits(Step(cur, e).0, during + [e], at);
  }

  lemma OutcomeStep(cur: Cur, during: seq<Event>, e: Event, at: Time)
    requires StatusIs(cur, during) && AnswerIs(cur, during) && ClosedIs(cur, during, at)
    ensures ToldBy(Step(cur, e).1, cur.value.status.id, at, during, e)
  {
    if e.NoteAssistantText? {
      AnswerTells(cur, during, e, at);
    } else {
      AnswerStep(during, e, |during|);
      OutcomeFits(cur, during, at);
    }
  }

  /**
   What is reported of a probe: at its answer, or else at the end of its turn or at the next probe, whichever comes
   first, and then once. It says answered, with the time from the send to the first answer, when the probe was; never
   delivered when no removal line had followed; and delivered but unanswered otherwise.
   */
  lemma OutcomeReadsTheTranscript(
    before: seq<Event>, id: string, text: string, at: Time, during: seq<Event>, e: Event)
    requires Tracks(during, id)
    ensures ToldBy(Step(After(before + [Register(id, text, at)] + during), e).1, id, at, during, e)
  {
    var start := before + [Register(id, text, at)];
    assert start[..|before|] == before;
    StateReadsTheTranscript(before, id, text, at, during);
    TrackIsAfter(start, during);
    assert After(start).value.status.sentAt == at && !After(start).value.finished;
    assert StatusIs(After(start), []) by {
      assert forall j: nat :: !AnswersAt([], j);
    }
    TrackedClosed(After(start), during);
    OutcomeStep(After(start + during), during, e, at);
  }

  // ---------------------------------------------------------------- the enqueue stamp

  predicate OwnLine(e: Event, text: string) {
    e.NoteEnqueue? && TrimSpace(text) != "" && TrimSpace(e.content) == TrimSpace(text) && e.at != ZERO
  }

  /** The first stamped enqueue line of a probe's text, or the number of events. */
  function FirstOwnLine(events: seq<Event>, text: string): (i: nat)
    ensures i <= |events|
    ensures i < |events| ==> OwnLine(events[i], text)
    ensures forall j :: 0 <= j < i ==> !OwnLine(events[j], text)
  {
    if events == [] then 0
    else
      var i := FirstOwnLine(events[..|events| - 1], text);
      if i < |events| - 1 || OwnLine(events[|events| - 1], text) then i else |events|
  }

  predicate EnqueueIs(cur: Cur, during: seq<Event>, text: string) {
    var i := FirstOwnLine(during, text);
    && cur.Some? && cur.value.text == TrimSpace(text)
    && cur.value.status.enqueuedAt == if i < |during| then during[i].at else ZERO
  }

  lemma EnqueueStep(cur: Cur, front: seq<Event>, last: Event, text: string)
    requires EnqueueIs(cur, front, text) && !last.Register? && last != Discard(cur.value.status.id)
    ensures EnqueueIs(Step(cur, last).0, front + [last], text)
    ensures Step(cur, last).0.value.status.id == cur.value.status.id
  {
    assert (front + [last])[..|front|] == front;
    var i := FirstOwnLine(front, text);
    assert FirstOwnLine(front + [last], text) ==
           if i < |front| || OwnLine(last, text) then i else |front| + 1;
  }

  lemma {:induction false} TrackedEnqueue(cur: Cur, during: seq<Event>, text: string)
    requires cur.Some? && Tracks(during, cur.value.status.id)
    requires EnqueueIs(cur, [], text)
    ensures EnqueueIs(Track(cur, during), during, text) && Track(cur, during).value.status.id == cur.value.status.id
  {
    if during != [] {
      var front, last := during[..|during| - 1], during[|during| - 1];
      assert Tracks(front, cur.value.status.id);
      TrackedEnqueue(cur, front, text);
      EnqueueStep(Track(cur, front), front, last, text);
      assert front + [last] == during;
    }
  }

  /** The enqueue stamp of a probe is that of the first line that queued its text. */
  lemma EnqueueReadsTheTranscript(before: seq<Event>, id: string, text: string, at: Time, during: seq<Event>)
    requires Tracks(during, id)
    ensures var cur, i := After(before + [Register(id, text, at)] + during), FirstOwnLine(during, text);
            cur.Some? && cur.value.status.enqueuedAt == if i < |during| then during[i].at else ZERO
  {
    var start := before + [Register(id, text, at)];
    assert start[..|before|] == before;
    TrackIsAfter(start, during);
    TrackedEnqueue(After(start), during, text);
  }
}
