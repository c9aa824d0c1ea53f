/** What the verdicts of downstream make of the rows and of the offset over a whole poll loop. */
module Verdicts {
  import opened Engine
  import opened Completions
  import opened Worker
  import Pipeline
  import Partition
  import H = Handler
  import Downstream

  // ---------------------------------------------------------------- calls, one after the other

  /** A `handleRecord` call on the record at this offset. */
  datatype Call = Call(offset: nat, plan: H.Plan)

  /** What a call leaves: the table, its result, and the job it has delivered. */
  datatype End = End(table: Table, ok: bool, sent: Option<Job>)

  type Step = (Table, Call) -> End

  function Replay(step: Step, t: Table, calls: seq<Call>): Table
    decreases |calls|
  {
    if calls == [] then t else Replay(step, step(t, calls[0]).table, calls[1..])
  }

  function With(delivered: seq<Job>, sent: Option<Job>): seq<Job> {
    if sent.Some? then delivered + [sent.value] else delivered
  }

  /** The deliveries made so far, and then those of the calls. */
  function Delivered(step: Step, t: Table, calls: seq<Call>, sofar: seq<Job>): seq<Job>
    decreases |calls|
  {
    if calls == [] then sofar else
    Delivered(step, step(t, calls[0]).table, calls[1..], With(sofar, step(t, calls[0]).sent))
  }

  /** How the call at position `i` of these ends. */
  function EndAt(step: Step, t: Table, calls: seq<Call>, i: nat): End
    requires i < |calls|
  {
    step(Replay(step, t, calls[..i]), calls[i])
  }

  /** How many of the calls return true before one returns false. */
  function Accepted(step: Step, t: Table, calls: seq<Call>): nat
    decreases |calls|
  {
    if calls == [] || !step(t, calls[0]).ok then 0 else 1 + Accepted(step, step(t, calls[0]).table, calls[1..])
  }

  /** The calls on the records from `o` up to `end`, each with the next of the plans, up to the first that returns
      false. */
  function BatchCalls(step: Step, o: nat, end: nat, t: Table, plans: seq<H.Plan>): (calls: seq<Call>)
    requires o <= end
    ensures |calls| <= end - o && forall i :: 0 <= i < |calls| ==> calls[i].offset == o + i
    decreases end - o
  {
    if o == end then [] else
    var c := Call(o, PlanAt(plans, 0));
    var e := step(t, c);
    [c] + if e.ok then BatchCalls(step, o + 1, end, e.table, Later(plans, 1)) else []
  }

  lemma {:induction false} ReplayConcat(step: Step, t: Table, a: seq<Call>, b: seq<Call>, sofar: seq<Job>)
    ensures var mid := Replay(step, t, a);
            && Replay(step, t, a + b) == Replay(step, mid, b)
            && Delivered(step, t, a + b, sofar) == Delivered(step, mid, b, Delivered(step, t, a, sofar))
    decreases |a|
  {
    if a == [] {
      assert a + b == b;
    } else {
      assert (a + b)[1..] == a[1..] + b;
      ReplayConcat(step, step(t, a[0]).table, a[1..], b, With(sofar, step(t, a[0]).sent));
    }
  }

  lemma ReplayAfter(step: Step, t: Table, calls: seq<Call>, i: nat)
    requires i < |calls|
    ensures Replay(step, t, calls) == Replay(step, EndAt(step, t, calls, i).table, calls[i + 1..])
  {
    assert calls[i..][0] == calls[i] && calls[i..][1..] == calls[i + 1..] && calls[..i] + calls[i..] == calls;
    ReplayConcat(step, t, calls[..i], calls[i..], []);
  }

  lemma EndAtOn(step: Step, t: Table, calls: seq<Call>, i: nat)
    requires i < |calls|
    ensures EndAt(step, t, calls, i) ==
            if i == 0 then step(t, calls[0]) else EndAt(step, step(t, calls[0]).table, calls[1..], i - 1)
  {
    if i == 0 {
      assert calls[..0] == [];
    } else {
      assert calls[..i][1..] == calls[1..][..i - 1];
    }
  }

  lemma RestOfBatch(step: Step, o: nat, end: nat, t: Table, plans: seq<H.Plan>)
    requires o < end
    ensures var calls, e := BatchCalls(step, o, end, t, plans), step(t, Call(o, PlanAt(plans, 0)));
            && calls != [] && calls[0] == Call(o, PlanAt(plans, 0))
            && calls[1..] == if e.ok then BatchCalls(step, o + 1, end, e.table, Later(plans, 1)) else []
  {
  }

  /** Of the calls of a batch only the last can return false, so the accepted ones are the first. */
  lemma {:induction false} AcceptedIff(step: Step, o: nat, end: nat, t: Table, plans: seq<H.Plan>, i: nat)
    requires o <= end && i < |BatchCalls(step, o, end, t, plans)|
    ensures var calls := BatchCalls(step, o, end, t, plans);
            EndAt(step, t, calls, i).ok <==> i < Accepted(step, t, calls)
    decreases end - o
  {
    var calls := BatchCalls(step, o, end, t, plans);
    RestOfBatch(step, o, end, t, plans);
    EndAtOn(step, t, calls, i);
    if i > 0 {
      AcceptedIff(step, o + 1, end, step(t, calls[0]).table, Later(plans, 1), i - 1);
    }
  }

  // ---------------------------------------------------------------- the prefix rule makes these calls

  /** The handler does with a record what the call does. */
  ghost predicate HandlesAs(handle: Handler, step: Step, r: Record, o: nat, t: Table, sofar: seq<Job>,
                            plans: seq<H.Plan>) {
    var e := step(t, Call(o, PlanAt(plans, 0)));
    handle(Scene(t, sofar, plans), r) == (Scene(e.table, With(sofar, e.sent), Later(plans, 1)), e.ok)
  }

  ghost predicate AllHandledAs(handle: Handler, step: Step, log: seq<Record>) {
    forall o: nat, t: Table, sofar: seq<Job>, plans: seq<H.Plan> ::
      o < |log| ==> HandlesAs(handle, step, log[o], o, t, sofar, plans)
  }

  /** What the prefix rule makes of the records from `o` up to `end`: table, deliveries and prefix are those of the
      calls. */
  ghost predicate IsReplay(handle: Handler, step: Step, log: seq<Record>, o: nat, end: nat, t: Table, sofar: seq<Job>,
                           plans: seq<H.Plan>)
    requires o <= end <= |log|
  {
    var calls := BatchCalls(step, o, end, t, plans);
    var (scene, n) := Partition.SafePrefix(handle, Scene(t, sofar, plans), log[o..end]);
    && scene.table == Replay(step, t, calls) && scene.delivered == Delivered(step, t, calls, sofar)
    && n == Accepted(step, t, calls)
  }

  lemma {:induction false} BatchIsReplay(handle: Handler, step: Step, log: seq<Record>, o: nat, end: nat, t: Table,
                                         sofar: seq<Job>, plans: seq<H.Plan>)
    requires AllHandledAs(handle, step, log) && o <= end <= |log|
    ensures IsReplay(handle, step, log, o, end, t, sofar, plans)
    decreases end - o
  {
    if o < end {
      var e, records := step(t, Call(o, PlanAt(plans, 0))), log[o..end];
      assert records[0] == log[o] && records[1..] == log[o + 1..end];
      assert HandlesAs(handle, step, log[o], o, t, sofar, plans);
      RestOfBatch(step, o, end, t, plans);
      if e.ok {
        BatchIsReplay(handle, step, log, o + 1, end, e.table, With(sofar, e.sent), Later(plans, 1));
      }
    }
  }

  // ---------------------------------------------------------------- polls are their calls

  function PollCalls(step: Step, log: seq<Record>, at: Progress, poll: PollPlan): (calls: seq<Call>)
    requires at.offset <= |log|
    ensures forall i :: 0 <= i < |calls| ==> calls[i].offset == at.offset + i < |log|
  {
    BatchCalls(step, at.offset, at.offset + Fetches(log, at.offset, poll), at.table, poll.plans)
  }

  /** Where a poll is after these calls: their table, their deliveries, and its commit exactly past those that
      return true before one returns false. */
  function Replayed(step: Step, at: Progress, calls: seq<Call>, commit: Fault): Progress {
    Progress(Replay(step, at.table, calls), Delivered(step, at.table, calls, at.delivered),
             at.offset + if commit.ErrLost? then 0 else Accepted(step, at.table, calls))
  }

  /** A poll is the calls that it makes, one after the other, and its commit. */
  lemma PollIsReplay(handle: Handler, step: Step, log: seq<Record>, at: Progress, poll: PollPlan)
    requires AllHandledAs(handle, step, log) && at.offset <= |log|
    ensures PollEnd(handle, log, at, poll) == Replayed(step, at, PollCalls(step, log, at, poll), poll.commit)
  {
    BatchIsReplay(handle, step, log, at.offset, at.offset + Fetches(log, at.offset, poll), at.table, at.delivered,
                  poll.plans);
  }

  lemma RefusedIsNotCommitted(handle: Handler, step: Step, log: seq<Record>, at: Progress, poll: PollPlan, i: nat)
    requires AllHandledAs(handle, step, log) && at.offset <= |log| && i < |PollCalls(step, log, at, poll)|
    requires !EndAt(step, at.table, PollCalls(step, log, at, poll), i).ok
    ensures PollEnd(handle, log, at, poll).offset <= at.offset + i
  {
    PollIsReplay(handle, step, log, at, poll);
    AcceptedIff(step, at.offset, at.offset + Fetches(log, at.offset, poll), at.table, poll.plans, i);
  }

  /** The calls of all the polls in turn. */
  function LoopCalls(handle: Handler, step: Step, log: seq<Record>, at: Progress, polls: seq<PollPlan>)
    : (calls: seq<Call>)
    requires at.offset <= |log|
    ensures forall i :: 0 <= i < |calls| ==> calls[i].offset < |log|
    decreases |polls|
  {
    if polls == [] then [] else
    PollCalls(step, log, at, polls[0]) +
    LoopCalls(handle, step, log, PollEnd(handle, log, at, polls[0]), polls[1..])
  }

  /** Table and deliveries of a loop are those of the calls of its polls, one after the other. */
  lemma {:induction false} LoopIsReplay(handle: Handler, step: Step, log: seq<Record>, at: Progress,
                                        polls: seq<PollPlan>)
    requires AllHandledAs(handle, step, log) && at.offset <= |log|
    ensures var calls, end := LoopCalls(handle, step, log, at, polls), PollsEnd(handle, log, at, polls);
            && end.table == Replay(step, at.table, calls)
            && end.delivered == Delivered(step, at.table, calls, at.delivered)
    decreases |polls|
  {
    if polls != [] {
      var next := PollEnd(handle, log, at, polls[0]);
      PollIsReplay(handle, step, log, at, polls[0]);
      LoopIsReplay(handle, step, log, next, polls[1..]);
      ReplayConcat(step, at.table, PollCalls(step, log, at, polls[0]),
                   LoopCalls(handle, step, log, next, polls[1..]), at.delivered);
    }
  }

  // ---------------------------------------------------------------- handleRecord as a call

  function KeyAt(consumer: string, log: seq<Record>, c: Call): Key
    requires c.offset < |log|
  {
    Pipeline.KeyFor(log[c.offset], consumer)
  }

  function CallEnd(consumer: string, log: seq<Record>, t: Table, c: Call): End {
    if c.offset >= |log| || !Handleable(log[c.offset].value) then End(t, false, None) else
    var job := log[c.offset].value.job;
    var (t', ok, called) := H.RunHandler(t, KeyAt(consumer, log, c), job.eventType, H.Ready, c.plan);
    End(t', ok, if called then Some(job) else None)
  }

  function Steps(consumer: string, log: seq<Record>): Step {
    (t, c) => CallEnd(consumer, log, t, c)
  }

  lemma SceneIsCall(consumer: string, log: seq<Record>, o: nat, t: Table, sofar: seq<Job>, plans: seq<H.Plan>)
    requires o < |log|
    ensures var e := CallEnd(consumer, log, t, Call(o, PlanAt(plans, 0)));
            HandleScene(consumer, Scene(t, sofar, plans), log[o]) ==
            (Scene(e.table, With(sofar, e.sent), Later(plans, 1)), e.ok)
  {
  }

  lemma RecordsAreCalls(consumer: string, log: seq<Record>)
    ensures AllHandledAs(Handle(consumer), Steps(consumer, log), log)
  {
    forall o: nat, t: Table, sofar: seq<Job>, plans: seq<H.Plan> | o < |log|
      ensures HandlesAs(Handle(consumer), Steps(consumer, log), log[o], o, t, sofar, plans)
    {
      SceneIsCall(consumer, log, o, t, sofar, plans);
    }
  }

  // ---------------------------------------------------------------- what is committed

  lemma RetryableIsRefused(consumer: string, log: seq<Record>, t: Table, c: Call)
    requires CallEnd(consumer, log, t, c).sent.Some?
    requires var verdict := Downstream.Verdict(c.plan.transport);
             verdict.Some? && Downstream.IsRetryable(verdict.value)
    ensures !CallEnd(consumer, log, t, c).ok
  {
    H.DeliveredCallMarks(t, KeyAt(consumer, log, c), log[c.offset].value.job.eventType, c.plan);
  }

  /** A record whose delivery got a retryable verdict is not committed by its poll, whatever others do. */
  lemma RetryableIsNotCommitted(consumer: string, log: seq<Record>, at: Progress, poll: PollPlan, i: nat)
    requires at.offset <= |log| && i < |PollCalls(Steps(consumer, log), log, at, poll)|
    requires var calls := PollCalls(Steps(consumer, log), log, at, poll);
             var verdict := Downstream.Verdict(calls[i].plan.transport);
             && EndAt(Steps(consumer, log), at.table, calls, i).sent.Some?
             && verdict.Some? && Downstream.IsRetryable(verdict.value)
    ensures PollEnd(Handle(consumer), log, at, poll).offset <= at.offset + i
  {
    var step, calls := Steps(consumer, log), PollCalls(Steps(consumer, log), log, at, poll);
    RetryableIsRefused(consumer, log, Replay(step, at.table, calls[..i]), calls[i]);
    RecordsAreCalls(consumer, log);
    RefusedIsNotCommitted(Handle(consumer), step, log, at, poll, i);
  }

  // ---------------------------------------------------------------- what the rows become

  /** The calls are on records of this log, and nobody else is at the row meanwhile. */
  predicate CallsAway(log: seq<Record>, calls: seq<Call>, k: Key) {
    forall i :: 0 <= i < |calls| ==> calls[i].offset < |log| && calls[i].plan.AwayFrom({k})
  }

  /** The call delivers the row's event. */
  predicate Delivers(consumer: string, log: seq<Record>, e: End, c: Call, k: Key) {
    c.offset < |log| && KeyAt(consumer, log, c) == k && e.sent.Some?
  }

  predicate NoneDelivers(consumer: string, log: seq<Record>, t: Table, calls: seq<Call>, k: Key)
    decreases |calls|
  {
    calls == [] ||
    var e := CallEnd(consumer, log, t, calls[0]);
    !Delivers(consumer, log, e, calls[0], k) && NoneDelivers(consumer, log, e.table, calls[1..], k)
  }

  /** Some claim on the row has reported an error although its effect was applied. */
  predicate TakenBack(consumer: string, log: seq<Record>, calls: seq<Call>, k: Key) {
    exists i :: 0 <= i < |calls| && calls[i].offset < |log| && KeyAt(consumer, log, calls[i]) == k &&
                calls[i].plan.update.ErrApplied?
  }

  /** The row as it was, or processing after a claim that took effect unseen. */
  predicate Kept(t: Table, t': Table, k: Key, takenBack: bool) {
    && k in t && k in t'
    && (IsProcessed(t, k) ==> t'[k] == t[k])
    && (H.RowIs(t, k, Processing) ==> H.RowIs(t', k, Processing))
    && (IsFailed(t, k) ==> t'[k] == t[k] || (H.RowIs(t', k, Processing) && takenBack))
  }

  lemma CallKeeps(consumer: string, log: seq<Record>, t: Table, c: Call, k: Key)
    requires c.offset < |log| && c.plan.AwayFrom({k}) && k in t
    requires !Delivers(consumer, log, CallEnd(consumer, log, t, c), c, k)
    ensures Kept(t, CallEnd(consumer, log, t, c).table, k, KeyAt(consumer, log, c) == k && c.plan.update.ErrApplied?)
  {
    var r := log[c.offset];
    if Handleable(r.value) && KeyAt(consumer, log, c) == k {
      H.UndeliveredKeeps(t, k, r.value.job.eventType, c.plan);
    } else if Handleable(r.value) {
      H.TouchesOwnRow(t, KeyAt(consumer, log, c), r.value.job.eventType, H.Ready, c.plan, k);
    }
  }

  lemma TakenBackOn(consumer: string, log: seq<Record>, calls: seq<Call>, k: Key)
    requires calls != [] && calls[0].offset < |log|
    ensures TakenBack(consumer, log, calls, k) <==>
            (KeyAt(consumer, log, calls[0]) == k && calls[0].plan.update.ErrApplied?) ||
            TakenBack(consumer, log, calls[1..], k)
  {
    if TakenBack(consumer, log, calls[1..], k) {
      var i :| && 0 <= i < |calls[1..]| && calls[1..][i].offset < |log| && KeyAt(consumer, log, calls[1..][i]) == k
               && calls[1..][i].plan.update.ErrApplied?;
      assert calls[i + 1] == calls[1..][i];
    }
    if TakenBack(consumer, log, calls, k) {
      var i :| && 0 <= i < |calls| && calls[i].offset < |log| && KeyAt(consumer, log, calls[i]) == k
               && calls[i].plan.update.ErrApplied?;
      assert i > 0 ==> calls[1..][i - 1] == calls[i];
    }
  }

  /** With nobody else at the row, calls that do not deliver it keep it, but for claims that took effect unseen. */
  lemma {:induction false} UndeliveredStays(consumer: string, log: seq<Record>, t: Table, calls: seq<Call>, k: Key)
    requires CallsAway(log, calls, k) && NoneDelivers(consumer, log, t, calls, k) && k in t
    ensures Kept(t, Replay(Steps(consumer, log), t, calls), k, TakenBack(consumer, log, calls, k))
    decreases |calls|
  {
    if calls != [] {
      CallKeeps(consumer, log, t, calls[0], k);
      TakenBackOn(consumer, log, calls, k);
      UndeliveredStays(consumer, log, CallEnd(consumer, log, t, calls[0]).table, calls[1..], k);
    }
  }

  /** The row as a delivery under this plan and its mark have left it. */
  ghost predicate LeftBy(plan: H.Plan, t: Table, k: Key, takenBack: bool) {
    var verdict := Downstream.Verdict(plan.transport);
    && k in t
    && (verdict.None? ==> t[k].status.Processed? && t[k].error == None)
    && (verdict.Some? ==>
          || (t[k].status.Failed? && t[k].error == Some(Downstream.Text(verdict.value)))
          || (t[k].status.Processing? && takenBack))
  }

  lemma DeliveryLeaves(consumer: string, log: seq<Record>, t: Table, c: Call, k: Key)
    requires Delivers(consumer, log, CallEnd(consumer, log, t, c), c, k)
    requires c.plan.AwayFrom({k}) && !c.plan.mark.ErrLost?
    ensures LeftBy(c.plan, CallEnd(consumer, log, t, c).table, k, false)
  {
    H.DeliveryDecides(t, k, log[c.offset].value.job.eventType, c.plan);
  }

  /** Among any calls, with nobody else at the row, the last one that delivers its event decides what the row ends
      as: processed after a 2xx, failed with the verdict's text after an error, provided its mark is not lost; a
      failed row may have been taken back by a later claim that took effect unseen. */
  lemma LastDeliveryDecides(consumer: string, log: seq<Record>, t: Table, calls: seq<Call>, i: nat, k: Key)
    requires CallsAway(log, calls, k) && i < |calls| && !calls[i].plan.mark.ErrLost?
    requires var e := EndAt(Steps(consumer, log), t, calls, i);
             Delivers(consumer, log, e, calls[i], k) && NoneDelivers(consumer, log, e.table, calls[i + 1..], k)
    ensures LeftBy(calls[i].plan, Replay(Steps(consumer, log), t, calls), k,
                   TakenBack(consumer, log, calls[i + 1..], k))
  {
    var step := Steps(consumer, log);
    DeliveryLeaves(consumer, log, Replay(step, t, calls[..i]), calls[i], k);
    UndeliveredStays(consumer, log, EndAt(step, t, calls, i).table, calls[i + 1..], k);
    ReplayAfter(step, t, calls, i);
  }

  /** So it is after a whole poll loop: with nobody else at the row, a record whose last delivery got a final verdict
      ends failed with that verdict's text. */
  lemma LoopVerdict(consumer: string, log: seq<Record>, at: Progress, polls: seq<PollPlan>, calls: seq<Call>, i: nat,
                    k: Key)
    requires at.offset <= |log| && calls == LoopCalls(Handle(consumer), Steps(consumer, log), log, at, polls)
    requires CallsAway(log, calls, k) && i < |calls| && !calls[i].plan.mark.ErrLost?
    requires var e := EndAt(Steps(consumer, log), at.table, calls, i);
             Delivers(consumer, log, e, calls[i], k) && NoneDelivers(consumer, log, e.table, calls[i + 1..], k)
    ensures LeftBy(calls[i].plan, PollsEnd(Handle(consumer), log, at, polls).table, k,
                   TakenBack(consumer, log, calls[i + 1..], k))
  {
    RecordsAreCalls(consumer, log);
    LoopIsReplay(Handle(consumer), Steps(consumer, log), log, at, polls);
    LastDeliveryDecides(consumer, log, at.table, calls, i, k);
  }
}
