/** Every reachable state can recover: without any new request and without any further fault, everything that was
    answered 204 can still be settled. */
module Recovery {
  import opened Engine
  import opened Completions
  import opened Pipeline
  import opened Invariants
  import opened Ownership
  import opened Runs
  import opened Episodes
  import opened Theorems
  import WorkerRefinement
  import Sessions
  import Publisher
  import Ledger
  import Worker
  import H = Handler
  import Downstream

  /** An action of a publisher or a worker with which nothing goes wrong. */
  predicate FaultFree(a: Action) {
    match a
    case SelectPending(_) => true
    case Produce(_, appended, acked) => appended && acked
    case MarkPublished(_, fault) => fault.NoFault?
    case Poll(_, _, _, _, _) => true
    case Handle(_, Db(fault)) => fault.NoFault?
    case Handle(_, Call) => true
    case Handle(_, Answer(transport)) => Downstream.Verdict(transport).None?
    case CommitOffset(_, fault) => fault.NoFault?
    case _ => false
  }

  predicate AllFaultFree(acts: seq<Action>) {
    forall i :: 0 <= i < |acts| ==> FaultFree(acts[i])
  }

  /** The pipeline gets from one state to the other without a fault or a new request. */
  ghost predicate Recovers(r: Rules, s: State, s': State) {
    && (exists acts :: Leads(r, s, acts, s') && AllFaultFree(acts))
    && s'.part == s.part && s'.db.ledger == s.db.ledger && s'.hist.answered == s.hist.answered
  }

  lemma RecoversNowhere(r: Rules, s: State)
    ensures Recovers(r, s, s)
  {
    LeadsNowhere(r, s);
    assert AllFaultFree([]);
  }

  lemma RecoversBy(r: Rules, s: State, acts: seq<Action>, s': State)
    requires Leads(r, s, acts, s') && AllFaultFree(acts)
    requires s'.part == s.part && s'.db.ledger == s.db.ledger && s'.hist.answered == s.hist.answered
    ensures Recovers(r, s, s')
  {
  }

  lemma RecoversStep(r: Rules, s: State, a: Action)
    requires Allowed(r, s, a) && FaultFree(a)
    ensures Recovers(r, s, Do(s, a))
  {
    LeadsOne(r, s, a);
    RecoversBy(r, s, [a], Do(s, a));
  }

  lemma FaultFreeConcat(a: seq<Action>, b: seq<Action>)
    requires AllFaultFree(a) && AllFaultFree(b)
    ensures AllFaultFree(a + b)
  {
  }

  lemma RecoversOn(r: Rules, s: State, mid: State, s': State)
    requires Recovers(r, s, mid) && Recovers(r, mid, s')
    ensures Recovers(r, s, s')
  {
    var a :| Leads(r, s, a, mid) && AllFaultFree(a);
    var b :| Leads(r, mid, b, s') && AllFaultFree(b);
    LeadsConcat(r, s, a, mid, b, s');
    FaultFreeConcat(a, b);
    RecoversBy(r, s, a + b, s');
  }

  lemma RecoversKeepsInv(r: Rules, s: State, s': State)
    requires Inv(r, s) && Recovers(r, s, s')
    ensures Inv(r, s') && AcksGrow(AcksOf(s), AcksOf(s'))
  {
    var acts :| Leads(r, s, acts, s') && AllFaultFree(acts);
    LeadsIsRun(r, s, acts, s');
    RunKeepsInv(r, s, acts);
    Sessions.StillAcked(r, s, acts);
  }

  // ---------------------------------------------------------------- what is under way comes to its end

  /** The worker's next step, when nothing goes wrong. */
  function NextStep(w: nat, pc: H.Pc): Action {
    match pc
    case Done(_) => CommitOffset(w, NoFault)
    case Granted(_) => Handle(w, H.Call)
    case Calling(_) => Handle(w, H.Answer(Downstream.Response(200)))
    case _ => Handle(w, H.Db(NoFault))
  }

  lemma WorkerCommits(r: Rules, s: State, w: nat)
    requires w in s.workers && s.workers[w].pc.Done?
    ensures var a := CommitOffset(w, NoFault);
            && Allowed(r, s, a)
            && Do(s, a).workers == s.workers - {w} && Do(s, a).publishers == s.publishers
  {
  }

  ghost predicate Onward(wk: Pipeline.Worker, wk': Pipeline.Worker) {
    && |wk'.batch| == |wk.batch|
    && (wk'.pos > wk.pos || (wk'.pos == wk.pos && H.Rank(wk'.pc) < H.Rank(wk.pc)))
  }

  lemma StepOnward(s: State, w: nat, c: H.Choice)
    requires w in s.workers && s.workers[w].pos < |s.workers[w].batch| && H.Enabled(s.workers[w].pc, c)
    ensures Onward(s.workers[w], Advance(s.workers[w], NextPc(s.table, s.workers[w], c)))
  {
  }

  /** The handler's step brings the batch on, or the call. */
  lemma WorkerHandles(r: Rules, s: State, w: nat)
    requires BatchesOk(s.log, s.workers) && w in s.workers && !s.workers[w].pc.Done?
    ensures var a := NextStep(w, s.workers[w].pc);
            && Allowed(r, s, a) && FaultFree(a)
            && var s' := Do(s, a);
               && w in s'.workers && s'.workers == s.workers[w := s'.workers[w]] && s'.publishers == s.publishers
               && Onward(s.workers[w], s'.workers[w])
  {
    assert BatchOk(s.log, s.workers[w]);
    StepOnward(s, w, NextStep(w, s.workers[w].pc).choice);
  }

  /** Worker `w` has come to its end, and no other process has moved. */
  ghost predicate Ended(r: Rules, s: State, w: nat, s': State) {
    Recovers(r, s, s') && s'.workers == s.workers - {w} && s'.publishers == s.publishers
  }

  lemma EndedOn(r: Rules, s: State, w: nat, s1: State, s': State)
    requires Recovers(r, s, s1) && w in s.workers && w in s1.workers
    requires s1.workers == s.workers[w := s1.workers[w]] && s1.publishers == s.publishers && Ended(r, s1, w, s')
    ensures Ended(r, s, w, s')
  {
    RecoversOn(r, s, s1, s');
    assert s1.workers - {w} == s.workers - {w};
  }

  lemma CommitEnds(r: Rules, s: State, w: nat)
    requires w in s.workers && s.workers[w].pc.Done?
    ensures exists s' :: Ended(r, s, w, s')
  {
    WorkerCommits(r, s, w);
    RecoversStep(r, s, CommitOffset(w, NoFault));
    assert Ended(r, s, w, Do(s, CommitOffset(w, NoFault)));
  }

  lemma {:induction false} WorkerFinishes(r: Rules, s: State, w: nat)
    requires Inv(r, s) && w in s.workers
    ensures exists s' :: Ended(r, s, w, s')
    decreases |s.workers[w].batch| - s.workers[w].pos, H.Rank(s.workers[w].pc)
  {
    if s.workers[w].pc.Done? {
      CommitEnds(r, s, w);
    } else {
      var a := NextStep(w, s.workers[w].pc);
      WorkerHandles(r, s, w);
      var s1 := Do(s, a);
      RecoversStep(r, s, a);
      RecoversKeepsInv(r, s, s1);
      assert BatchOk(s1.log, s1.workers[w]);
      WorkerFinishes(r, s1, w);
      var s' :| Ended(r, s1, w, s');
      EndedOn(r, s, w, s1, s');
    }
  }

  lemma MapShrinks<K, V>(m: map<K, V>, k: K)
    requires k in m
    ensures |m - {k}| < |m|
  {
    assert (m - {k}).Keys == m.Keys - {k};
    assert |m - {k}| == |(m - {k}).Keys| && |m| == |m.Keys|;
  }

  lemma {:induction false} WorkersFinish(r: Rules, s: State)
    requires Inv(r, s)
    ensures exists s' :: Recovers(r, s, s') && s'.workers == map[] && s'.publishers == s.publishers
    decreases |s.workers|
  {
    if s.workers == map[] {
      RecoversNowhere(r, s);
    } else {
      var w :| w in s.workers;
      WorkerFinishes(r, s, w);
      var s1 :| Ended(r, s, w, s1);
      RecoversKeepsInv(r, s, s1);
      MapShrinks(s.workers, w);
      WorkersFinish(r, s1);
      var s' :| Recovers(r, s1, s') && s'.workers == map[] && s'.publishers == s1.publishers;
      RecoversOn(r, s, s1, s');
    }
  }

  lemma PublisherFinishes(r: Rules, s: State, q: nat)
    requires q in s.publishers
    ensures exists s' :: Recovers(r, s, s') && s'.publishers == s.publishers - {q} && s'.workers == s.workers
  {
    var s1 := s;
    RecoversNowhere(r, s);
    if s.publishers[q].Selected? {
      s1 := Do(s, Produce(q, true, true));
      RecoversStep(r, s, Produce(q, true, true));
    }
    RecoversStep(r, s1, MarkPublished(q, NoFault));
    var s' := Do(s1, MarkPublished(q, NoFault));
    RecoversOn(r, s, s1, s');
    assert s'.publishers == s.publishers - {q};
  }

  lemma {:induction false} PublishersFinish(r: Rules, s: State)
    ensures exists s' :: Recovers(r, s, s') && s'.publishers == map[] && s'.workers == s.workers
    decreases |s.publishers|
  {
    if s.publishers == map[] {
      RecoversNowhere(r, s);
    } else {
      var q :| q in s.publishers;
      PublisherFinishes(r, s, q);
      var s1 :| Recovers(r, s, s1) && s1.publishers == s.publishers - {q} && s1.workers == s.workers;
      MapShrinks(s.publishers, q);
      PublishersFinish(r, s1);
      var s' :| Recovers(r, s1, s') && s'.publishers == map[] && s'.workers == s1.workers;
      RecoversOn(r, s, s1, s');
    }
  }

  // ---------------------------------------------------------------- the outbox is emptied

  /** No process is under way. */
  ghost predicate Idle(s: State) {
    s.workers == map[] && s.publishers == map[]
  }

  ghost predicate NothingPending(s: State) {
    Publisher.PendingCount(s.db.outbox) == 0
  }

  lemma HeadSettles(outbox: seq<Ledger.OutboxRow>)
    requires Ledger.EventsDistinct(outbox) && Publisher.PendingCount(outbox) > 0
    ensures var i := Ledger.NextPending(outbox);
            i.Some? &&
            Publisher.PendingCount(Ledger.MarkPublished(outbox, outbox[i.value].event)) < Publisher.PendingCount(outbox)
  {
    Publisher.NonePending(outbox);
    var i := Ledger.NextPending(outbox).value;
    Publisher.MarkSettlesOne(outbox, outbox[i].event);
  }

  lemma PublishingIsFaultFree(q: nat)
    ensures AllFaultFree(PublishActs(q))
  {
  }

  lemma HeadIsPublished(r: Rules, s: State)
    requires Idle(s) && Ledger.EventsDistinct(s.db.outbox) && !NothingPending(s)
    ensures exists s' ::
              && Recovers(r, s, s') && Idle(s')
              && Publisher.PendingCount(s'.db.outbox) < Publisher.PendingCount(s.db.outbox)
  {
    HeadSettles(s.db.outbox);
    var i := Ledger.NextPending(s.db.outbox).value;
    PublishLeads(r, s, 0, i);
    PublishingIsFaultFree(0);
    RecoversBy(r, s, PublishActs(0), Published(s, i));
  }

  lemma {:induction false} OutboxEmpties(r: Rules, s: State)
    requires Inv(r, s) && Idle(s)
    ensures exists s' :: Recovers(r, s, s') && Idle(s') && NothingPending(s')
    decreases Publisher.PendingCount(s.db.outbox)
  {
    if NothingPending(s) {
      RecoversNowhere(r, s);
    } else {
      HeadIsPublished(r, s);
      var s1 :| && Recovers(r, s, s1) && Idle(s1)
                && Publisher.PendingCount(s1.db.outbox) < Publisher.PendingCount(s.db.outbox);
      RecoversKeepsInv(r, s, s1);
      OutboxEmpties(r, s1);
      var s' :| Recovers(r, s1, s') && Idle(s') && NothingPending(s');
      RecoversOn(r, s, s1, s');
    }
  }

  // ---------------------------------------------------------------- a slot is drained

  /** No event with an empty id is on its way to the partition. */
  ghost predicate NoneComing(s: State, p: nat) {
    s.part("") == p ==>
      !Ledger.IsPending(s.db.outbox, "") &&
      forall q :: q in s.publishers && s.publishers[q].Selected? ==> s.publishers[q].event != ""
  }

  /** Every record of the partition can be read, and the outbox brings it no other. */
  ghost predicate Readable(s: State, p: nat) {
    && (forall o :: 0 <= o < |Log(s.log, p)| ==> Handleable(Log(s.log, p)[o].value))
    && NoneComing(s, p)
  }

  /** What the slot has not committed yet can be read, and so can what is on its way to it. */
  ghost predicate Clear(s: State, slot: Slot) {
    && (forall o :: Committed(s.committed, slot) <= o < |Log(s.log, slot.part)| ==>
          Handleable(Log(s.log, slot.part)[o].value))
    && NoneComing(s, slot.part)
  }

  lemma ClearIsReadable(s: State, slot: Slot)
    requires OffsetInv(s, slot) && Clear(s, slot)
    ensures Readable(s, slot.part)
  {
    forall o | 0 <= o < |Log(s.log, slot.part)|
      ensures Handleable(Log(s.log, slot.part)[o].value)
    {
      if o < Committed(s.committed, slot) {
        assert Acked(AcksOf(s), slot.consumer, Log(s.log, slot.part)[o]);
      }
    }
  }

  lemma NoneComingStep(s: State, a: Action, p: nat)
    requires StoreInv(s) && Enabled(s, a) && FaultFree(a) && NoneComing(s, p)
    ensures NoneComing(Do(s, a), p)
  {
    if a.MarkPublished? {
      Publisher.OnlyOneSettled(s.db.outbox, s.publishers[a.q].event);
    }
  }

  /** What a publisher appends to the partition can be read. */
  lemma ProducedReadable(s: State, a: Action, p: nat)
    requires StoreInv(s) && Enabled(s, a) && NoneComing(s, p) && a.Produce? && s.part(s.publishers[a.q].event) == p
    ensures Handleable(s.publishers[a.q].payload)
  {
    SelectedIsItsEvent(s, a.q);
  }

  lemma ReadableStep(s: State, a: Action, p: nat)
    requires StoreInv(s) && Enabled(s, a) && FaultFree(a) && Readable(s, p)
    ensures forall o :: 0 <= o < |Log(NextLog(s, a), p)| ==> Handleable(Log(NextLog(s, a), p)[o].value)
  {
    if a.Produce? && s.part(s.publishers[a.q].event) == p {
      ProducedReadable(s, a, p);
      assert Log(NextLog(s, a), p) == Log(s.log, p) + [Record(s.publishers[a.q].event, s.publishers[a.q].payload)];
    } else {
      assert Log(NextLog(s, a), p) == Log(s.log, p);
    }
  }

  lemma ReadableOn(r: Rules, s: State, a: Action, p: nat)
    requires StoreInv(s) && Readable(s, p) && Allowed(r, s, a) && FaultFree(a)
    ensures StoreInv(Do(s, a)) && Readable(Do(s, a), p)
  {
    StoreInvStep(s, a);
    NoneComingStep(s, a, p);
    ReadableStep(s, a, p);
  }

  lemma {:induction false} RunStaysReadable(r: Rules, s: State, acts: seq<Action>, p: nat)
    requires StoreInv(s) && Readable(s, p) && Run(r, s, acts) && AllFaultFree(acts)
    ensures Readable(After(r, s, acts), p)
    decreases |acts|
  {
    if acts != [] {
      ReadableOn(r, s, acts[0], p);
      RunStaysReadable(r, Do(s, acts[0]), acts[1..], p);
    }
  }

  lemma StaysReadable(r: Rules, s: State, s': State, p: nat)
    requires Inv(r, s) && Recovers(r, s, s') && Readable(s, p)
    ensures Readable(s', p)
  {
    var acts :| Leads(r, s, acts, s') && AllFaultFree(acts);
    LeadsIsRun(r, s, acts, s');
    RunStaysReadable(r, s, acts, p);
  }

  /** Nothing but this slot's offset and its completions has changed. */
  ghost predicate Drains(r: Rules, s: State, s': State) {
    Recovers(r, s, s') && Idle(s') && s'.log == s.log && s'.db == s.db
  }

  lemma CleanPollIsFaultFree(w: nat, slot: Slot, o: nat, body: seq<Action>)
    requires WorkerRefinement.AsPlanned(w, Worker.CLEAN_PLAN, body)
    ensures var poll := Worker.PollPlan(1, [Worker.CLEAN_PLAN], NoFault);
            AllFaultFree(WorkerRefinement.PollActs(w, slot.consumer, slot.part, o, poll, body))
  {
    assert AllFaultFree(body);
    FaultFreeConcat(body, [CommitOffset(w, NoFault)]);
    FaultFreeConcat([Poll(w, slot.consumer, slot.part, o, 1)], body + [CommitOffset(w, NoFault)]);
  }

  /** One clean poll of one readable record at the committed offset moves the offset past it. */
  lemma OffsetMoves(r: Rules, s: State, slot: Slot)
    requires var o := Committed(s.committed, slot);
             && o < |Log(s.log, slot.part)| && Handleable(Log(s.log, slot.part)[o].value)
             && Allowed(r, s, Poll(0, slot.consumer, slot.part, o, 1)) && Idle(s)
    ensures exists s' :: Drains(r, s, s') && Committed(s'.committed, slot) == Committed(s.committed, slot) + 1
  {
    var o := Committed(s.committed, slot);
    var rec := Log(s.log, slot.part)[o];
    OnePollRuns(r, s, 0, slot, o, Worker.CLEAN_PLAN);
    var acts, s' :| OnePoll(r, s, 0, slot, o, Worker.CLEAN_PLAN, acts, s');
    CleanCallSucceeds(s.table, KeyFor(rec, slot.consumer), rec.value.job.eventType);
    var body :| WorkerRefinement.AsPlanned(0, Worker.CLEAN_PLAN, body) &&
                acts == WorkerRefinement.PollActs(0, slot.consumer, slot.part, o,
                                                  Worker.PollPlan(1, [Worker.CLEAN_PLAN], NoFault), body);
    CleanPollIsFaultFree(0, slot, o, body);
    RecoversBy(r, s, acts, s');
  }

  lemma PollAtOffsetAllowed(r: Rules, s: State, slot: Slot)
    requires Inv(r, s) && Idle(s) && r.ackedStarts(slot) && Readable(s, slot.part)
    ensures var o := Committed(s.committed, slot);
            && o <= |Log(s.log, slot.part)|
            && (o < |Log(s.log, slot.part)| ==> Allowed(r, s, Poll(0, slot.consumer, slot.part, o, 1)))
  {
    KeepsOffsets(r, s, slot);
    CommittedIsFrontier(s, slot);
  }

  lemma {:induction false} SlotDrains(r: Rules, s: State, slot: Slot)
    requires Inv(r, s) && Idle(s) && r.ackedStarts(slot) && Readable(s, slot.part)
    ensures exists s' :: Drains(r, s, s') && Committed(s'.committed, slot) == |Log(s'.log, slot.part)|
    decreases |Log(s.log, slot.part)| - Committed(s.committed, slot)
  {
    PollAtOffsetAllowed(r, s, slot);
    if Committed(s.committed, slot) == |Log(s.log, slot.part)| {
      RecoversNowhere(r, s);
    } else {
      OffsetMoves(r, s, slot);
      var s1 :| Drains(r, s, s1) && Committed(s1.committed, slot) == Committed(s.committed, slot) + 1;
      RecoversKeepsInv(r, s, s1);
      StaysReadable(r, s, s1, slot.part);
      SlotDrains(r, s1, slot);
      var s' :| Drains(r, s1, s') && Committed(s'.committed, slot) == |Log(s'.log, slot.part)|;
      RecoversOn(r, s, s1, s');
    }
  }

  // ---------------------------------------------------------------- every answered event is settled

  ghost predicate Settled(s: State, event: string, consumer: string) {
    IsProcessed(s.table, Key(event, consumer)) || Key(event, consumer) in s.hist.rejected
  }

  lemma StaysSettled(r: Rules, s: State, s': State, event: string, consumer: string)
    requires Inv(r, s) && Recovers(r, s, s') && Settled(s, event, consumer)
    ensures Settled(s', event, consumer)
  {
    RecoversKeepsInv(r, s, s');
  }

  /** The event was answered 204, its own slot fetches by the rule, and all its partition has can be read. */
  ghost predicate CanBeSettled(r: Rules, s: State, event: string, consumer: string) {
    event in s.hist.answered && r.ackedStarts(Slot(consumer, s.part(event))) && Readable(s, s.part(event))
  }

  lemma StillCanBeSettled(r: Rules, s: State, s': State, event: string, consumer: string)
    requires Inv(r, s) && Recovers(r, s, s') && CanBeSettled(r, s, event, consumer)
    ensures CanBeSettled(r, s', event, consumer)
  {
    StaysReadable(r, s, s', s.part(event));
  }

  ghost predicate AllCanBeSettled(r: Rules, s: State, events: set<string>, consumer: string) {
    forall e :: e in events ==> CanBeSettled(r, s, e, consumer)
  }

  lemma AllStillCanBeSettled(r: Rules, s: State, s': State, events: set<string>, consumer: string)
    requires Inv(r, s) && Recovers(r, s, s') && AllCanBeSettled(r, s, events, consumer)
    ensures AllCanBeSettled(r, s', events, consumer)
  {
    forall e | e in events
      ensures CanBeSettled(r, s', e, consumer)
    {
      StillCanBeSettled(r, s, s', e, consumer);
    }
  }

  /** An event that is neither pending nor waiting in the topic is settled. */
  lemma NothingLeft(s: State, event: string, consumer: string)
    requires StoreInv(s) && NothingPending(s) && event in s.hist.answered
    requires var slot := Slot(consumer, s.part(event));
             OffsetInv(s, slot) && Committed(s.committed, slot) == |Log(s.log, slot.part)|
    ensures Settled(s, event, consumer)
  {
    AnsweredIsAccounted(s, event, consumer);
    Publisher.NonePending(s.db.outbox);
  }

  /** Draining the event's home slot settles it. */
  lemma EventSettles(r: Rules, s: State, event: string, consumer: string)
    requires Inv(r, s) && Idle(s) && NothingPending(s) && CanBeSettled(r, s, event, consumer)
    ensures exists s' :: Drains(r, s, s') && Settled(s', event, consumer)
  {
    var slot := Slot(consumer, s.part(event));
    SlotDrains(r, s, slot);
    var s' :| Drains(r, s, s') && Committed(s'.committed, slot) == |Log(s'.log, slot.part)|;
    RecoversKeepsInv(r, s, s');
    KeepsOffsets(r, s', slot);
    NothingLeft(s', event, consumer);
  }

  ghost predicate AllSettled(s: State, events: set<string>, consumer: string) {
    forall e :: e in events ==> Settled(s, e, consumer)
  }

  /** One event has been settled, and the rest can still be. */
  ghost predicate OneMore(r: Rules, s: State, event: string, rest: set<string>, consumer: string, s': State) {
    Drains(r, s, s') && Inv(r, s') && Settled(s', event, consumer) && AllCanBeSettled(r, s', rest, consumer)
  }

  lemma OneMoreSettles(r: Rules, s: State, event: string, rest: set<string>, consumer: string)
    requires Inv(r, s) && Idle(s) && NothingPending(s) && CanBeSettled(r, s, event, consumer)
    requires AllCanBeSettled(r, s, rest, consumer)
    ensures exists s' :: OneMore(r, s, event, rest, consumer, s')
  {
    EventSettles(r, s, event, consumer);
    var s' :| Drains(r, s, s') && Settled(s', event, consumer);
    RecoversKeepsInv(r, s, s');
    AllStillCanBeSettled(r, s, s', rest, consumer);
    assert OneMore(r, s, event, rest, consumer, s');
  }

  lemma SettledOn(r: Rules, s: State, mid: State, s': State, event: string, events: set<string>,
                  consumer: string)
    requires OneMore(r, s, event, events - {event}, consumer, mid)
    requires Drains(r, mid, s') && AllSettled(s', events - {event}, consumer)
    ensures Drains(r, s, s') && AllSettled(s', events, consumer)
  {
    RecoversOn(r, s, mid, s');
    StaysSettled(r, mid, s', event, consumer);
  }

  lemma SetShrinks<T>(s: set<T>, x: T)
    requires x in s
    ensures |s - {x}| < |s|
  {
  }

  lemma {:induction false} EventsSettle(r: Rules, s: State, events: set<string>, consumer: string)
    requires Inv(r, s) && Idle(s) && NothingPending(s) && AllCanBeSettled(r, s, events, consumer)
    ensures exists s' :: Drains(r, s, s') && AllSettled(s', events, consumer)
    decreases |events|
  {
    if events == {} {
      RecoversNowhere(r, s);
      assert Drains(r, s, s) && AllSettled(s, events, consumer);
    } else {
      var event :| event in events;
      var rest := events - {event};
      OneMoreSettles(r, s, event, rest, consumer);
      var s1 :| OneMore(r, s, event, rest, consumer, s1);
      SetShrinks(events, event);
      EventsSettle(r, s1, rest, consumer);
      var s' :| Drains(r, s1, s') && AllSettled(s', rest, consumer);
      SettledOn(r, s, s1, s', event, events, consumer);
    }
  }

  /** What is under way ends, and the outbox is emptied. */
  lemma StateSettlesDown(r: Rules, s: State)
    requires Inv(r, s)
    ensures exists s' :: Recovers(r, s, s') && Inv(r, s') && Idle(s') && NothingPending(s')
  {
    WorkersFinish(r, s);
    var s1 :| Recovers(r, s, s1) && s1.workers == map[] && s1.publishers == s.publishers;
    PublishersFinish(r, s1);
    var s2 :| Recovers(r, s1, s2) && s2.publishers == map[] && s2.workers == s1.workers;
    RecoversOn(r, s, s1, s2);
    RecoversKeepsInv(r, s, s2);
    OutboxEmpties(r, s2);
    var s3 :| Recovers(r, s2, s3) && Idle(s3) && NothingPending(s3);
    RecoversOn(r, s, s2, s3);
    RecoversKeepsInv(r, s, s3);
  }

  /** From any state: after that, the slots of the events that can be settled are drained. */
  lemma StateRecovers(r: Rules, s: State, events: set<string>, consumer: string)
    requires Inv(r, s) && AllCanBeSettled(r, s, events, consumer)
    ensures exists s' :: Recovers(r, s, s') && AllSettled(s', events, consumer)
  {
    StateSettlesDown(r, s);
    var s1 :| Recovers(r, s, s1) && Inv(r, s1) && Idle(s1) && NothingPending(s1);
    AllStillCanBeSettled(r, s, s1, events, consumer);
    EventsSettle(r, s1, events, consumer);
    var s' :| Drains(r, s1, s') && AllSettled(s', events, consumer);
    RecoversOn(r, s, s1, s');
  }

  /** The events that were answered 204 and whose own slot fetches by the rule and is clear of unreadable
      records. */
  ghost function Promised(r: Rules, s: State, consumer: string): set<string> {
    set e | e in s.hist.answered && r.ackedStarts(Slot(consumer, s.part(e))) && Clear(s, Slot(consumer, s.part(e)))
  }

  lemma PromisedCanBeSettled(r: Rules, s: State, e: string, consumer: string)
    requires Inv(r, s) && e in Promised(r, s, consumer)
    ensures CanBeSettled(r, s, e, consumer)
  {
    KeepsOffsets(r, s, Slot(consumer, s.part(e)));
    ClearIsReadable(s, Slot(consumer, s.part(e)));
  }

  /** Whatever has happened, crashes, faults and failed deliveries included: if from now on nothing goes wrong,
      the system can still bring the events it has answered 204 to the consumer. Some continuation without a
      fault or a new request leaves processed, or rejected for good, every one of them whose own slot fetches by
      the rule and has no unreadable record at or above its committed offset or on its way; whatever other
      producers wrote, and whatever lies in other partitions. */
  lemma AnsweredCanBeSettled(r: Rules, part: string -> nat, acts: seq<Action>, consumer: string)
    requires Run(r, Init(part), acts)
    ensures var s := After(r, Init(part), acts);
            exists more ::
              && Run(r, s, more) && AllFaultFree(more)
              && var s' := After(r, s, more);
                 && s'.hist.answered == s.hist.answered
                 && forall e :: e in Promised(r, s, consumer) ==> Settled(s', e, consumer)
  {
    var s := After(r, Init(part), acts);
    Reached(r, part, acts);
    forall e | e in Promised(r, s, consumer)
      ensures CanBeSettled(r, s, e, consumer)
    {
      PromisedCanBeSettled(r, s, e, consumer);
    }
    StateRecovers(r, s, Promised(r, s, consumer), consumer);
    var s' :| Recovers(r, s, s') && AllSettled(s', Promised(r, s, consumer), consumer);
    var more :| Leads(r, s, more, s') && AllFaultFree(more);
    LeadsIsRun(r, s, more, s');
  }
}
