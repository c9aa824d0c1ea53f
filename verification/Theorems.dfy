/** The guarantees of the pipeline, over every run from empty tables. */
module Theorems {
  import opened Engine
  import opened Completions
  import opened Pipeline
  import opened Invariants
  import opened Delivery
  import opened Ownership
  import opened Publishing
  import opened Runs
  import Ledger
  import H = Handler
  import Downstream

  // ---------------------------------------------------------------- nothing accepted is lost

  /** Some record at or above the committed offset still carries the event. */
  ghost predicate AwaitsConsumer(s: State, event: string, consumer: string) {
    var records := Log(s.log, s.part(event));
    exists o :: Committed(s.committed, Slot(consumer, s.part(event))) <= o < |records| &&
                records[o].key == event && records[o].value.Encoded? && records[o].value.job.stripeEventId == event
  }

  /** Where an event is that was answered 204. */
  ghost predicate Accounted(s: State, event: string, consumer: string) {
    || Ledger.IsPending(s.db.outbox, event)
    || AwaitsConsumer(s, event, consumer)
    || IsProcessed(s.table, Key(event, consumer))
    || Key(event, consumer) in s.hist.rejected
  }

  lemma AnsweredIsAccounted(s: State, event: string, consumer: string)
    requires StoreInv(s) && OffsetInv(s, Slot(consumer, s.part(event))) && event in s.hist.answered
    ensures Accounted(s, event, consumer)
  {
    if !Ledger.IsPending(s.db.outbox, event) {
      assert event in s.db.ledger && s.db.ledger[event].status.Accepted?;
      var i :| 0 <= i < |s.db.outbox| && s.db.outbox[i].event == event;
      var row := s.db.outbox[i];
      assert LiveRow(row) && row.status.Published?;
      assert InLog(s.part, s.log, event, row.payload);
      var o :| 0 <= o < |Log(s.log, s.part(event))| && Log(s.log, s.part(event))[o] == Record(event, row.payload);
      if o < Committed(s.committed, Slot(consumer, s.part(event))) {
        assert Acked(AcksOf(s), consumer, Log(s.log, s.part(event))[o]);
      }
    }
  }

  /** Every event answered 204 is pending in the outbox, or in the topic at or above the committed offset,
      or processed, or rejected for good: in any reachable state, with any number of handlers, publishers,
      workers and other producers, whatever crashes, aborts and lost acknowledgements the run has. Only the
      event's own slot needs the rule on batch starts, whatever is fetched from the others. */
  lemma NothingAcceptedIsLost(r: Rules, part: string -> nat, acts: seq<Action>, event: string, consumer: string)
    requires r.ackedStarts(Slot(consumer, part(event))) && Run(r, Init(part), acts)
    ensures var s := After(r, Init(part), acts); event in s.hist.answered ==> Accounted(s, event, consumer)
  {
    var s := After(r, Init(part), acts);
    Reached(r, part, acts);
    KeepsOffsets(r, s, Slot(consumer, part(event)));
    if event in s.hist.answered {
      AnsweredIsAccounted(s, event, consumer);
    }
  }

  // ---------------------------------------------------------------- committed offsets

  lemma CommittedIsFrontier(s: State, slot: Slot)
    requires OffsetInv(s, slot)
    ensures Committed(s.committed, slot) <= Frontier(AcksOf(s), slot.consumer, Log(s.log, slot.part))
  {
    FrontierIsLongest(AcksOf(s), slot.consumer, Log(s.log, slot.part), Committed(s.committed, slot));
  }

  /** Every record below a committed offset is acked, whatever commits fail and batches repeat, and whatever
      is fetched from other slots. */
  lemma CommittedIsAcked(r: Rules, part: string -> nat, acts: seq<Action>, slot: Slot)
    requires r.ackedStarts(slot) && Run(r, Init(part), acts)
    ensures var s := After(r, Init(part), acts);
            Committed(s.committed, slot) <= Frontier(AcksOf(s), slot.consumer, Log(s.log, slot.part))
  {
    var s := After(r, Init(part), acts);
    Reached(r, part, acts);
    KeepsOffsets(r, s, slot);
    CommittedIsFrontier(s, slot);
  }

  /** Every batch that the run fetches from these slots starts at or below the committed offset, which an
      operator can see to: a client that starts from the committed offset, and starts there again after
      every failure. */
  ghost predicate StartsCommitted(slots: Slot -> bool, s: State, acts: seq<Action>)
    decreases |acts|
  {
    acts == [] ||
    var a := acts[0];
    && Enabled(s, a)
    && (a.Poll? && slots(Slot(a.consumer, a.part)) ==> a.start <= Committed(s.committed, Slot(a.consumer, a.part)))
    && StartsCommitted(slots, Do(s, a), acts[1..])
  }

  lemma CommittedStartAllowed(r: Rules, slots: Slot -> bool, s: State, a: Action)
    requires Inv(r.(ackedStarts := slots), s) && Allowed(r, s, a)
    requires a.Poll? && slots(Slot(a.consumer, a.part)) ==> a.start <= Committed(s.committed, Slot(a.consumer, a.part))
    ensures Allowed(r.(ackedStarts := slots), s, a)
  {
    if a.Poll? && slots(Slot(a.consumer, a.part)) {
      KeepsOffsets(r.(ackedStarts := slots), s, Slot(a.consumer, a.part));
      CommittedIsFrontier(s, Slot(a.consumer, a.part));
    }
  }

  /** Such a run keeps the rule on batch starts in these slots. */
  lemma {:induction false} CommittedStartsKeepRule(r: Rules, slots: Slot -> bool, s: State, acts: seq<Action>)
    requires Inv(r.(ackedStarts := slots), s) && Run(r, s, acts) && StartsCommitted(slots, s, acts)
    ensures Run(r.(ackedStarts := slots), s, acts)
    ensures After(r.(ackedStarts := slots), s, acts) == After(r, s, acts)
    decreases |acts|
  {
    if acts != [] {
      var a := acts[0];
      CommittedStartAllowed(r, slots, s, a);
      InvStep(r.(ackedStarts := slots), s, a);
      CommittedStartsKeepRule(r, slots, Do(s, a), acts[1..]);
    }
  }

  /** So a run from empty tables whose every batch from a slot starts at or below the slot's committed offset
      has all the guarantees that ask for acked starts there. */
  lemma CommittedStartsSuffice(r: Rules, slots: Slot -> bool, part: string -> nat, acts: seq<Action>)
    requires Run(r, Init(part), acts) && StartsCommitted(slots, Init(part), acts)
    ensures Run(r.(ackedStarts := slots), Init(part), acts)
    ensures After(r.(ackedStarts := slots), Init(part), acts) == After(r, Init(part), acts)
  {
    InitInv(r.(ackedStarts := slots), part);
    CommittedStartsKeepRule(r, slots, Init(part), acts);
  }

  // ---------------------------------------------------------------- order and poison

  lemma GrantWaits(r: Rules, s: State, w: nat)
    requires Inv(r, s) && w in s.workers && s.workers[w].pc.Granted? && r.ackedStarts(SlotOf(s.workers[w]))
    ensures var wk := s.workers[w]; var records, o := Log(s.log, wk.part), wk.start + wk.pos;
            AckedBelow(AcksOf(s), wk.consumer, records, o) && o < |records| && Handleable(records[o].value)
  {
    KeepsOffsets(r, s, SlotOf(s.workers[w]));
    GrantedWaits(s, w);
  }

  /** No delivery is attempted for a record before every record below it is acked: a failed head record
      holds back all its successors, whatever batches the broker cuts. */
  lemma DeliveryWaitsForPredecessors(r: Rules, part: string -> nat, acts: seq<Action>, w: nat)
    requires Run(r, Init(part), acts)
    requires var s := After(r, Init(part), acts);
             w in s.workers && s.workers[w].pc.Granted? && r.ackedStarts(SlotOf(s.workers[w]))
    ensures var s := After(r, Init(part), acts);
            var wk := s.workers[w]; var records, o := Log(s.log, wk.part), wk.start + wk.pos;
            AckedBelow(AcksOf(s), wk.consumer, records, o) && o < |records| && Handleable(records[o].value)
  {
    var s := After(r, Init(part), acts);
    Reached(r, part, acts);
    GrantWaits(r, s, w);
  }

  /** A record the handler cannot read stalls its partition in every run: no offset past it is ever
      committed, and no record after it, nor itself, is ever delivered, for each group that fetches from the
      partition by the rule. */
  lemma PoisonStalls(r: Rules, part: string -> nat, acts: seq<Action>, slot: Slot, o: nat)
    requires r.ackedStarts(slot) && Run(r, Init(part), acts)
    requires var s := After(r, Init(part), acts);
             o < |Log(s.log, slot.part)| && !Handleable(Log(s.log, slot.part)[o].value)
    ensures var s := After(r, Init(part), acts);
            && Committed(s.committed, slot) <= o
            && (forall i :: 0 <= i < |s.hist.calls| && InSlot(s.hist.calls[i], slot) ==> s.hist.calls[i].offset < o)
  {
    var s := After(r, Init(part), acts);
    Reached(r, part, acts);
    KeepsOffsets(r, s, slot);
    UnreadableBlocks(AcksOf(s), s.log, s.committed, s.hist.calls, slot, o);
  }

  /** With publishers as the only producers, the unreadable records are exactly those of events with an
      empty id, which the webhook handler accepts like any other. */
  lemma PoisonIffEmptyId(r: Rules, part: string -> nat, acts: seq<Action>, p: nat, o: nat)
    requires r.soleProducer && Run(r, Init(part), acts)
    requires o < |Log(After(r, Init(part), acts).log, p)|
    ensures var rec := Log(After(r, Init(part), acts).log, p)[o]; Handleable(rec.value) <==> rec.key != ""
  {
    var s := After(r, Init(part), acts);
    Reached(r, part, acts);
    RecordIsItsEvent(s.part, s.log, s.db, p, o);
  }

  // ---------------------------------------------------------------- what true means

  /** When `handleRecord` returns true its row is processed or failed at that moment, although the result
      of the failed mark is discarded; and the event is processed, or this call recorded a non-retryable
      verdict on it. */
  lemma TrueMeansSettled(r: Rules, part: string -> nat, acts: seq<Action>, w: nat, c: H.Choice)
    requires Run(r, Init(part), acts)
    requires var s := After(r, Init(part), acts);
             Enabled(s, Handle(w, c)) && NextPc(s.table, s.workers[w], c) == H.Done(true)
    ensures var s := After(r, Init(part), acts); var s' := Do(s, Handle(w, c));
            var wk := s.workers[w]; var k := KeyOf(wk);
            && (IsProcessed(s'.table, k) || IsFailed(s'.table, k))
            && (IsProcessed(s'.table, k) ||
                (wk.pc.GotError? && !Downstream.IsRetryable(wk.pc.error) && k in s'.hist.rejected))
            && Acked(AcksOf(s'), wk.consumer, wk.batch[wk.pos])
  {
    var s := After(r, Init(part), acts);
    var wk := s.workers[w];
    Reached(r, part, acts);
    assert ProgressOk(AcksOf(s), wk);
    H.HandledStep(s.table, KeyOf(wk), TypeOf(wk), wk.pc, c);
  }

  // ---------------------------------------------------------------- deliveries and attempts

  /** However many workers handle one event, its deliveries never outnumber its attempts, the attempts are
      exactly the claim writes that took effect, and the marks balance. */
  lemma DeliveriesWithinAttempts(r: Rules, part: string -> nat, acts: seq<Action>, k: Key)
    requires Run(r, Init(part), acts)
    ensures var s := After(r, Init(part), acts);
            var attempts := if k in s.table then s.table[k].attempts else 0;
            && CallsFor(s.hist.calls, k) <= attempts
            && attempts == Hits(s.hist.stmts, k, ClaimWrite)
            && Hits(s.hist.stmts, k, FailedMark) ==
               Hits(s.hist.stmts, k, FailedReclaim) + (if IsFailed(s.table, k) then 1 else 0)
            && Hits(s.hist.stmts, k, ProcessedMark) == (if IsProcessed(s.table, k) then 1 else 0)
            && (k in s.table ==> (s.table[k].error.Some? <==> s.table[k].status.Failed?))
  {
    var s := After(r, Init(part), acts);
    Reached(r, part, acts);
    CallsWithinAttempts(s.table, s.hist.calls, k);
    Conservation(s.hist.stmts, k);
  }

  ghost predicate GrantOut(s: State, k: Key, n: nat) {
    exists w :: w in s.workers && HoldsGrant(s.workers[w], k, n)
  }

  /** Since `s`, no claim was granted on `k`, and every delivery used a grant that was out in `s`. */
  ghost predicate NoGrantSince(s: State, s': State, k: Key) {
    && IsProcessed(s'.table, k) && IsProcessed(s.table, k) && s'.table[k] == s.table[k]
    && (forall n :: GrantOut(s', k, n) ==> GrantOut(s, k, n))
    && s.hist.calls <= s'.hist.calls
    && (forall i :: |s.hist.calls| <= i < |s'.hist.calls| && s'.hist.calls[i].key == k ==>
          GrantOut(s, k, s'.hist.calls[i].attempt))
  }

  lemma ProcessedGrantsNothing(s: State, a: Action, w: nat, k: Key, n: nat)
    requires Enabled(s, a) && IsProcessed(s.table, k) && BatchesOk(s.log, s.workers)
    requires w in NextWorkers(s, a) && HoldsGrant(NextWorkers(s, a)[w], k, n)
    ensures w in s.workers && HoldsGrant(s.workers[w], k, n)
  {
    if a.Handle? && a.w == w && !Unreadable(s.workers[w]) {
      var wk := s.workers[w];
      H.ProcessedGrantsNothing(s.table, k, TypeOf(wk), wk.pc, a.choice);
    }
  }

  lemma GrantsOnlyShrink(s: State, a: Action, k: Key, n: nat)
    requires Enabled(s, a) && IsProcessed(s.table, k) && BatchesOk(s.log, s.workers)
    requires GrantOut(Do(s, a), k, n)
    ensures GrantOut(s, k, n)
  {
    var w :| w in NextWorkers(s, a) && HoldsGrant(NextWorkers(s, a)[w], k, n);
    ProcessedGrantsNothing(s, a, w, k, n);
  }

  lemma NoGrantSinceStep(s0: State, s: State, a: Action, k: Key)
    requires NoGrantSince(s0, s, k) && Enabled(s, a) && BatchesOk(s.log, s.workers)
    ensures NoGrantSince(s0, Do(s, a), k)
  {
    var s' := Do(s, a);
    AcksStep(s, a);
    forall n | GrantOut(s', k, n)
      ensures GrantOut(s0, k, n)
    {
      GrantsOnlyShrink(s, a, k, n);
    }
    if a.Handle? && s.workers[a.w].pc.Granted? && KeyOf(s.workers[a.w]) == k {
      assert HoldsGrant(s.workers[a.w], k, s.workers[a.w].pc.claim.attempts);
      assert GrantOut(s, k, s.workers[a.w].pc.claim.attempts);
    }
  }

  lemma {:induction false} NoGrantSinceRun(r: Rules, s0: State, s: State, acts: seq<Action>, k: Key)
    requires NoGrantSince(s0, s, k) && Inv(r, s) && Run(r, s, acts)
    ensures NoGrantSince(s0, After(r, s, acts), k)
    decreases |acts|
  {
    if acts != [] {
      NoGrantSinceStep(s0, s, acts[0], k);
      InvStep(r, s, acts[0]);
      NoGrantSinceRun(r, s0, Do(s, acts[0]), acts[1..], k);
    }
  }

  /** From its grant to its mark a worker finds the row processing. */
  lemma HandlerHoldsRow(s: State, k: Key, w: nat)
    requires RowInv(s, k) && WorkerInv(s) && w in s.workers && InDelivery(s.workers[w].pc)
    requires s.workers[w].pos < |s.workers[w].batch| && KeyOf(s.workers[w]) == k
    ensures !IsProcessed(s.table, k)
  {
    assert ProgressOk(AcksOf(s), s.workers[w]);
    assert AtRow(s.workers[w], k);
    assert RowHeld(s.table, s.workers[w]);
  }

  lemma ProcessedHasNoGrant(s: State, k: Key)
    requires RowInv(s, k) && WorkerInv(s) && IsProcessed(s.table, k)
    ensures forall n :: !GrantOut(s, k, n)
  {
    forall w, n | w in s.workers
      ensures !HoldsGrant(s.workers[w], k, n)
    {
      if HoldsGrant(s.workers[w], k, n) {
        HandlerHoldsRow(s, k, w);
      }
    }
  }

  lemma LaterClaimsDeliverNothing(r: Rules, s: State, more: seq<Action>, k: Key)
    requires Inv(r, s) && IsProcessed(s.table, k) && Run(r, s, more)
    ensures var s' := After(r, s, more);
            && NoGrantSince(s, s', k)
            && CallsDistinct(s'.hist.calls)
            && (OwnRules(r, s.part, k) ==>
                  forall i :: |s.hist.calls| <= i < |s'.hist.calls| ==> s'.hist.calls[i].key != k)
  {
    NoGrantSinceRun(r, s, s, more, k);
    RunKeepsInv(r, s, more);
    if OwnRules(r, s.part, k) {
      KeepsRow(r, s, k);
      ProcessedHasNoGrant(s, k);
    }
  }

  /** Once an event is processed its row never changes, and every later delivery stems from a claim that
      was already granted. With one owner of the event's own slot there is no later delivery at all, whatever
      other slots fetch and other producers write, so long as they do not write this event to another partition. */
  lemma NoDeliveryFromLaterClaims(r: Rules, part: string -> nat, acts: seq<Action>, more: seq<Action>, k: Key)
    requires Run(r, Init(part), acts)
    requires var s := After(r, Init(part), acts); IsProcessed(s.table, k) && Run(r, s, more)
    ensures var s := After(r, Init(part), acts); var s' := After(r, s, more);
            && NoGrantSince(s, s', k)
            && CallsDistinct(s'.hist.calls)
            && (r.oneOwner(HomeOf(part, k)) && r.homeOnly(k.event) ==>
                  forall i :: |s.hist.calls| <= i < |s'.hist.calls| ==> s'.hist.calls[i].key != k)
  {
    Reached(r, part, acts);
    LaterClaimsDeliverNothing(r, After(r, Init(part), acts), more, k);
  }

  lemma AnsweredAtMost(s: State, k: Key)
    requires RowInv(s, k) && WorkerInv(s)
    ensures s.hist.oks[k] <= 1 + s.hist.windowFaults[k]
    ensures s.hist.oks[k] == 1 + s.hist.windowFaults[k] ==> IsProcessed(s.table, k) || InWindow(s.workers, k)
  {
    if InWindow(s.workers, k) {
      var w :| w in s.workers && HasAnswer(s.workers[w], k);
      HandlerHoldsRow(s, k, w);
    }
  }

  /** With one owner of the event's own slot at a time, an event is answered 2xx at most once, plus once for
      each crash or store error that hit between a 2xx and its processed mark: however many copies its partition
      has and however often they are fetched, whatever happens in other slots, and whatever other producers
      write, so long as they do not write this event to another partition. */
  lemma AnsweredOnceUpToWindowFaults(r: Rules, part: string -> nat, acts: seq<Action>, k: Key)
    requires r.oneOwner(HomeOf(part, k)) && r.homeOnly(k.event) && Run(r, Init(part), acts)
    ensures var s := After(r, Init(part), acts);
            && s.hist.oks[k] <= 1 + s.hist.windowFaults[k]
            && (s.hist.oks[k] == 1 + s.hist.windowFaults[k] ==> IsProcessed(s.table, k) || InWindow(s.workers, k))
  {
    var s := After(r, Init(part), acts);
    Reached(r, part, acts);
    KeepsRow(r, s, k);
    AnsweredAtMost(s, k);
  }

  /** In this step a call that had a 2xx for the row returns true. */
  predicate TrueAfterOk(s: State, a: Action, k: Key) {
    && Enabled(s, a) && a.Handle? && s.workers[a.w].pc.GotOk? && KeyOf(s.workers[a.w]) == k
    && NextPc(s.table, s.workers[a.w], a.choice) == H.Done(true)
  }

  /** How many calls on the row return true after a 2xx in the run. */
  function TruesAfterOk(r: Rules, s: State, acts: seq<Action>, k: Key): nat
    requires Run(r, s, acts)
    decreases |acts|
  {
    if acts == [] then 0 else
    (if TrueAfterOk(s, acts[0], k) then 1 else 0) + TruesAfterOk(r, Do(s, acts[0]), acts[1..], k)
  }

  lemma HitsSnoc(qs: seq<Statement>, q: Statement, k: Key, kind: Kind)
    ensures Hits(qs + [q], k, kind) ==
            Hits(qs, k, kind) + (if q.key == k && OfKind(q, kind) && Matches(ExecAll(map[], qs), q) then 1 else 0)
  {
    assert (qs + [q])[..|qs|] == qs;
  }

  /** A true after a 2xx is a processed mark of this very call that took effect. */
  lemma TrueIsOwnMark(s: State, a: Action, k: Key)
    requires WorkerInv(s) && Enabled(s, a)
    ensures Hits(NextStmts(s, a), k, ProcessedMark) >=
            Hits(s.hist.stmts, k, ProcessedMark) + (if TrueAfterOk(s, a, k) then 1 else 0)
  {
    if a.Handle? && !Unreadable(s.workers[a.w]) {
      var wk := s.workers[a.w];
      var q := H.Applied(KeyOf(wk), TypeOf(wk), wk.pc, a.choice);
      if q.Some? { HitsSnoc(s.hist.stmts, q.value, k, ProcessedMark); }
      H.ReturnsTrueIff(s.table, KeyOf(wk), TypeOf(wk), wk.pc, a.choice);
    }
  }

  lemma {:induction false} TruesAreMarks(r: Rules, s: State, acts: seq<Action>, k: Key)
    requires Inv(r, s) && Run(r, s, acts)
    ensures TruesAfterOk(r, s, acts, k) + Hits(s.hist.stmts, k, ProcessedMark) <=
            Hits(After(r, s, acts).hist.stmts, k, ProcessedMark)
    decreases |acts|
  {
    if acts != [] {
      TrueIsOwnMark(s, acts[0], k);
      InvStep(r, s, acts[0]);
      TruesAreMarks(r, Do(s, acts[0]), acts[1..], k);
    }
  }

  /** With any number of workers on one event, whatever marks they race for: at most one call ever returns true
      after a 2xx, and only if its own processed mark took effect. A call that lost that race returns false. */
  lemma OneTrueAfterOk(r: Rules, part: string -> nat, acts: seq<Action>, k: Key)
    requires Run(r, Init(part), acts)
    ensures TruesAfterOk(r, Init(part), acts, k) <= Hits(After(r, Init(part), acts).hist.stmts, k, ProcessedMark) <= 1
  {
    InitInv(r, part);
    TruesAreMarks(r, Init(part), acts, k);
    Conservation(After(r, Init(part), acts).hist.stmts, k);
  }

  lemma {:induction false} SoleProducersSendHome(r: Rules, events: string -> bool, s: State, acts: seq<Action>)
    requires r.soleProducer && Inv(r, s) && Run(r, s, acts)
    ensures Run(r.(homeOnly := events), s, acts) && After(r.(homeOnly := events), s, acts) == After(r, s, acts)
    decreases |acts|
  {
    if acts != [] {
      var a := acts[0];
      if a.ForeignAppend? { LateAppendIsHome(s, a, events); }
      InvStep(r, s, a);
      SoleProducersSendHome(r, events, Do(s, a), acts[1..]);
    }
  }

  /** Publishers send every event to its own partition, so where they are the only producers the last two
      guarantees hold for all events. */
  lemma SoleProducersSuffice(r: Rules, part: string -> nat, acts: seq<Action>)
    requires r.soleProducer && Run(r, Init(part), acts)
    ensures Run(r.(homeOnly := EVERY_EVENT), Init(part), acts)
    ensures After(r.(homeOnly := EVERY_EVENT), Init(part), acts) == After(r, Init(part), acts)
  {
    InitInv(r, part);
    SoleProducersSendHome(r, EVERY_EVENT, Init(part), acts);
  }

  // ---------------------------------------------------------------- cause and effect

  /** Every delivery and completion row has a topic record, every record is an outbox row of the same event
      with that event's job, and outbox rows are exactly the accepted ledger rows, once each. */
  lemma EffectHasCause(r: Rules, part: string -> nat, acts: seq<Action>)
    requires r.soleProducer && Run(r, Init(part), acts)
    ensures var s := After(r, Init(part), acts);
            && (forall i :: 0 <= i < |s.hist.calls| ==> s.hist.calls[i].key in s.table)
            && (forall k :: k in s.table ==> HasRecord(part, s.log, k.event))
            && (forall p, i :: 0 <= i < |Log(s.log, p)| ==>
                  var rec := Log(s.log, p)[i];
                  part(rec.key) == p && HasRow(s.db.outbox, rec.key, rec.value) &&
                  rec.value.Encoded? && rec.value.job.stripeEventId == rec.key)
            && (forall e :: Ledger.InOutbox(s.db.outbox, e) <==> e in s.db.ledger)
            && Ledger.EventsDistinct(s.db.outbox)
  {
    var s := After(r, Init(part), acts);
    Reached(r, part, acts);
    forall p, i | 0 <= i < |Log(s.log, p)|
      ensures var rec := Log(s.log, p)[i];
              part(rec.key) == p && HasRow(s.db.outbox, rec.key, rec.value) &&
              rec.value.Encoded? && rec.value.job.stripeEventId == rec.key
    {
      RecordIsItsEvent(s.part, s.log, s.db, p, i);
    }
    forall i | 0 <= i < |s.hist.calls|
      ensures s.hist.calls[i].key in s.table
    {
      assert Counted(s.table, s.hist.calls[i].key, s.hist.calls[i].attempt);
    }
    forall e | Ledger.InOutbox(s.db.outbox, e)
      ensures e in s.db.ledger
    {
      var i :| 0 <= i < |s.db.outbox| && s.db.outbox[i].event == e;
    }
  }

  /** The outbox INSERT of an accept passes its UNIQUE and its REFERENCES check. */
  lemma OutboxInsertNeverConflicts(r: Rules, part: string -> nat, acts: seq<Action>, h: nat)
    requires Run(r, Init(part), acts)
    requires var s := After(r, Init(part), acts); h in s.db.open && s.db.open[h].phase.Holding?
    ensures var s := After(r, Init(part), acts);
            && !Ledger.InOutbox(s.db.outbox, s.db.open[h].event)
            && s.db.open[h].event in Ledger.Sees(s.db, h)
            && Ledger.Answer(s.db, h, Ledger.Write(true)) == Ledger.Continue
  {
    var s := After(r, Init(part), acts);
    Reached(r, part, acts);
    Ledger.NextRefinesAtomicClaim(s.db, h, Ledger.Write(true));
  }

  // ---------------------------------------------------------------- publishing order

  /** With one publisher and accepts committing in id order the outbox is a queue, what the publisher appends
      is a stuttering of it, and a mark always finds its row; whatever others write to the topic. */
  lemma AppendsStutterOutbox(r: Rules, part: string -> nat, acts: seq<Action>)
    requires r.onePublisher && r.inOrder && Run(r, Init(part), acts)
    ensures var s := After(r, Init(part), acts);
            && IsQueue(s.db.outbox) && Stutters(s.db.outbox, s.hist.appended)
            && (forall q :: q in s.publishers ==> Ledger.IsPending(s.db.outbox, s.publishers[q].event))
  {
    var s := After(r, Init(part), acts);
    Reached(r, part, acts);
    forall q | q in s.publishers
      ensures Ledger.IsPending(s.db.outbox, s.publishers[q].event)
    {
      assert AtHead(s.db.outbox, s.hist.appended, s.publishers[q]);
      assert s.db.outbox[Head(s.db.outbox)].status.Pending?;
    }
  }

  /** Without other producers and late appends the topic holds, partition by partition, what the publishers
      appended. With one publisher and accepts in id order, each partition then follows the order of the outbox
      ids, and copies of one event are neighbours in it. */
  lemma TopicStuttersOutbox(r: Rules, part: string -> nat, acts: seq<Action>)
    requires r.promptAppends && Run(r, Init(part), acts)
    ensures var s := After(r, Init(part), acts);
            && (forall p :: Keys(Log(s.log, p)) == Routed(part, s.hist.appended, p))
            && (r.onePublisher && r.inOrder ==>
                  forall p :: FollowsRows(Keys(Log(s.log, p)), s.db.outbox) && Contiguous(Log(s.log, p)))
  {
    var s := After(r, Init(part), acts);
    Reached(r, part, acts);
    if r.onePublisher && r.inOrder {
      PartitionsFollowOutbox(s.part, s.log, s.db.outbox, s.hist.appended);
    }
  }
}
