/** What holds when publishers are the only producers, and when an event's slot has one owner at a time. */
module Ownership {
  import opened Engine
  import opened Completions
  import opened Pipeline
  import opened Invariants
  import Ledger
  import H = Handler
  import Downstream

  // ---------------------------------------------------------------- effect never precedes cause

  /** Every record is an outbox row's payload under its event's key, in that key's partition. */
  ghost predicate LogFromOutbox(part: string -> nat, log: map<nat, seq<Record>>, outbox: seq<Ledger.OutboxRow>) {
    forall p, i :: 0 <= i < |Log(log, p)| ==>
      part(Log(log, p)[i].key) == p && HasRow(outbox, Log(log, p)[i].key, Log(log, p)[i].value)
  }

  ghost predicate HasRecord(part: string -> nat, log: map<nat, seq<Record>>, event: string) {
    exists i :: 0 <= i < |Log(log, part(event))| && Log(log, part(event))[i].key == event
  }

  /** Completion rows exist only for events that are in the topic. */
  ghost predicate TableFromLog(part: string -> nat, log: map<nat, seq<Record>>, table: Table) {
    forall k :: k in table ==> HasRecord(part, log, k.event)
  }

  lemma LogFromOutboxStep(s: State, a: Action)
    requires LogFromOutbox(s.part, s.log, s.db.outbox) && PublishersOk(s) && Enabled(s, a)
    requires a.ForeignAppend? ==> LateAppend(s, a)
    ensures LogFromOutbox(s.part, NextLog(s, a), NextDb(s, a).outbox)
  {
    forall p, i | 0 <= i < |Log(NextLog(s, a), p)|
      ensures var r := Log(NextLog(s, a), p)[i];
              s.part(r.key) == p && HasRow(NextDb(s, a).outbox, r.key, r.value)
    {
      var r := Log(NextLog(s, a), p)[i];
      if i < |Log(s.log, p)| {
        assert r == Log(s.log, p)[i];
      } else if a.Produce? {
        assert PublisherOk(s.part, s.log, s.db.outbox, s.publishers[a.q]);
      }
      HasRowStays(s, a, r.key, r.value);
    }
  }

  /** With jobs from the live handler, a record's job id is its key. */
  lemma RecordIsItsEvent(part: string -> nat, log: map<nat, seq<Record>>, db: Ledger.Db, p: nat, i: nat)
    requires LogFromOutbox(part, log, db.outbox) && Live(db)
    requires i < |Log(log, p)|
    ensures var r := Log(log, p)[i];
            r.value.Encoded? && r.value.job.stripeEventId == r.key && part(r.key) == p
  {
    var r := Log(log, p)[i];
    var j :| 0 <= j < |db.outbox| && db.outbox[j].event == r.key && db.outbox[j].payload == r.value;
    assert LiveRow(db.outbox[j]);
  }

  lemma HandledRecord(s: State, wk: Worker)
    requires LogFromOutbox(s.part, s.log, s.db.outbox) && Live(s.db)
    requires BatchOk(s.log, wk) && wk.pos < |wk.batch|
    ensures HasRecord(s.part, s.log, KeyOf(wk).event)
  {
    assert wk.batch[wk.pos] == Log(s.log, wk.part)[wk.start + wk.pos];
    RecordIsItsEvent(s.part, s.log, s.db, wk.part, wk.start + wk.pos);
  }

  lemma HasRecordStays(s: State, a: Action, event: string)
    requires Enabled(s, a) && HasRecord(s.part, s.log, event)
    ensures HasRecord(s.part, NextLog(s, a), event)
  {
    LogStep(s, a);
    var p := s.part(event);
    var i :| 0 <= i < |Log(s.log, p)| && Log(s.log, p)[i].key == event;
    assert Log(s.log, p) <= Log(NextLog(s, a), p);
    assert Log(NextLog(s, a), p)[i].key == event;
  }

  /** What a table step by worker `w` can touch. */
  lemma OnlyOwnRow(s: State, w: nat, c: H.Choice, k: Key)
    requires Enabled(s, Handle(w, c)) && k != KeyOf(s.workers[w])
    ensures k in NextTable(s, Handle(w, c)) <==> k in s.table
    ensures k in s.table ==> NextTable(s, Handle(w, c))[k] == s.table[k]
  {
  }

  lemma TableFromLogStep(s: State, a: Action)
    requires TableFromLog(s.part, s.log, s.table) && BatchesOk(s.log, s.workers) && Enabled(s, a)
    requires LogFromOutbox(s.part, s.log, s.db.outbox) && Live(s.db)
    ensures TableFromLog(s.part, NextLog(s, a), NextTable(s, a))
  {
    forall k | k in NextTable(s, a)
      ensures HasRecord(s.part, NextLog(s, a), k.event)
    {
      if a.Handle? && k == KeyOf(s.workers[a.w]) {
        HandledRecord(s, s.workers[a.w]);
      } else if a.Handle? {
        OnlyOwnRow(s, a.w, a.choice, k);
      }
      HasRecordStays(s, a, k.event);
    }
  }

  // ---------------------------------------------------------------- an event is read in its own partition only

  /** The slot from which the records of a completion row come. */
  function HomeOf(part: string -> nat, k: Key): Slot {
    Slot(k.consumer, part(k.event))
  }

  /** The handler reads the event from the record. */
  predicate Carries(r: Record, event: string) {
    Handleable(r.value) && r.value.job.stripeEventId == event
  }

  /** No other partition has a record that carries the event. */
  ghost predicate AtHome(part: string -> nat, log: map<nat, seq<Record>>, event: string) {
    forall p, i :: 0 <= i < |Log(log, p)| && Carries(Log(log, p)[i], event) ==> part(event) == p
  }

  /** The publishers send each job to its own event's partition. */
  lemma SelectedIsItsEvent(s: State, q: nat)
    requires PublishersOk(s) && Live(s.db) && q in s.publishers && s.publishers[q].Selected?
    ensures var Selected(event, payload) := s.publishers[q];
            payload.Encoded? && payload.job.stripeEventId == event
  {
    var Selected(event, payload) := s.publishers[q];
    assert PublisherOk(s.part, s.log, s.db.outbox, s.publishers[q]);
    var i :| 0 <= i < |s.db.outbox| && s.db.outbox[i].event == event && s.db.outbox[i].payload == payload;
    assert LiveRow(s.db.outbox[i]);
  }

  lemma AtHomeStep(s: State, a: Action, event: string)
    requires AtHome(s.part, s.log, event) && PublishersOk(s) && Live(s.db) && Enabled(s, a)
    requires a.ForeignAppend? && Carries(a.record, event) ==> s.part(event) == a.part
    ensures AtHome(s.part, NextLog(s, a), event)
  {
    if a.Produce? { SelectedIsItsEvent(s, a.q); }
    forall p, i | 0 <= i < |Log(NextLog(s, a), p)| && Carries(Log(NextLog(s, a), p)[i], event)
      ensures s.part(event) == p
    {
      if i < |Log(s.log, p)| {
        assert Log(NextLog(s, a), p)[i] == Log(s.log, p)[i];
      }
    }
  }

  /** A record that a publisher may have sent is in its event's partition. */
  lemma LateAppendIsHome(s: State, a: Action, events: string -> bool)
    requires LateAppend(s, a) && Live(s.db)
    ensures SentHome(s, a, events)
  {
    var i :| 0 <= i < |s.db.outbox| && s.db.outbox[i].event == a.record.key
             && s.db.outbox[i].payload == a.record.value;
    assert LiveRow(s.db.outbox[i]);
  }

  /** The worker is at a record of this row that the handler can read. */
  ghost predicate AtRow(wk: Worker, k: Key) {
    wk.pos < |wk.batch| && Handleable(wk.batch[wk.pos].value) && KeyOf(wk) == k
  }

  lemma HandledAtHome(s: State, wk: Worker, k: Key)
    requires AtHome(s.part, s.log, k.event) && BatchOk(s.log, wk) && AtRow(wk, k)
    ensures SlotOf(wk) == HomeOf(s.part, k)
  {
    assert wk.batch[wk.pos] == Log(s.log, wk.part)[wk.start + wk.pos];
    assert Carries(Log(s.log, wk.part)[wk.start + wk.pos], k.event);
  }

  // ---------------------------------------------------------------- one owner of an event's slot

  ghost predicate OwnedOnce(workers: map<nat, Worker>, slot: Slot) {
    forall w, w' :: w in workers && w' in workers && SlotOf(workers[w]) == slot == SlotOf(workers[w']) ==> w == w'
  }

  ghost predicate InDelivery(pc: H.Pc) {
    pc.Granted? || pc.Calling? || pc.GotOk? || pc.GotError?
  }

  /** From its grant to its mark, the worker finds the row processing. */
  ghost predicate RowHeld(table: Table, wk: Worker) {
    InDelivery(wk.pc) && wk.pos < |wk.batch| ==> KeyOf(wk) in table && table[KeyOf(wk)].status.Processing?
  }

  ghost predicate RowsHeld(table: Table, workers: map<nat, Worker>, k: Key) {
    forall w :: w in workers && AtRow(workers[w], k) ==> RowHeld(table, workers[w])
  }

  lemma OwnedOnceStep(s: State, a: Action, slot: Slot)
    requires OwnedOnce(s.workers, slot) && Enabled(s, a)
    requires a.Poll? && Slot(a.consumer, a.part) == slot ==> !Owned(s, slot)
    ensures OwnedOnce(NextWorkers(s, a), slot)
  {
    if a.Poll? && Slot(a.consumer, a.part) == slot {
      forall w | w in s.workers
        ensures SlotOf(s.workers[w]) != slot
      {
        assert w in s.workers.Keys;
      }
    }
  }

  /** No two workers, of whatever slots, are at the same row. */
  lemma OwnersApart(s: State, k: Key, w: nat, w': nat)
    requires OwnedOnce(s.workers, HomeOf(s.part, k)) && AtHome(s.part, s.log, k.event) && BatchesOk(s.log, s.workers)
    requires w in s.workers && w' in s.workers && AtRow(s.workers[w], k) && AtRow(s.workers[w'], k)
    ensures w == w'
  {
    HandledAtHome(s, s.workers[w], k);
    HandledAtHome(s, s.workers[w'], k);
  }

  lemma OwnRowHeld(s: State, w: nat, c: H.Choice)
    requires Enabled(s, Handle(w, c)) && BatchOk(s.log, s.workers[w]) && RowHeld(s.table, s.workers[w])
    ensures RowHeld(NextTable(s, Handle(w, c)), NextWorkers(s, Handle(w, c))[w])
  {
  }

  /** A step by a worker that is not at the row leaves it alone. */
  lemma OtherRowStays(s: State, w: nat, c: H.Choice, k: Key)
    requires Enabled(s, Handle(w, c)) && ProgressOk(AcksOf(s), s.workers[w]) && !AtRow(s.workers[w], k)
    ensures k in NextTable(s, Handle(w, c)) <==> k in s.table
    ensures k in s.table ==> NextTable(s, Handle(w, c))[k] == s.table[k]
  {
  }

  lemma RowsHeldStep(s: State, a: Action, k: Key)
    requires RowsHeld(s.table, s.workers, k) && OwnedOnce(s.workers, HomeOf(s.part, k)) && BatchesOk(s.log, s.workers)
    requires AtHome(s.part, s.log, k.event) && AllProgressOk(AcksOf(s), s.workers) && Enabled(s, a)
    ensures RowsHeld(NextTable(s, a), NextWorkers(s, a), k)
  {
    forall w | w in NextWorkers(s, a) && AtRow(NextWorkers(s, a)[w], k)
      ensures RowHeld(NextTable(s, a), NextWorkers(s, a)[w])
    {
      if a.Handle? && a.w == w {
        if NextWorkers(s, a)[w].pos == s.workers[w].pos { OwnRowHeld(s, w, a.choice); }
      } else if a.Handle? {
        if AtRow(s.workers[a.w], k) { OwnersApart(s, k, w, a.w); }
        OtherRowStays(s, a.w, a.choice, k);
      }
    }
  }

  // ---------------------------------------------------------------- the window between 2xx and mark

  ghost predicate HasAnswer(wk: Worker, k: Key) {
    wk.pc.GotOk? && wk.pos < |wk.batch| && KeyOf(wk) == k
  }

  /** Some worker has a 2xx for the row and has not marked it. */
  ghost predicate InWindow(workers: map<nat, Worker>, k: Key) {
    exists w :: w in workers && HasAnswer(workers[w], k)
  }

  /** Each 2xx is accounted for: its window faulted, or is open, or ended in the processed mark. */
  ghost predicate OksBounded(table: Table, workers: map<nat, Worker>, oks: multiset<Key>, faults: multiset<Key>,
                             k: Key) {
    oks[k] <= faults[k] + (if IsProcessed(table, k) then 1 else 0) + (if InWindow(workers, k) then 1 else 0)
  }

  lemma OksBoundedOther(s: State, a: Action, k: Key)
    requires OksBounded(s.table, s.workers, s.hist.oks, s.hist.windowFaults, k) && Enabled(s, a)
    requires a.Handle? ==> !AtRow(s.workers[a.w], k) && ProgressOk(AcksOf(s), s.workers[a.w])
    requires a.WorkerStops? || a.CommitOffset? ==> !HasAnswer(s.workers[a.w], k)
    ensures OksBounded(NextTable(s, a), NextWorkers(s, a), NextOks(s, a), NextWindowFaults(s, a), k)
  {
    if a.Handle? {
      OtherRowStays(s, a.w, a.choice, k);
    }
    if InWindow(s.workers, k) {
      var w :| w in s.workers && HasAnswer(s.workers[w], k);
      assert w in NextWorkers(s, a) && HasAnswer(NextWorkers(s, a)[w], k);
    }
  }

  lemma OksBoundedStop(s: State, w: nat, k: Key)
    requires OksBounded(s.table, s.workers, s.hist.oks, s.hist.windowFaults, k)
    requires Enabled(s, WorkerStops(w)) && HasAnswer(s.workers[w], k)
    ensures var a := WorkerStops(w);
            OksBounded(NextTable(s, a), NextWorkers(s, a), NextOks(s, a), NextWindowFaults(s, a), k)
  {
  }

  /** A handler step on row `k` by its only owner. */
  lemma OksBoundedOwn(s: State, w: nat, c: H.Choice, k: Key)
    requires OksBounded(s.table, s.workers, s.hist.oks, s.hist.windowFaults, k)
    requires Enabled(s, Handle(w, c)) && BatchOk(s.log, s.workers[w]) && RowHeld(s.table, s.workers[w])
    requires k == KeyOf(s.workers[w])
    requires forall w' :: w' in s.workers && w' != w ==> !HasAnswer(s.workers[w'], k)
    ensures var a := Handle(w, c);
            OksBounded(NextTable(s, a), NextWorkers(s, a), NextOks(s, a), NextWindowFaults(s, a), k)
  {
    var wk, wk' := s.workers[w], NextWorkers(s, Handle(w, c))[w];
    assert InWindow(s.workers, k) <==> wk.pc.GotOk?;
    if wk.pc.Calling? && Downstream.Verdict(c.transport).None? {
      assert HasAnswer(wk', k);
      assert InWindow(NextWorkers(s, Handle(w, c)), k);
    }
  }

  lemma OksBoundedStep(s: State, a: Action, k: Key)
    requires OksBounded(s.table, s.workers, s.hist.oks, s.hist.windowFaults, k) && Enabled(s, a)
    requires RowsHeld(s.table, s.workers, k) && OwnedOnce(s.workers, HomeOf(s.part, k)) && BatchesOk(s.log, s.workers)
    requires AtHome(s.part, s.log, k.event) && AllProgressOk(AcksOf(s), s.workers)
    ensures OksBounded(NextTable(s, a), NextWorkers(s, a), NextOks(s, a), NextWindowFaults(s, a), k)
  {
    if a.Handle? && AtRow(s.workers[a.w], k) {
      forall w' | w' in s.workers && w' != a.w
        ensures !HasAnswer(s.workers[w'], k)
      {
        if AtRow(s.workers[w'], k) { OwnersApart(s, k, a.w, w'); }
      }
      OksBoundedOwn(s, a.w, a.choice, k);
    } else if a.WorkerStops? && HasAnswer(s.workers[a.w], k) {
      OksBoundedStop(s, a.w, k);
    } else {
      OksBoundedOther(s, a, k);
    }
  }
}
