/** What every action of the pipeline keeps, whatever the other processes do. */
module Invariants {
  import opened Engine
  import opened Completions
  import opened Pipeline
  import Ledger
  import H = Handler
  import Downstream

  // ---------------------------------------------------------------- nothing is taken back

  ghost predicate LogGrows(log: map<nat, seq<Record>>, log': map<nat, seq<Record>>) {
    forall p :: Log(log, p) <= Log(log', p)
  }

  lemma LogStep(s: State, a: Action)
    requires Enabled(s, a)
    ensures LogGrows(s.log, NextLog(s, a))
  {
  }

  /** Rows stay, attempts only grow, a processed row never changes again, and rejections stay recorded. */
  ghost predicate AcksGrow(k: Acks, k': Acks) {
    && (forall key :: key in k.table ==> key in k'.table && k'.table[key].attempts >= k.table[key].attempts)
    && (forall key :: IsProcessed(k.table, key) ==> IsProcessed(k'.table, key) && k'.table[key] == k.table[key])
    && k.rejected <= k'.rejected
  }

  lemma AcksStep(s: State, a: Action)
    requires Enabled(s, a)
    ensures AcksGrow(AcksOf(s), Acks(NextTable(s, a), NextRejected(s, a)))
  {
  }

  lemma AckedStays(k: Acks, k': Acks, c: string, r: Record)
    requires AcksGrow(k, k') && Acked(k, c, r)
    ensures Acked(k', c, r)
  {
  }

  lemma AckedBelowStays(k: Acks, k': Acks, c: string, records: seq<Record>, records': seq<Record>, n: nat)
    requires AcksGrow(k, k') && records <= records'
    requires AckedBelow(k, c, records, n)
    ensures AckedBelow(k', c, records', n)
  {
    forall o | 0 <= o < n
      ensures Acked(k', c, records'[o])
    {
      AckedStays(k, k', c, records[o]);
    }
  }

  // ---------------------------------------------------------------- database

  /** The live handler's transactions: the payload is the encoded job of the very event. */
  ghost predicate LiveTx(tx: Ledger.Tx) {
    && tx.kind.Accept? && tx.kind.payload.Encoded?
    && tx.kind.payload.job.stripeEventId == tx.event && tx.kind.payload.job.eventType == tx.eventType
  }

  ghost predicate LiveRow(row: Ledger.OutboxRow) {
    && row.payload.Encoded? && row.payload.job.stripeEventId == row.event
    && row.payload.job.eventType == row.eventType && !row.status.PublishFailed?
  }

  ghost predicate Live(db: Ledger.Db) {
    && (forall h :: h in db.open ==> LiveTx(db.open[h]))
    && (forall e :: e in db.ledger ==> db.ledger[e].status.Accepted?)
    && (forall i :: 0 <= i < |db.outbox| ==> LiveRow(db.outbox[i]))
  }

  lemma LiveStep(s: State, a: Action)
    requires Live(s.db) && Enabled(s, a)
    ensures Live(NextDb(s, a))
  {
  }

  lemma LedgerInvStep(s: State, a: Action)
    requires Ledger.Inv(s.db) && Enabled(s, a)
    ensures Ledger.Inv(NextDb(s, a))
  {
    match a
    case Receive(h, job) =>
      Ledger.BeginKeepsInv(s.db, h, Ledger.Accept(Encoded(job)), job.stripeEventId, job.eventType);
    case Transact(h, m) => Ledger.NextKeepsInv(s.db, h, m);
    case MarkPublished(q, fault) =>
      Ledger.SameRowsKeepInv(s.db, Ledger.MarkPublished(s.db.outbox, s.publishers[q].event));
    case _ =>
  }

  /** A 204 is only given for an event whose ledger row is committed. */
  ghost predicate AnswersOk(answered: set<string>, checking: map<nat, string>, db: Ledger.Db) {
    && (forall e :: e in answered ==> e in db.ledger)
    && (forall h :: h in checking ==> checking[h] in db.ledger)
  }

  lemma AnswersOkStep(s: State, a: Action)
    requires AnswersOk(s.hist.answered, s.checking, s.db) && Enabled(s, a)
    ensures AnswersOk(NextAnswered(s, a), NextChecking(s, a), NextDb(s, a))
  {
  }

  // ---------------------------------------------------------------- topic

  ghost predicate InLog(part: string -> nat, log: map<nat, seq<Record>>, event: string, payload: Value) {
    Record(event, payload) in Log(log, part(event))
  }

  lemma InLogStays(s: State, a: Action, event: string, payload: Value)
    requires Enabled(s, a) && InLog(s.part, s.log, event, payload)
    ensures InLog(s.part, NextLog(s, a), event, payload)
  {
    LogStep(s, a);
    assert Log(s.log, s.part(event)) <= Log(NextLog(s, a), s.part(event));
  }

  /** A published row has its record in the topic. */
  ghost predicate PublishedLogged(part: string -> nat, log: map<nat, seq<Record>>, outbox: seq<Ledger.OutboxRow>) {
    forall i :: 0 <= i < |outbox| && outbox[i].status.Published? ==>
      InLog(part, log, outbox[i].event, outbox[i].payload)
  }

  /** A publisher works on an outbox row, and has its record in the topic before it marks the row. */
  ghost predicate PublisherOk(part: string -> nat, log: map<nat, seq<Record>>, outbox: seq<Ledger.OutboxRow>,
                              p: Publisher) {
    match p
    case Selected(event, payload) => HasRow(outbox, event, payload)
    case Produced(event) => exists payload :: HasRow(outbox, event, payload) && InLog(part, log, event, payload)
  }

  ghost predicate PublishersOk(s: State) {
    forall q :: q in s.publishers ==> PublisherOk(s.part, s.log, s.db.outbox, s.publishers[q])
  }

  /** Outbox rows keep their position and content; only a publisher's mark changes a status. */
  lemma OutboxStep(s: State, a: Action)
    requires Enabled(s, a)
    ensures var o, o' := s.db.outbox, NextDb(s, a).outbox;
            && |o| <= |o'|
            && (forall i :: 0 <= i < |o| ==> o'[i] == o[i].(status := o'[i].status))
            && (forall i :: 0 <= i < |o| && o'[i].status != o[i].status ==>
                  o[i].status.Pending? && o'[i].status.Published? && a.MarkPublished? &&
                  s.publishers[a.q].event == o[i].event)
            && (forall i :: |o| <= i < |o'| ==> o'[i].status.Pending?)
  {
  }

  lemma HasRowStays(s: State, a: Action, event: string, payload: Value)
    requires Enabled(s, a) && HasRow(s.db.outbox, event, payload)
    ensures HasRow(NextDb(s, a).outbox, event, payload)
  {
    OutboxStep(s, a);
    var i :| 0 <= i < |s.db.outbox| && s.db.outbox[i].event == event && s.db.outbox[i].payload == payload;
    assert NextDb(s, a).outbox[i].event == event;
  }

  /** Events are unique in the outbox, so two rows of one event are one row. */
  lemma OneRow(outbox: seq<Ledger.OutboxRow>, i: nat, event: string, payload: Value)
    requires Ledger.EventsDistinct(outbox) && HasRow(outbox, event, payload)
    requires i < |outbox| && outbox[i].event == event
    ensures outbox[i].payload == payload
  {
  }

  lemma PublishedLoggedStep(s: State, a: Action)
    requires PublishedLogged(s.part, s.log, s.db.outbox) && PublishersOk(s) && Enabled(s, a)
    requires Ledger.EventsDistinct(s.db.outbox)
    ensures PublishedLogged(s.part, NextLog(s, a), NextDb(s, a).outbox)
  {
    var o, o' := s.db.outbox, NextDb(s, a).outbox;
    OutboxStep(s, a);
    forall i | 0 <= i < |o'| && o'[i].status.Published?
      ensures InLog(s.part, NextLog(s, a), o'[i].event, o'[i].payload)
    {
      if !o[i].status.Published? {
        assert PublisherOk(s.part, s.log, o, s.publishers[a.q]);
        var payload :| HasRow(o, o[i].event, payload) && InLog(s.part, s.log, o[i].event, payload);
        OneRow(o, i, o[i].event, payload);
      }
      InLogStays(s, a, o[i].event, o[i].payload);
    }
  }

  lemma PublisherOkStays(s: State, a: Action, p: Publisher)
    requires Enabled(s, a) && PublisherOk(s.part, s.log, s.db.outbox, p)
    ensures PublisherOk(s.part, NextLog(s, a), NextDb(s, a).outbox, p)
  {
    match p
    case Selected(event, payload) => HasRowStays(s, a, event, payload);
    case Produced(event) =>
      var payload :| HasRow(s.db.outbox, event, payload) && InLog(s.part, s.log, event, payload);
      HasRowStays(s, a, event, payload);
      InLogStays(s, a, event, payload);
  }

  lemma PublishersOkStep(s: State, a: Action)
    requires PublishersOk(s) && Enabled(s, a)
    ensures forall q :: q in NextPublishers(s, a) ==>
              PublisherOk(s.part, NextLog(s, a), NextDb(s, a).outbox, NextPublishers(s, a)[q])
  {
    forall q | q in NextPublishers(s, a)
      ensures PublisherOk(s.part, NextLog(s, a), NextDb(s, a).outbox, NextPublishers(s, a)[q])
    {
      if q in s.publishers {
        PublisherOkStays(s, a, s.publishers[q]);
      }
      if a.Produce? && a.q == q {
        var Selected(event, payload) := s.publishers[q];
        var log := Log(NextLog(s, a), s.part(event));
        assert log[|log| - 1] == Record(event, payload);
        assert InLog(s.part, NextLog(s, a), event, payload);
      }
    }
  }

  // ---------------------------------------------------------------- workers

  ghost predicate InClaimOrLater(pc: H.Pc) {
    !pc.Ready? && !pc.Done?
  }

  ghost predicate BatchOk(log: map<nat, seq<Record>>, wk: Worker) {
    && wk.start + |wk.batch| <= |Log(log, wk.part)|
    && wk.batch == Log(log, wk.part)[wk.start..wk.start + |wk.batch|]
    && wk.pos <= |wk.batch|
    && (wk.pc == H.Done(true) <==> wk.pos == |wk.batch|)
  }

  /** Where the handler stands, and that the prefix it got through is acked. */
  ghost predicate ProgressOk(k: Acks, wk: Worker) {
    && wk.pos <= |wk.batch|
    && (InClaimOrLater(wk.pc) ==>
          wk.pos < |wk.batch| && Handleable(wk.batch[wk.pos].value) && KeyOf(wk) in k.table)
    && (forall i :: 0 <= i < wk.pos ==> Acked(k, wk.consumer, wk.batch[i]))
  }

  ghost predicate BatchesOk(log: map<nat, seq<Record>>, workers: map<nat, Worker>) {
    forall w :: w in workers ==> BatchOk(log, workers[w])
  }

  ghost predicate AllProgressOk(k: Acks, workers: map<nat, Worker>) {
    forall w :: w in workers ==> ProgressOk(k, workers[w])
  }

  lemma BatchStays(log: map<nat, seq<Record>>, log': map<nat, seq<Record>>, wk: Worker)
    requires LogGrows(log, log') && BatchOk(log, wk)
    ensures BatchOk(log', wk)
  {
    assert Log(log, wk.part) <= Log(log', wk.part);
  }

  lemma BatchAdvances(log: map<nat, seq<Record>>, wk: Worker, pc: H.Pc)
    requires BatchOk(log, wk) && wk.pos < |wk.batch|
    ensures BatchOk(log, Advance(wk, pc))
  {
  }

  lemma BatchesOkStep(s: State, a: Action)
    requires BatchesOk(s.log, s.workers) && Enabled(s, a)
    ensures BatchesOk(NextLog(s, a), NextWorkers(s, a))
  {
    LogStep(s, a);
    forall w | w in NextWorkers(s, a)
      ensures BatchOk(NextLog(s, a), NextWorkers(s, a)[w])
    {
      if w in s.workers {
        BatchStays(s.log, NextLog(s, a), s.workers[w]);
        if a.Handle? && a.w == w {
          BatchAdvances(NextLog(s, a), s.workers[w], NextPc(s.table, s.workers[w], a.choice));
        }
      }
    }
  }

  lemma ProgressStays(k: Acks, k': Acks, wk: Worker)
    requires AcksGrow(k, k') && ProgressOk(k, wk)
    ensures ProgressOk(k', wk)
  {
    forall i | 0 <= i < wk.pos
      ensures Acked(k', wk.consumer, wk.batch[i])
    {
      AckedStays(k, k', wk.consumer, wk.batch[i]);
    }
  }

  /** What one handler step does to the record it works on: it stays unhandled, or it is acked. */
  lemma StepAcks(s: State, w: nat, c: H.Choice)
    requires Enabled(s, Handle(w, c)) && ProgressOk(AcksOf(s), s.workers[w])
    ensures var wk := s.workers[w];
            var k' := Acks(NextTable(s, Handle(w, c)), NextRejected(s, Handle(w, c)));
            var pc' := NextPc(s.table, wk, c);
            && (pc' != H.Done(false) ==> Handleable(wk.batch[wk.pos].value) && KeyOf(wk) in k'.table)
            && (pc' == H.Done(true) ==> Acked(k', wk.consumer, wk.batch[wk.pos]))
  {
    var wk := s.workers[w];
    if !Unreadable(wk) {
      H.HandledStep(s.table, KeyOf(wk), TypeOf(wk), wk.pc, c);
    }
  }

  /** A rejection is recorded by one step only: the failed mark of a call on this row that got an error which is
      final, when that mark reports no error. */
  lemma RejectionMeans(s: State, a: Action, k: Key)
    requires Enabled(s, a) && k in NextRejected(s, a) && k !in s.hist.rejected
    ensures a.Handle? && a.choice == H.Db(NoFault) && KeyOf(s.workers[a.w]) == k
    ensures s.workers[a.w].pc.GotError? && !Downstream.IsRetryable(s.workers[a.w].pc.error)
  {
    var wk := s.workers[a.w];
    H.ReturnsTrueIff(s.table, KeyOf(wk), TypeOf(wk), wk.pc, a.choice);
  }

  lemma ProgressOkStep(s: State, a: Action)
    requires AllProgressOk(AcksOf(s), s.workers) && Enabled(s, a)
    ensures AllProgressOk(Acks(NextTable(s, a), NextRejected(s, a)), NextWorkers(s, a))
  {
    var k' := Acks(NextTable(s, a), NextRejected(s, a));
    AcksStep(s, a);
    forall w | w in NextWorkers(s, a)
      ensures ProgressOk(k', NextWorkers(s, a)[w])
    {
      if w in s.workers {
        ProgressStays(AcksOf(s), k', s.workers[w]);
      }
      if a.Handle? && a.w == w {
        StepAcks(s, w, a.choice);
      }
    }
  }

  // ---------------------------------------------------------------- completions table

  lemma TableStep(s: State, a: Action)
    requires Enabled(s, a) && s.table == ExecAll(map[], s.hist.stmts)
    ensures NextTable(s, a) == ExecAll(map[], NextStmts(s, a))
  {
    if a.Handle? && !Unreadable(s.workers[a.w]) {
      var wk := s.workers[a.w];
      var q := H.Applied(KeyOf(wk), TypeOf(wk), wk.pc, a.choice);
      if q.Some? {
        ExecAllConcat(map[], s.hist.stmts, [q.value]);
      }
    }
  }
}
