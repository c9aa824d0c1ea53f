/** The whole system as one state machine: webhook handlers, publishers and workers, any number of each,
    over one database, one topic and its committed offsets. Every action is one statement, one broker
    call, one network event or one crash, and any process may take the next one. */
module Pipeline {
  import opened Engine
  import opened Completions
  import Ledger
  import H = Handler
  import Downstream

  /** Offsets are committed per consumer group and partition. */
  datatype Slot = Slot(consumer: string, part: nat)

  /** A worker inside one partition batch: `batch` was fetched from offset `start`, its first `pos`
      records returned true, and `pc` is where `handleRecord` stands for the next one. Once `pc` is
      Done, `recordsSafeToCommit` has returned the first `pos` records. */
  datatype Worker = Worker(consumer: string, part: nat, start: nat, batch: seq<Record>, pos: nat, pc: H.Pc)

  /** A publisher between its statements; an absent one is about to select. */
  datatype Publisher = Selected(event: string, payload: Value) | Produced(event: string)

  /** One `DeliverJob` call: the claim it was made under and the record it was made for. */
  datatype Call = Call(key: Key, attempt: nat, part: nat, offset: nat)

  function SlotOf(wk: Worker): Slot {
    Slot(wk.consumer, wk.part)
  }

  /** What has happened so far; no action reads it. */
  datatype History = History(
    answered: set<string>,         // events answered 204
    appended: seq<string>,         // events the publishers appended, in order
    stmts: seq<Statement>,         // writes executed on consumer_completions, in order
    calls: seq<Call>,              // DeliverJob calls, in order
    oks: multiset<Key>,            // 2xx answers received
    windowFaults: multiset<Key>,   // crashes and store errors between a 2xx and its processed mark
    rejected: set<Key>)            // non-retryable verdicts recorded without a store error

  datatype State = State(
    part: string -> nat,           // the fixed key hash
    db: Ledger.Db,
    checking: map<nat, string>,    // webhook handlers told "not claimed", before their Status read
    log: map<nat, seq<Record>>,
    committed: map<Slot, nat>,
    table: Table,
    workers: map<nat, Worker>,
    publishers: map<nat, Publisher>,
    hist: History)

  datatype Action =
    | Receive(h: nat, job: Job)
    | Transact(h: nat, move: Ledger.Move)
    | CheckStatus(h: nat, fault: Fault)
    | SelectPending(q: nat)
    | Produce(q: nat, appended: bool, acked: bool)
    | MarkPublished(q: nat, fault: Fault)
    | PublisherStops(q: nat)
    | Poll(w: nat, consumer: string, part: nat, start: nat, count: nat)
    | Handle(w: nat, choice: H.Choice)
    | CommitOffset(w: nat, fault: Fault)
    | WorkerStops(w: nat)
    | ForeignAppend(part: nat, record: Record)

  /** Empty tables after the migrations, an empty topic, no process running. */
  function Init(part: string -> nat): State {
    State(part, Ledger.EMPTY_DB, map[], map[], map[], map[], map[], map[],
          History({}, [], [], [], multiset{}, multiset{}, {}))
  }

  function Log(log: map<nat, seq<Record>>, p: nat): seq<Record> {
    if p in log then log[p] else []
  }

  function Committed(committed: map<Slot, nat>, slot: Slot): nat {
    if slot in committed then committed[slot] else 0
  }

  function KeyFor(r: Record, consumer: string): Key {
    Key(if r.value.Encoded? then r.value.job.stripeEventId else "", consumer)
  }

  /** The completion row of the record the worker is handling. */
  function KeyOf(wk: Worker): Key
    requires wk.pos < |wk.batch|
  {
    KeyFor(wk.batch[wk.pos], wk.consumer)
  }

  function TypeOf(wk: Worker): string
    requires wk.pos < |wk.batch|
  {
    var v := wk.batch[wk.pos].value;
    if v.Encoded? then v.job.eventType else ""
  }

  // ---------------------------------------------------------------- what is possible

  predicate Enabled(s: State, a: Action) {
    match a
    case Receive(h, _) => h !in s.db.open && h !in s.checking
    case Transact(h, m) => Ledger.Enabled(s.db, h, m)
    case CheckStatus(h, _) => h in s.checking
    case SelectPending(q) => q !in s.publishers && Ledger.NextPending(s.db.outbox).Some?
    case Produce(q, appended, acked) =>
      q in s.publishers && s.publishers[q].Selected? && (acked ==> appended)
    case MarkPublished(q, _) => q in s.publishers && s.publishers[q].Produced?
    case PublisherStops(q) => q in s.publishers
    case Poll(w, _, p, start, count) =>
      w !in s.workers && count > 0 && start + count <= |Log(s.log, p)|
    case Handle(w, c) =>
      w in s.workers && s.workers[w].pos < |s.workers[w].batch| && H.Enabled(s.workers[w].pc, c)
    case CommitOffset(w, _) => w in s.workers && s.workers[w].pc.Done?
    case WorkerStops(w) => w in s.workers
    case ForeignAppend(_, _) => true
  }

  // ---------------------------------------------------------------- what it does, store by store

  function NextDb(s: State, a: Action): Ledger.Db
    requires Enabled(s, a)
  {
    match a
    case Receive(h, job) =>
      Ledger.Begin(s.db, h, Ledger.Accept(Encoded(job)), job.stripeEventId, job.eventType)
    case Transact(h, m) => Ledger.Next(s.db, h, m)
    case MarkPublished(q, fault) =>
      if fault.ErrLost? then s.db
      else s.db.(outbox := Ledger.MarkPublished(s.db.outbox, s.publishers[q].event))
    case _ => s.db
  }

  function NextChecking(s: State, a: Action): map<nat, string>
    requires Enabled(s, a)
  {
    match a
    case Transact(h, m) =>
      if Ledger.Answer(s.db, h, m) == Ledger.Claimed(false)
      then s.checking[h := s.db.open[h].event] else s.checking
    case CheckStatus(h, _) => s.checking - {h}
    case _ => s.checking
  }

  function NextAnswered(s: State, a: Action): set<string>
    requires Enabled(s, a)
  {
    match a
    case Transact(h, m) =>
      if Ledger.Answer(s.db, h, m) == Ledger.Claimed(true)
      then s.hist.answered + {s.db.open[h].event} else s.hist.answered
    case CheckStatus(h, fault) =>
      if fault.NoFault? then s.hist.answered + {s.checking[h]} else s.hist.answered
    case _ => s.hist.answered
  }

  function Append(log: map<nat, seq<Record>>, p: nat, r: Record): map<nat, seq<Record>> {
    log[p := Log(log, p) + [r]]
  }

  function NextLog(s: State, a: Action): map<nat, seq<Record>>
    requires Enabled(s, a)
  {
    match a
    case Produce(q, true, _) =>
      var Selected(event, payload) := s.publishers[q];
      Append(s.log, s.part(event), Record(event, payload))
    case ForeignAppend(p, r) => Append(s.log, p, r)
    case _ => s.log
  }

  function NextAppended(s: State, a: Action): seq<string>
    requires Enabled(s, a)
  {
    if a.Produce? && a.appended then s.hist.appended + [s.publishers[a.q].event] else s.hist.appended
  }

  function NextPublishers(s: State, a: Action): map<nat, Publisher>
    requires Enabled(s, a)
  {
    match a
    case SelectPending(q) =>
      var row := s.db.outbox[Ledger.NextPending(s.db.outbox).value];
      s.publishers[q := Selected(row.event, row.payload)]
    case Produce(q, _, acked) =>
      if acked then s.publishers[q := Produced(s.publishers[q].event)] else s.publishers - {q}
    case MarkPublished(q, _) => s.publishers - {q}
    case PublisherStops(q) => s.publishers - {q}
    case _ => s.publishers
  }

  /** Records that `handleRecord` gives up on before it touches the store. */
  predicate Unreadable(wk: Worker)
    requires wk.pos < |wk.batch|
  {
    wk.pc.Ready? && !Handleable(wk.batch[wk.pos].value)
  }

  function NextPc(t: Table, wk: Worker, c: H.Choice): H.Pc
    requires wk.pos < |wk.batch| && H.Enabled(wk.pc, c)
  {
    if Unreadable(wk) then H.Done(false) else H.NextPc(t, KeyOf(wk), TypeOf(wk), wk.pc, c)
  }

  /** The handler returned or moved on: true moves the batch to its next record. */
  function Advance(wk: Worker, pc: H.Pc): Worker {
    if pc == H.Done(true) then
      wk.(pos := wk.pos + 1, pc := if wk.pos + 1 < |wk.batch| then H.Ready else pc)
    else wk.(pc := pc)
  }

  function NextWorkers(s: State, a: Action): map<nat, Worker>
    requires Enabled(s, a)
  {
    match a
    case Poll(w, consumer, p, start, count) =>
      s.workers[w := Worker(consumer, p, start, Log(s.log, p)[start..start + count], 0, H.Ready)]
    case Handle(w, c) => s.workers[w := Advance(s.workers[w], NextPc(s.table, s.workers[w], c))]
    case CommitOffset(w, _) => s.workers - {w}
    case WorkerStops(w) => s.workers - {w}
    case _ => s.workers
  }

  function NextTable(s: State, a: Action): Table
    requires Enabled(s, a)
  {
    if !a.Handle? || Unreadable(s.workers[a.w]) then s.table else
    var wk := s.workers[a.w];
    H.NextTable(s.table, KeyOf(wk), TypeOf(wk), wk.pc, a.choice)
  }

  function NextStmts(s: State, a: Action): seq<Statement>
    requires Enabled(s, a)
  {
    if !a.Handle? || Unreadable(s.workers[a.w]) then s.hist.stmts else
    var wk := s.workers[a.w];
    var q := H.Applied(KeyOf(wk), TypeOf(wk), wk.pc, a.choice);
    if q.Some? then s.hist.stmts + [q.value] else s.hist.stmts
  }

  function NextCalls(s: State, a: Action): seq<Call>
    requires Enabled(s, a)
  {
    if !a.Handle? || !s.workers[a.w].pc.Granted? then s.hist.calls else
    var wk := s.workers[a.w];
    s.hist.calls + [Call(KeyOf(wk), wk.pc.claim.attempts, wk.part, wk.start + wk.pos)]
  }

  function NextOks(s: State, a: Action): multiset<Key>
    requires Enabled(s, a)
  {
    if a.Handle? && s.workers[a.w].pc.Calling? && Downstream.Verdict(a.choice.transport).None?
    then s.hist.oks + multiset{KeyOf(s.workers[a.w])} else s.hist.oks
  }

  function NextWindowFaults(s: State, a: Action): multiset<Key>
    requires Enabled(s, a)
  {
    match a
    case Handle(w, c) =>
      if s.workers[w].pc.GotOk? && c.fault != NoFault
      then s.hist.windowFaults + multiset{KeyOf(s.workers[w])} else s.hist.windowFaults
    case WorkerStops(w) =>
      if s.workers[w].pc.GotOk? && s.workers[w].pos < |s.workers[w].batch|
      then s.hist.windowFaults + multiset{KeyOf(s.workers[w])} else s.hist.windowFaults
    case _ => s.hist.windowFaults
  }

  function NextRejected(s: State, a: Action): set<Key>
    requires Enabled(s, a)
  {
    if a.Handle? && s.workers[a.w].pc.GotError? && NextPc(s.table, s.workers[a.w], a.choice) == H.Done(true)
    then s.hist.rejected + {KeyOf(s.workers[a.w])} else s.hist.rejected
  }

  /** CommitRecords moves the offset past the returned prefix, wherever it stood before. */
  function NextCommitted(s: State, a: Action): map<Slot, nat>
    requires Enabled(s, a)
  {
    if !a.CommitOffset? || a.fault.ErrLost? || s.workers[a.w].pos == 0 then s.committed else
    var wk := s.workers[a.w];
    s.committed[SlotOf(wk) := wk.start + wk.pos]
  }

  function Do(s: State, a: Action): State
    requires Enabled(s, a)
  {
    State(s.part, NextDb(s, a), NextChecking(s, a), NextLog(s, a), NextCommitted(s, a), NextTable(s, a),
          NextWorkers(s, a), NextPublishers(s, a),
          History(NextAnswered(s, a), NextAppended(s, a), NextStmts(s, a), NextCalls(s, a),
                  NextOks(s, a), NextWindowFaults(s, a), NextRejected(s, a)))
  }

  // ---------------------------------------------------------------- acknowledgement

  /** What the acks of a state are read from: the completion rows and the recorded rejections. */
  datatype Acks = Acks(table: Table, rejected: set<Key>)

  function AcksOf(s: State): Acks {
    Acks(s.table, s.hist.rejected)
  }

  /** A record is acked for a consumer once its event is processed, or a handler recorded a
      non-retryable verdict on it. A failed row alone is not an ack. */
  predicate Acked(k: Acks, consumer: string, r: Record) {
    Handleable(r.value) &&
    (IsProcessed(k.table, KeyFor(r, consumer)) || KeyFor(r, consumer) in k.rejected)
  }

  /** The acked frontier: the length of the longest prefix whose records are all acked. */
  function Frontier(k: Acks, consumer: string, records: seq<Record>): (n: nat)
    ensures n <= |records|
  {
    if records == [] then 0 else
    var m := |records| - 1;
    var n := Frontier(k, consumer, records[..m]);
    if n == m && Acked(k, consumer, records[m]) then m + 1 else n
  }

  predicate AckedBelow(k: Acks, consumer: string, records: seq<Record>, n: nat) {
    n <= |records| && forall o :: 0 <= o < n ==> Acked(k, consumer, records[o])
  }

  lemma {:induction false} FrontierIsLongest(k: Acks, consumer: string, records: seq<Record>, n: nat)
    ensures n <= Frontier(k, consumer, records) <==> AckedBelow(k, consumer, records, n)
  {
    if records != [] {
      var m := |records| - 1;
      FrontierIsLongest(k, consumer, records[..m], n);
      FrontierIsLongest(k, consumer, records[..m], m);
    }
  }

  // ---------------------------------------------------------------- runs and their assumptions

  /** What a run may assume about its environment; a theorem names the assumptions it needs, and those on
      fetches for the slots it needs them for.
      ackedStarts: each batch fetched from the slot starts at or below its acked frontier (the poll loop never
      rewinds, so this is the broker's part). oneOwner: the slot is fetched by one worker at a time.
      homeOnly: other producers send readable records with the event's id to the event's own partition, if they
      send any. soleProducer: only publishers write to the topic; what they sent may also arrive late, after the
      send has reported an error or its publisher is gone. promptAppends: it never arrives late.
      onePublisher: one publisher process. inOrder: accepts commit in the order of their outbox ids. */
  datatype Rules = Rules(ackedStarts: Slot -> bool, oneOwner: Slot -> bool, homeOnly: string -> bool,
                         soleProducer: bool, promptAppends: bool, onePublisher: bool, inOrder: bool)

  const EVERY_SLOT: Slot -> bool := _ => true

  const NO_SLOT: Slot -> bool := _ => false

  const EVERY_EVENT: string -> bool := _ => true

  const NO_EVENT: string -> bool := _ => false

  const NO_RULES := Rules(NO_SLOT, NO_SLOT, NO_EVENT, false, false, false, false)

  predicate Owned(s: State, slot: Slot) {
    exists w <- s.workers :: SlotOf(s.workers[w]) == slot
  }

  predicate HasRow(outbox: seq<Ledger.OutboxRow>, event: string, payload: Value) {
    exists i :: 0 <= i < |outbox| && outbox[i].event == event && outbox[i].payload == payload
  }

  /** A record that some publisher may have sent earlier, in the partition it was sent to. */
  predicate LateAppend(s: State, a: Action) {
    a.ForeignAppend? && s.part(a.record.key) == a.part && HasRow(s.db.outbox, a.record.key, a.record.value)
  }

  /** If a handler reads one of these events from the record, it goes to the event's own partition. */
  predicate SentHome(s: State, a: Action, events: string -> bool)
    requires a.ForeignAppend?
  {
    Handleable(a.record.value) && events(a.record.value.job.stripeEventId) ==>
      s.part(a.record.value.job.stripeEventId) == a.part
  }

  predicate CommitsInOrder(s: State, a: Action)
    requires Enabled(s, a)
  {
    a.Transact? && a.move.Commit? && s.db.open[a.h].phase.Written? ==>
      forall i :: 0 <= i < |s.db.outbox| ==> s.db.outbox[i].id < s.db.open[a.h].phase.id
  }

  predicate Allowed(r: Rules, s: State, a: Action) {
    && Enabled(s, a)
    && (a.Poll? && r.ackedStarts(Slot(a.consumer, a.part)) ==>
          a.start <= Frontier(AcksOf(s), a.consumer, Log(s.log, a.part)))
    && (a.Poll? && r.oneOwner(Slot(a.consumer, a.part)) ==> !Owned(s, Slot(a.consumer, a.part)))
    && (a.ForeignAppend? ==> SentHome(s, a, r.homeOnly))
    && (a.ForeignAppend? && r.soleProducer ==> LateAppend(s, a))
    && (r.promptAppends ==> !a.ForeignAppend?)
    && (r.onePublisher && a.SelectPending? ==> s.publishers == map[])
    && (r.inOrder ==> CommitsInOrder(s, a))
  }

  predicate Run(r: Rules, s: State, acts: seq<Action>)
    decreases |acts|
  {
    acts == [] || (Allowed(r, s, acts[0]) && Run(r, Do(s, acts[0]), acts[1..]))
  }

  function After(r: Rules, s: State, acts: seq<Action>): State
    requires Run(r, s, acts)
    decreases |acts|
  {
    if acts == [] then s else After(r, Do(s, acts[0]), acts[1..])
  }
}
