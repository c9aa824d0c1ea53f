/** The transactions that write `processed_events` and `outbox_events`, statement by statement
    (internal/store/postgres.go:61-215, migrations/00002_ledger_accepted_and_outbox.sql). */
module Ledger {
  import opened Engine
  import opened Sequences

  datatype Status = Processing | Accepted | Processed | Failed

  datatype LedgerRow = LedgerRow(eventType: string, status: Status)

  datatype OutboxStatus = Pending | Published | PublishFailed

  datatype OutboxRow = OutboxRow(id: nat, event: string, eventType: string, payload: Value, status: OutboxStatus)

  /** `AcceptEvent` carries the payload for the outbox row; `ProcessEvent` runs a callback instead. */
  datatype Kind = Accept(payload: Value) | Process

  /** Begun: no statement yet. Holding: the ledger row is inserted but not committed, so its key is
      locked. Written: the second statement is done too, with the id it drew for an outbox row. */
  datatype Phase = Begun | Holding | Written(id: nat)

  datatype Tx = Tx(kind: Kind, event: string, eventType: string, phase: Phase)

  /** Committed rows (the outbox in commit order), the BIGSERIAL sequence, and the open transactions. */
  datatype Db = Db(ledger: map<string, LedgerRow>, outbox: seq<OutboxRow>, nextId: nat, open: map<nat, Tx>)

  /** Write's `fnOk` is the verdict of the callback that `ProcessEvent` runs before its second statement. */
  datatype Move = InsertLedger | Write(fnOk: bool) | Commit(fault: Fault) | Abort

  /** What the caller of the transaction has learnt after a move. */
  datatype Reply = Continue | Claimed(won: bool) | Error

  const EMPTY_DB := Db(map[], [], 1, map[])

  function CommittedStatus(kind: Kind): Status {
    if kind.Accept? then Accepted else Processed
  }

  function Begin(db: Db, x: nat, kind: Kind, event: string, eventType: string): Db
    requires x !in db.open
  {
    db.(open := db.open[x := Tx(kind, event, eventType, Begun)])
  }

  predicate Holds(db: Db, x: nat, event: string) {
    x in db.open && !db.open[x].phase.Begun? && db.open[x].event == event
  }

  /** ON CONFLICT waits while another transaction has inserted the key and not finished. */
  predicate Blocked(db: Db, x: nat)
    requires x in db.open
  {
    exists y <- db.open :: y != x && Holds(db, y, db.open[x].event)
  }

  predicate Enabled(db: Db, x: nat, m: Move) {
    && x in db.open
    && match m
       case InsertLedger => db.open[x].phase.Begun? && !Blocked(db, x)
       case Write(_) => db.open[x].phase.Holding?
       case Commit(_) => db.open[x].phase.Written?
       case Abort => true
  }

  function Close(db: Db, x: nat): Db {
    db.(open := db.open - {x})
  }

  /** The UNIQUE check on `outbox_events.event_id`. */
  predicate InOutbox(outbox: seq<OutboxRow>, event: string) {
    exists i :: 0 <= i < |outbox| && outbox[i].event == event
  }

  /** The ledger as the transaction sees it: the committed rows, and the row it has inserted itself. */
  function Sees(db: Db, x: nat): map<string, LedgerRow>
    requires x in db.open
  {
    var tx := db.open[x];
    if tx.phase.Begun? then db.ledger else
    var status := if tx.kind.Process? && tx.phase.Holding? then Processing else CommittedStatus(tx.kind);
    db.ledger[tx.event := LedgerRow(tx.eventType, status)]
  }

  /** The UNIQUE and REFERENCES checks on the outbox row that the transaction inserts. */
  predicate OutboxRowFits(db: Db, x: nat)
    requires x in db.open
  {
    !InOutbox(db.outbox, db.open[x].event) && db.open[x].event in Sees(db, x)
  }

  function Install(db: Db, x: nat): Db
    requires x in db.open && db.open[x].phase.Written?
  {
    var tx := db.open[x];
    var ledger := db.ledger[tx.event := LedgerRow(tx.eventType, CommittedStatus(tx.kind))];
    var outbox := if tx.kind.Accept?
                  then db.outbox + [OutboxRow(tx.phase.id, tx.event, tx.eventType, tx.kind.payload, Pending)]
                  else db.outbox;
    Close(db.(ledger := ledger, outbox := outbox), x)
  }

  function Next(db: Db, x: nat, m: Move): Db
    requires Enabled(db, x, m)
  {
    var tx := db.open[x];
    match m
    case InsertLedger =>
      if tx.event in db.ledger then Close(db, x)
      else db.(open := db.open[x := tx.(phase := Holding)])
    case Write(fnOk) =>
      if tx.kind.Process? then
        (if fnOk then db.(open := db.open[x := tx.(phase := Written(0))]) else Close(db, x))
      else
        var drawn := db.(nextId := db.nextId + 1);
        if !OutboxRowFits(db, x) then Close(drawn, x)
        else drawn.(open := db.open[x := tx.(phase := Written(db.nextId))])
    case Commit(fault) =>
      if fault.ErrLost? then Close(db, x) else Install(db, x)
    case Abort => Close(db, x)
  }

  function Answer(db: Db, x: nat, m: Move): Reply
    requires Enabled(db, x, m)
  {
    var tx := db.open[x];
    match m
    case InsertLedger => if tx.event in db.ledger then Claimed(false) else Continue
    case Write(fnOk) =>
      if (if tx.kind.Process? then fnOk else OutboxRowFits(db, x)) then Continue else Error
    case Commit(fault) => if fault.NoFault? then Claimed(true) else Error
    case Abort => Error
  }

  // ---------------------------------------------------------------- invariant

  predicate LocksExclusive(db: Db) {
    forall x, y :: x in db.open && y in db.open && x != y && !db.open[x].phase.Begun? && !db.open[y].phase.Begun?
                   ==> db.open[x].event != db.open[y].event
  }

  predicate LockedAbsent(db: Db) {
    forall x :: x in db.open && !db.open[x].phase.Begun? ==> db.open[x].event !in db.ledger
  }

  predicate DrewId(tx: Tx) {
    tx.kind.Accept? && tx.phase.Written?
  }

  predicate DrawnIds(db: Db) {
    && (forall i :: 0 <= i < |db.outbox| ==> db.outbox[i].id < db.nextId)
    && (forall i, j :: 0 <= i < j < |db.outbox| ==> db.outbox[i].id != db.outbox[j].id)
    && (forall x :: x in db.open && DrewId(db.open[x]) ==> db.open[x].phase.id < db.nextId)
    && (forall x, i :: x in db.open && DrewId(db.open[x]) && 0 <= i < |db.outbox|
                       ==> db.outbox[i].id != db.open[x].phase.id)
    && (forall x, y :: x in db.open && y in db.open && x != y && DrewId(db.open[x]) && DrewId(db.open[y])
                       ==> db.open[x].phase.id != db.open[y].phase.id)
  }

  predicate EventsDistinct(outbox: seq<OutboxRow>) {
    forall i, j :: 0 <= i < j < |outbox| ==> outbox[i].event != outbox[j].event
  }

  /** The foreign key, and its converse for accepted rows. */
  predicate OutboxMatchesLedger(db: Db) {
    && (forall i :: 0 <= i < |db.outbox| ==>
          db.outbox[i].event in db.ledger &&
          db.ledger[db.outbox[i].event] == LedgerRow(db.outbox[i].eventType, Accepted))
    && (forall e :: e in db.ledger && db.ledger[e].status.Accepted? ==> InOutbox(db.outbox, e))
  }

  predicate Inv(db: Db) {
    && LocksExclusive(db) && LockedAbsent(db) && DrawnIds(db)
    && EventsDistinct(db.outbox) && OutboxMatchesLedger(db)
  }

  lemma BeginKeepsInv(db: Db, x: nat, kind: Kind, event: string, eventType: string)
    requires Inv(db) && x !in db.open
    ensures Inv(Begin(db, x, kind, event, eventType))
  {
  }

  lemma InstallKeepsIds(db: Db, x: nat)
    requires Inv(db) && x in db.open && db.open[x].phase.Written?
    ensures var db' := Install(db, x); LocksExclusive(db') && LockedAbsent(db') && DrawnIds(db')
  {
    var db' := Install(db, x);
    assert forall i :: 0 <= i < |db.outbox| ==> db'.outbox[i] == db.outbox[i];
  }

  lemma InstallKeepsRows(db: Db, x: nat)
    requires LockedAbsent(db) && EventsDistinct(db.outbox) && OutboxMatchesLedger(db)
    requires x in db.open && db.open[x].phase.Written?
    ensures var db' := Install(db, x); EventsDistinct(db'.outbox) && OutboxMatchesLedger(db')
  {
    var tx, db' := db.open[x], Install(db, x);
    assert forall i :: 0 <= i < |db.outbox| ==> db'.outbox[i] == db.outbox[i];
    assert tx.kind.Accept? ==> db'.outbox[|db.outbox|].event == tx.event;
    forall e | e in db'.ledger && db'.ledger[e].status.Accepted?
      ensures InOutbox(db'.outbox, e)
    {
      if e != tx.event {
        var i :| 0 <= i < |db.outbox| && db.outbox[i].event == e;
        assert db'.outbox[i].event == e;
      }
    }
  }

  lemma CloseKeepsInv(db: Db, x: nat)
    requires Inv(db)
    ensures Inv(Close(db, x))
  {
  }

  /** A rolled back insert still uses up its id. */
  lemma SkipIdKeepsInv(db: Db, x: nat)
    requires Inv(db)
    ensures Inv(Close(db.(nextId := db.nextId + 1), x))
  {
    CloseKeepsInv(db.(nextId := db.nextId + 1), x);
  }

  lemma InsertKeepsInv(db: Db, x: nat)
    requires Inv(db) && Enabled(db, x, InsertLedger)
    ensures Inv(Next(db, x, InsertLedger))
  {
    CloseKeepsInv(db, x);
    var event, db' := db.open[x].event, Next(db, x, InsertLedger);
    if event !in db.ledger {
      forall y | y in db.open && y != x && !db.open[y].phase.Begun?
        ensures db.open[y].event != event
      {
        assert !Holds(db, y, event);
      }
    }
  }

  lemma WrittenKeepsInv(db: Db, x: nat)
    requires Inv(db) && x in db.open && db.open[x].phase.Holding?
    ensures Inv(db.(nextId := db.nextId + 1, open := db.open[x := db.open[x].(phase := Written(db.nextId))]))
  {
  }

  lemma WriteKeepsInv(db: Db, x: nat, fnOk: bool)
    requires Inv(db) && Enabled(db, x, Write(fnOk))
    ensures Inv(Next(db, x, Write(fnOk)))
  {
    CloseKeepsInv(db, x);
    SkipIdKeepsInv(db, x);
    if db.open[x].kind.Accept? && OutboxRowFits(db, x) {
      WrittenKeepsInv(db, x);
    }
  }

  lemma NextKeepsInv(db: Db, x: nat, m: Move)
    requires Inv(db) && Enabled(db, x, m)
    ensures Inv(Next(db, x, m))
  {
    match m
    case InsertLedger => InsertKeepsInv(db, x);
    case Write(fnOk) => WriteKeepsInv(db, x, fnOk);
    case Commit(fault) =>
      if fault.ErrLost? {
        CloseKeepsInv(db, x);
      } else {
        InstallKeepsIds(db, x);
        InstallKeepsRows(db, x);
      }
    case Abort => CloseKeepsInv(db, x);
  }

  /** A status change keeps every row's identity, and so the invariant. */
  lemma SameRowsKeepInv(db: Db, outbox': seq<OutboxRow>)
    requires Inv(db) && |outbox'| == |db.outbox|
    requires forall i :: 0 <= i < |outbox'| ==> outbox'[i] == db.outbox[i].(status := outbox'[i].status)
    ensures Inv(db.(outbox := outbox'))
  {
    assert forall i :: 0 <= i < |outbox'| ==>
             outbox'[i].event == db.outbox[i].event && outbox'[i].id == db.outbox[i].id &&
             outbox'[i].eventType == db.outbox[i].eventType;
    forall e | InOutbox(db.outbox, e)
      ensures InOutbox(outbox', e)
    {
      var i :| 0 <= i < |db.outbox| && db.outbox[i].event == e;
      assert outbox'[i].event == e;
    }
  }

  // ---------------------------------------------------------------- atomicity

  /** What a reader of committed data sees. */
  datatype View = View(ledger: map<string, LedgerRow>, outbox: seq<OutboxRow>)

  function Visible(db: Db): View {
    View(db.ledger, db.outbox)
  }

  /** The contract of the store interface, in one step: the first caller inserts everything. */
  function AtomicClaim(v: View, kind: Kind, event: string, eventType: string, id: nat): (View, bool) {
    if event in v.ledger then (v, false)
    else (View(v.ledger[event := LedgerRow(eventType, CommittedStatus(kind))],
               if kind.Accept? then v.outbox + [OutboxRow(id, event, eventType, kind.payload, Pending)] else v.outbox),
          true)
  }

  /** Transactions on any keys, aborting anywhere, behave as atomic claims: a move either shows readers
      nothing new or is the commit that performs the whole claim, and each caller is told what the
      atomic claim answers at that moment. The checks on the outbox row never fail. */
  lemma NextRefinesAtomicClaim(db: Db, x: nat, m: Move)
    requires Inv(db) && Enabled(db, x, m)
    ensures var tx, db', r := db.open[x], Next(db, x, m), Answer(db, x, m);
            var id := if tx.phase.Written? then tx.phase.id else 0;
            var atomic := AtomicClaim(Visible(db), tx.kind, tx.event, tx.eventType, id);
            && (Visible(db') != Visible(db) ==>
                  Visible(db') == atomic.0 && atomic.1 && m.Commit? && r != Claimed(false))
            && (r == Claimed(true) ==> (Visible(db'), true) == atomic)
            && (r == Claimed(false) ==> (Visible(db'), false) == atomic && tx.event in db.ledger)
            && (r == Error && m != Commit(ErrApplied) ==> Visible(db') == Visible(db))
            && (r != Continue <==> x !in db'.open)
            && (m.Write? && tx.kind.Accept? ==> r == Continue)
  {
  }

  /** An INSERT that waits for the holder of its key is decided by how the holder ends: it finds the row
      if that was committed, and inserts its own if not. */
  lemma HolderDecides(db: Db, x: nat, y: nat, m: Move)
    requires Inv(db) && x in db.open && db.open[x].phase.Begun? && x != y
    requires Holds(db, y, db.open[x].event) && Enabled(db, y, m) && y !in Next(db, y, m).open
    ensures !Enabled(db, x, InsertLedger)
    ensures var db' := Next(db, y, m);
            && Enabled(db', x, InsertLedger)
            && Answer(db', x, InsertLedger) == if m.Commit? && !m.fault.ErrLost? then Claimed(false) else Continue
  {
    var db' := Next(db, y, m);
    forall z | z in db'.open && z != x
      ensures !Holds(db', z, db'.open[x].event)
    {
      assert z in db.open && z != y;
    }
  }

  // ---------------------------------------------------------------- the outbox as a queue

  /** SELECT ... WHERE status = 'pending' ORDER BY id LIMIT 1, as a position. */
  function NextPending(outbox: seq<OutboxRow>): (r: Option<nat>)
    ensures r.None? ==> forall i :: 0 <= i < |outbox| ==> !outbox[i].status.Pending?
    ensures r.Some? ==> r.value < |outbox| && outbox[r.value].status.Pending? &&
                        forall i :: 0 <= i < |outbox| && outbox[i].status.Pending? ==>
                          outbox[r.value].id <= outbox[i].id
  {
    if outbox == [] then None else
    var n := |outbox| - 1;
    var earlier := NextPending(outbox[..n]);
    if !outbox[n].status.Pending? then earlier
    else if earlier.None? || outbox[n].id < outbox[earlier.value].id then Some(n)
    else earlier
  }

  /** UPDATE ... SET status = 'published' WHERE event_id = $2 AND status = 'pending'. */
  function MarkPublished(outbox: seq<OutboxRow>, event: string): (r: seq<OutboxRow>)
    ensures |r| == |outbox|
    ensures forall i :: 0 <= i < |r| ==>
              r[i] == if outbox[i].event == event && outbox[i].status.Pending?
                      then outbox[i].(status := Published) else outbox[i]
  {
    if outbox == [] then [] else
    var n := |outbox| - 1;
    var row := outbox[n];
    MarkPublished(outbox[..n], event) +
    [if row.event == event && row.status.Pending? then row.(status := Published) else row]
  }

  predicate IsPending(outbox: seq<OutboxRow>, event: string) {
    exists i :: 0 <= i < |outbox| && outbox[i].event == event && outbox[i].status.Pending?
  }

  // ---------------------------------------------------------------- runs of the database

  /** A run of the database: moves of any transactions, begins, and marks by publishers. */
  datatype Action =
    | Start(x: nat, kind: Kind, event: string, eventType: string)
    | Step(x: nat, move: Move)
    | Mark(event: string)

  predicate CanDo(db: Db, a: Action) {
    match a
    case Start(x, _, _, _) => x !in db.open
    case Step(x, m) => Enabled(db, x, m)
    case Mark(_) => true
  }

  /** An action that is not possible in this state leaves it unchanged. */
  function Do(db: Db, a: Action): Db {
    if !CanDo(db, a) then db else
    match a
    case Start(x, kind, event, ty) => Begin(db, x, kind, event, ty)
    case Step(x, m) => Next(db, x, m)
    case Mark(event) => db.(outbox := MarkPublished(db.outbox, event))
  }

  function DoAll(db: Db, acts: seq<Action>): Db
    decreases |acts|
  {
    if acts == [] then db else DoAll(Do(db, acts[0]), acts[1..])
  }

  /** The number of calls in the run that were told they claimed the event. */
  function Wins(db: Db, acts: seq<Action>, event: string): nat
    decreases |acts|
  {
    if acts == [] then 0 else
    (if acts[0].Step? && CanDo(db, acts[0]) && db.open[acts[0].x].event == event &&
        Answer(db, acts[0].x, acts[0].move) == Claimed(true) then 1 else 0)
    + Wins(Do(db, acts[0]), acts[1..], event)
  }

  lemma DoKeepsInv(db: Db, a: Action)
    requires Inv(db)
    ensures Inv(Do(db, a))
  {
    if CanDo(db, a) {
      match a
      case Start(x, kind, event, ty) => BeginKeepsInv(db, x, kind, event, ty);
      case Step(x, m) => NextKeepsInv(db, x, m);
      case Mark(event) => SameRowsKeepInv(db, MarkPublished(db.outbox, event));
    }
  }

  lemma {:induction false} DoAllKeepsInv(db: Db, acts: seq<Action>)
    requires Inv(db)
    ensures Inv(DoAll(db, acts))
    decreases |acts|
  {
    if acts != [] {
      DoKeepsInv(db, acts[0]);
      DoAllKeepsInv(Do(db, acts[0]), acts[1..]);
    }
  }

  /** In any run, however its transactions interleave and abort, at most one call wins an event, none
      wins it once its row is committed, and a win leaves the row committed for good. */
  lemma {:induction false} AtMostOneWinner(db: Db, acts: seq<Action>, event: string)
    requires Inv(db)
    ensures Wins(db, acts, event) <= (if event in db.ledger then 0 else 1)
    ensures event in db.ledger || Wins(db, acts, event) == 1 ==> event in DoAll(db, acts).ledger
    decreases |acts|
  {
    if acts != [] {
      var a := acts[0];
      DoKeepsInv(db, a);
      if a.Step? && CanDo(db, a) {
        NextRefinesAtomicClaim(db, a.x, a.move);
      }
      AtMostOneWinner(Do(db, a), acts[1..], event);
    }
  }

  /** Accepted ledger rows and outbox rows correspond one to one in every reachable database:
      an accept's two rows appear together or not at all, and ids are never shared. */
  lemma AcceptedIffInOutbox(acts: seq<Action>, event: string)
    ensures var db := DoAll(EMPTY_DB, acts);
            && ((event in db.ledger && db.ledger[event].status.Accepted?) <==> InOutbox(db.outbox, event))
            && EventsDistinct(db.outbox)
            && (forall i, j :: 0 <= i < j < |db.outbox| ==> db.outbox[i].id != db.outbox[j].id)
  {
    DoAllKeepsInv(EMPTY_DB, acts);
  }

  /** Every committed row is accepted and has its outbox row, or is processed and has none. */
  predicate RowsByKind(db: Db) {
    forall e :: e in db.ledger ==>
      || (db.ledger[e].status.Accepted? && InOutbox(db.outbox, e))
      || (db.ledger[e].status.Processed? && !InOutbox(db.outbox, e))
  }

  lemma RowsByKindStep(db: Db, a: Action)
    requires Inv(db) && RowsByKind(db)
    ensures RowsByKind(Do(db, a))
  {
    DoKeepsInv(db, a);
    var db' := Do(db, a);
    forall e | e in db'.ledger
      ensures db'.ledger[e].status.Accepted? || db'.ledger[e].status.Processed?
    {
      assert e in db.ledger ==> db.ledger[e].status.Accepted? || db.ledger[e].status.Processed?;
    }
    forall e | e in db'.ledger && InOutbox(db'.outbox, e)
      ensures db'.ledger[e].status.Accepted?
    {
      var i :| 0 <= i < |db'.outbox| && db'.outbox[i].event == e;
    }
  }

  lemma {:induction false} RunKeepsRowsByKind(db: Db, acts: seq<Action>)
    requires Inv(db) && RowsByKind(db)
    ensures RowsByKind(DoAll(db, acts))
    decreases |acts|
  {
    if acts != [] {
      DoKeepsInv(db, acts[0]);
      RowsByKindStep(db, acts[0]);
      RunKeepsRowsByKind(Do(db, acts[0]), acts[1..]);
    }
  }

  /** In every reachable database each committed ledger row is accepted, with one outbox row, or processed, with
      none: no reader ever sees a row that is processing or failed. */
  lemma CommittedRows(acts: seq<Action>, event: string)
    ensures var db := DoAll(EMPTY_DB, acts);
            event in db.ledger ==>
              || (db.ledger[event].status == Accepted && InOutbox(db.outbox, event))
              || (db.ledger[event].status == Processed && !InOutbox(db.outbox, event))
  {
    RunKeepsRowsByKind(EMPTY_DB, acts);
  }

  // ---------------------------------------------------------------- one call under a plan

  /** Everything the environment decides during one `AcceptEvent` or `ProcessEvent` call: which statement
      fails, the callback's verdict, and what other transactions do just before each of our statements. */
  datatype Plan = Plan(
    insertFails: bool, writeFails: bool, fnOk: bool, commit: Fault,
    beforeInsert: seq<Action>, beforeWrite: seq<Action>, beforeCommit: seq<Action>)
  {
    function Gap(phase: Phase): seq<Action> {
      match phase
      case Begun => beforeInsert
      case Holding => beforeWrite
      case Written(_) => beforeCommit
    }

    function MoveAt(phase: Phase): Move {
      match phase
      case Begun => if insertFails then Abort else InsertLedger
      case Holding => if writeFails then Abort else Write(fnOk)
      case Written(_) => Commit(commit)
    }

    /** The same plan with more actions of others in front of those before the statement at `phase`. */
    function Before(phase: Phase, acts: seq<Action>): Plan {
      match phase
      case Begun => this.(beforeInsert := acts + beforeInsert)
      case Holding => this.(beforeWrite := acts + beforeWrite)
      case Written(_) => this.(beforeCommit := acts + beforeCommit)
    }

    /** The same plan once the first `n` actions of others before the statement at `phase` are done. */
    function Past(phase: Phase, n: nat): Plan
      requires n <= |Gap(phase)|
    {
      match phase
      case Begun => this.(beforeInsert := beforeInsert[n..])
      case Holding => this.(beforeWrite := beforeWrite[n..])
      case Written(_) => this.(beforeCommit := beforeCommit[n..])
    }

    /** The same plan with the move at `phase` made at once, and being `m`; a transaction that stops before
        its commit has the effect of a commit that is lost. */
    function Deciding(phase: Phase, m: Move): Plan {
      match phase
      case Begun => this.(beforeInsert := [], insertFails := m.Abort?)
      case Holding => this.(beforeWrite := [], writeFails := m.Abort?, fnOk := m.Write? && m.fnOk)
      case Written(_) => this.(beforeCommit := [], commit := if m.Commit? then m.fault else ErrLost)
    }
  }

  function Remaining(phase: Phase): nat {
    match phase
    case Begun => 3
    case Holding => 2
    case Written(_) => 1
  }

  /** The two plans are the same for every statement from those with this many to go. */
  ghost predicate Agree(p: Plan, p': Plan, remaining: nat) {
    forall phase: Phase :: Remaining(phase) <= remaining ==>
      p.Gap(phase) == p'.Gap(phase) && p.MoveAt(phase) == p'.MoveAt(phase)
  }

  predicate Mine(a: Action, x: nat) {
    !a.Mark? && a.x == x
  }

  /** The actions of everyone but transaction `x`. */
  function OthersDo(db: Db, x: nat, acts: seq<Action>): Db {
    if acts == [] then db else
    var before, a := OthersDo(db, x, acts[..|acts| - 1]), acts[|acts| - 1];
    if Mine(a, x) then before else Do(before, a)
  }

  lemma OtherKeeps(db: Db, x: nat, a: Action)
    requires !Mine(a, x)
    ensures x in Do(db, a).open <==> x in db.open
    ensures x in db.open ==> Do(db, a).open[x] == db.open[x]
    ensures forall e :: e in db.ledger ==> e in Do(db, a).ledger
  {
  }

  lemma {:induction false} OthersKeep(db: Db, x: nat, acts: seq<Action>)
    ensures x in OthersDo(db, x, acts).open <==> x in db.open
    ensures x in db.open ==> OthersDo(db, x, acts).open[x] == db.open[x]
    ensures Inv(db) ==> Inv(OthersDo(db, x, acts))
    ensures forall e :: e in db.ledger ==> e in OthersDo(db, x, acts).ledger
  {
    if acts != [] {
      var before, a := OthersDo(db, x, acts[..|acts| - 1]), acts[|acts| - 1];
      OthersKeep(db, x, acts[..|acts| - 1]);
      if !Mine(a, x) {
        OtherKeeps(before, x, a);
        if Inv(db) { DoKeepsInv(before, a); }
      }
    }
  }

  /** Our next statement after the others have moved; a lock that is still held then never comes free
      for this call, which gives up with an error. */
  function MoveNow(db: Db, x: nat, plan: Plan): (m: Move)
    requires x in db.open
    ensures Enabled(db, x, m)
  {
    var m := plan.MoveAt(db.open[x].phase);
    if Enabled(db, x, m) then m else Abort
  }

  /** The transaction run to its end. */
  function RunTx(db: Db, x: nat, plan: Plan): (Db, Reply)
    requires x in db.open
    decreases Remaining(db.open[x].phase)
  {
    OthersKeep(db, x, plan.Gap(db.open[x].phase));
    var db0 := OthersDo(db, x, plan.Gap(db.open[x].phase));
    var m := MoveNow(db0, x, plan);
    if Answer(db0, x, m) == Continue then RunTx(Next(db0, x, m), x, plan)
    else (Next(db0, x, m), Answer(db0, x, m))
  }

  /** The call after its next move, made in database `db`. */
  function AfterMove(db: Db, x: nat, m: Move, plan: Plan): (Db, Reply)
    requires Enabled(db, x, m)
  {
    if Answer(db, x, m) == Continue then RunTx(Next(db, x, m), x, plan) else (Next(db, x, m), Answer(db, x, m))
  }

  lemma RunTxStep(db: Db, x: nat, plan: Plan)
    requires x in db.open
    ensures var db0 := OthersDo(db, x, plan.Gap(db.open[x].phase));
            x in db0.open && RunTx(db, x, plan) == AfterMove(db0, x, MoveNow(db0, x, plan), plan)
  {
    OthersKeep(db, x, plan.Gap(db.open[x].phase));
  }

  lemma {:induction false} AgreeRuns(db: Db, x: nat, p: Plan, p': Plan)
    requires x in db.open && Agree(p, p', Remaining(db.open[x].phase))
    ensures RunTx(db, x, p) == RunTx(db, x, p')
    decreases Remaining(db.open[x].phase)
  {
    OthersKeep(db, x, p.Gap(db.open[x].phase));
    var db0 := OthersDo(db, x, p.Gap(db.open[x].phase));
    var m := MoveNow(db0, x, p);
    if Answer(db0, x, m) == Continue {
      AgreeRuns(Next(db0, x, m), x, p, p');
    }
  }

  lemma {:induction false} OthersDoConcat(db: Db, x: nat, a: seq<Action>, b: seq<Action>)
    ensures OthersDo(db, x, a + b) == OthersDo(OthersDo(db, x, a), x, b)
  {
    if b == [] {
      assert a + b == a;
    } else {
      assert (a + b)[..|a + b| - 1] == a + b[..|b| - 1];
      OthersDoConcat(db, x, a, b[..|b| - 1]);
    }
  }

  lemma PastHere(phase: Phase, plan: Plan, n: nat)
    requires n <= |plan.Gap(phase)|
    ensures plan.Past(phase, n).Gap(phase) == plan.Gap(phase)[n..]
    ensures plan.Past(phase, n).MoveAt(phase) == plan.MoveAt(phase)
    ensures Agree(plan, plan.Past(phase, n), Remaining(phase) - 1)
  {
  }

  lemma SameFromHere(db: Db, x: nat, p: Plan, p': Plan)
    requires x in db.open && Agree(p, p', Remaining(db.open[x].phase) - 1)
    requires p.MoveAt(db.open[x].phase) == p'.MoveAt(db.open[x].phase)
    ensures MoveNow(db, x, p) == MoveNow(db, x, p')
    ensures AfterMove(db, x, MoveNow(db, x, p), p) == AfterMove(db, x, MoveNow(db, x, p), p')
  {
    var m := MoveNow(db, x, p);
    if Answer(db, x, m) == Continue {
      AgreeRuns(Next(db, x, m), x, p, p');
    }
  }

  /** What others do before a statement may as well have been done already. */
  lemma PastRuns(db: Db, x: nat, plan: Plan, n: nat)
    requires x in db.open && n <= |plan.Gap(db.open[x].phase)|
    ensures var phase := db.open[x].phase; var db0 := OthersDo(db, x, plan.Gap(phase)[..n]);
            x in db0.open && RunTx(db, x, plan) == RunTx(db0, x, plan.Past(phase, n))
  {
    var phase := db.open[x].phase;
    var gap, later := plan.Gap(phase), plan.Past(phase, n);
    OthersKeep(db, x, gap[..n]);
    var db0 := OthersDo(db, x, gap[..n]);
    var db1 := OthersDo(db, x, gap);
    OthersDoConcat(db, x, gap[..n], gap[n..]);
    TakeDrop(gap, n);
    OthersKeep(db, x, gap);
    PastHere(phase, plan, n);
    SameFromHere(db1, x, plan, later);
    RunTxStep(db, x, plan);
    RunTxStep(db0, x, later);
  }

  lemma PastBefore(phase: Phase, plan: Plan, acts: seq<Action>)
    ensures acts <= plan.Before(phase, acts).Gap(phase) && plan.Before(phase, acts).Past(phase, |acts|) == plan
  {
    assert (acts + plan.Gap(phase))[|acts|..] == plan.Gap(phase);
  }

  lemma PastAgree(phase: Phase, p: Plan, p': Plan, n: nat)
    requires n <= |p.Gap(phase)| && Agree(p, p', Remaining(phase))
    ensures n <= |p'.Gap(phase)| && Agree(p.Past(phase, n), p'.Past(phase, n), Remaining(phase))
  {
  }

  /** The two moves change the database alike and are answered alike. */
  predicate SameMove(db: Db, x: nat, m: Move, m': Move)
    requires Enabled(db, x, m) && Enabled(db, x, m')
  {
    Next(db, x, m) == Next(db, x, m') && Answer(db, x, m) == Answer(db, x, m')
  }

  /** The plan that makes the move `m` now makes it, and agrees with the old one from then on. */
  lemma DecidedMove(db: Db, x: nat, plan: Plan, m: Move)
    requires Enabled(db, x, m)
    ensures var phase := db.open[x].phase; var plan' := plan.Deciding(phase, m);
            && plan'.Gap(phase) == [] && Agree(plan', plan, Remaining(phase) - 1)
            && SameMove(db, x, m, MoveNow(db, x, plan'))
  {
  }

  /** The database when the transaction's last statement runs. */
  function BeforeLast(db: Db, x: nat, plan: Plan): Db
    requires x in db.open
    decreases Remaining(db.open[x].phase)
  {
    OthersKeep(db, x, plan.Gap(db.open[x].phase));
    var db0 := OthersDo(db, x, plan.Gap(db.open[x].phase));
    var m := MoveNow(db0, x, plan);
    if Answer(db0, x, m) == Continue then BeforeLast(Next(db0, x, m), x, plan) else db0
  }

  /** The whole call is one atomic claim at its last statement, whatever other transactions did before:
      true comes with the whole claim, false only when another row is already committed, and an error
      shows readers nothing unless the commit was applied and only its acknowledgement was lost. */
  lemma {:induction false} RunTxRefinesAtomicClaim(db: Db, x: nat, plan: Plan)
    requires Inv(db) && x in db.open
    ensures var (db', r) := RunTx(db, x, plan); var last := BeforeLast(db, x, plan);
            && Inv(db') && x !in db'.open && r != Continue
            && x in last.open && last.open[x] == db.open[x].(phase := last.open[x].phase)
            && var tx := last.open[x];
               var id := if tx.phase.Written? then tx.phase.id else 0;
               var atomic := AtomicClaim(Visible(last), tx.kind, tx.event, tx.eventType, id);
               && (r == Claimed(true) ==> (Visible(db'), true) == atomic)
               && (r == Claimed(false) ==> (Visible(db'), false) == atomic)
               && (r == Error ==>
                     Visible(db') == Visible(last) || (plan.commit.ErrApplied? && (Visible(db'), true) == atomic))
    decreases Remaining(db.open[x].phase)
  {
    OthersKeep(db, x, plan.Gap(db.open[x].phase));
    var db0 := OthersDo(db, x, plan.Gap(db.open[x].phase));
    var m := MoveNow(db0, x, plan);
    NextRefinesAtomicClaim(db0, x, m);
    NextKeepsInv(db0, x, m);
    if Answer(db0, x, m) == Continue {
      RunTxRefinesAtomicClaim(Next(db0, x, m), x, plan);
    }
  }

  /** What a call that was told it claimed the event has added to what the others left. */
  ghost predicate Added(last: Db, db': Db, kind: Kind, event: string, eventType: string) {
    match kind
    case Accept(payload) =>
      && db'.ledger == last.ledger[event := LedgerRow(eventType, Accepted)]
      && |db'.outbox| == |last.outbox| + 1
      && var row := db'.outbox[|last.outbox|];
         row == OutboxRow(row.id, event, eventType, payload, Pending) && db'.outbox == last.outbox + [row]
    case Process =>
      db'.ledger == last.ledger[event := LedgerRow(eventType, Processed)] && db'.outbox == last.outbox
  }

  /** Nothing goes wrong with the call's own statements from this phase on, nor with its callback. */
  predicate NoTrouble(phase: Phase, kind: Kind, plan: Plan) {
    && (phase.Begun? ==> !plan.insertFails)
    && (!phase.Written? ==> !plan.writeFails && (kind.Process? ==> plan.fnOk))
    && plan.commit.NoFault?
  }

  /** The wait for the key ended in an error: another transaction still held it. */
  ghost predicate WaitFailed(db: Db, x: nat, plan: Plan)
    requires x in db.open
  {
    db.open[x].phase.Begun? && (OthersKeep(db, x, plan.beforeInsert); Blocked(OthersDo(db, x, plan.beforeInsert), x))
  }

  /** What each answer means: true, that nothing went wrong and the rows of the kind have been added; false, that
      the event has a committed row and nothing was changed; an error, that something did go wrong. */
  lemma {:induction false} ReplyMeans(db: Db, x: nat, plan: Plan)
    requires Inv(db) && x in db.open
    ensures var (db', r) := RunTx(db, x, plan);
            var last, tx := BeforeLast(db, x, plan), db.open[x];
            && (r == Claimed(true) ==>
                  Added(last, db', tx.kind, tx.event, tx.eventType) && NoTrouble(tx.phase, tx.kind, plan))
            && (r == Claimed(false) ==> tx.event in last.ledger && Visible(db') == Visible(last) && !plan.insertFails)
            && (r == Error ==> !NoTrouble(tx.phase, tx.kind, plan) || WaitFailed(db, x, plan))
    decreases Remaining(db.open[x].phase)
  {
    OthersKeep(db, x, plan.Gap(db.open[x].phase));
    var db0 := OthersDo(db, x, plan.Gap(db.open[x].phase));
    var m := MoveNow(db0, x, plan);
    NextRefinesAtomicClaim(db0, x, m);
    NextKeepsInv(db0, x, m);
    if Answer(db0, x, m) == Continue {
      ReplyMeans(Next(db0, x, m), x, plan);
    }
  }

  predicate Untroubled(plan: Plan) {
    && !plan.insertFails && !plan.writeFails && plan.fnOk && plan.commit.NoFault?
    && plan.beforeInsert == plan.beforeWrite == plan.beforeCommit == []
  }

  /** Some open transaction has inserted the event and not finished. */
  predicate Locked(db: Db, event: string) {
    exists y <- db.open :: Holds(db, y, event)
  }

  /** From the held row on, an untroubled call writes and commits. */
  lemma HeldRowCommits(db: Db, x: nat, plan: Plan)
    requires Inv(db) && x in db.open && db.open[x].phase.Holding? && Untroubled(plan)
    ensures var tx := db.open[x];
            var (db', r) := RunTx(db, x, plan);
            (Visible(db'), r) ==
            (AtomicClaim(Visible(db), tx.kind, tx.event, tx.eventType, if tx.kind.Accept? then db.nextId else 0).0,
             Claimed(true))
  {
    NextRefinesAtomicClaim(db, x, Write(true));
    var db' := Next(db, x, Write(true));
    assert RunTx(db, x, plan) == RunTx(db', x, plan);
  }

  lemma BeginUnblocked(db: Db, x: nat, kind: Kind, event: string, eventType: string)
    requires x !in db.open && !Locked(db, event)
    ensures !Blocked(Begin(db, x, kind, event, eventType), x)
  {
    var db0 := Begin(db, x, kind, event, eventType);
    forall y | y in db0.open && y != x
      ensures !Holds(db0, y, event)
    {
      assert !Holds(db, y, event);
    }
  }

  /** Without faults, and with nobody holding the key, a call is answered as the atomic claim on the
      database it found. */
  lemma UntroubledAnswers(db: Db, x: nat, kind: Kind, event: string, eventType: string, plan: Plan)
    requires Inv(db) && x !in db.open && Untroubled(plan) && !Locked(db, event)
    ensures var (db', r) := RunTx(Begin(db, x, kind, event, eventType), x, plan);
            var atomic := AtomicClaim(Visible(db), kind, event, eventType, if kind.Accept? then db.nextId else 0);
            (Visible(db'), r) == (atomic.0, Claimed(atomic.1))
  {
    var db0 := Begin(db, x, kind, event, eventType);
    BeginKeepsInv(db, x, kind, event, eventType);
    BeginUnblocked(db, x, kind, event, eventType);
    if event !in db.ledger {
      InsertKeepsInv(db0, x);
      HeldRowCommits(Next(db0, x, InsertLedger), x, plan);
    }
  }
}
