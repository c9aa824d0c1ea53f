/** The webhook handler from the built job to its HTTP answer (cmd/api/handlers.go:97-161). */
module Api {
  import opened Engine
  import opened Store
  import Ledger

  /** What the environment does during one webhook call: the transaction's plan, then what others do before
      the status is read, and the fault of that read. */
  datatype Plan = Plan(tx: Ledger.Plan, beforeStatus: seq<Ledger.Action>, status: Fault)

  /** The answer of a call that was told it did not claim the event. */
  function RespondStatus(db: Ledger.Db, x: nat, plan: Plan): (Ledger.Db, int) {
    (Ledger.OthersDo(db, x, plan.beforeStatus), if plan.status.NoFault? then 204 else 500)
  }

  /** The answer of a call whose transaction is open. */
  function Respond(db: Ledger.Db, x: nat, plan: Plan): (Ledger.Db, int)
    requires x in db.open
  {
    var (db', reply) := Ledger.RunTx(db, x, plan.tx);
    match reply
    case Claimed(true) => (db', 204)
    case Claimed(false) => RespondStatus(db', x, plan)
    case _ => (db', 500)
  }

  predicate Untroubled(plan: Plan) {
    Ledger.Untroubled(plan.tx) && plan.beforeStatus == [] && plan.status.NoFault?
  }

  /** The ledger as a request finds it once its transaction has begun. */
  function Received(db: Ledger.Db, x: nat, job: Job): Ledger.Db
    requires x !in db.open
  {
    Ledger.Begin(db, x, Ledger.Accept(Encoded(job)), job.stripeEventId, job.eventType)
  }

  /** Exactly the accepted row and the pending outbox row of the job have been added. */
  predicate Adds(db: Ledger.Db, db': Ledger.Db, job: Job) {
    && job.stripeEventId in db'.ledger
    && db'.ledger[job.stripeEventId] == Ledger.LedgerRow(job.eventType, Ledger.Accepted)
    && |db'.outbox| == |db.outbox| + 1
    && var row := db'.outbox[|db.outbox|];
       row == Ledger.OutboxRow(row.id, job.stripeEventId, job.eventType, Encoded(job), Ledger.Pending)
  }

  lemma AnswerKeepsInv(db: Ledger.Db, x: nat, job: Job, plan: Plan)
    requires x !in db.open && Ledger.Inv(db)
    ensures var db' := Respond(Received(db, x, job), x, plan).0; Ledger.Inv(db') && x !in db'.open
  {
    var db0 := Received(db, x, job);
    Ledger.BeginKeepsInv(db, x, Ledger.Accept(Encoded(job)), job.stripeEventId, job.eventType);
    Ledger.RunTxRefinesAtomicClaim(db0, x, plan.tx);
    Ledger.OthersKeep(Ledger.RunTx(db0, x, plan.tx).0, x, plan.beforeStatus);
  }

  /** 204 is only answered once the event's ledger row is committed. */
  lemma AnswerMeans(db: Ledger.Db, x: nat, job: Job, plan: Plan)
    requires x !in db.open && Ledger.Inv(db)
    ensures var (db', code) := Respond(Received(db, x, job), x, plan);
            && (code == 204 || code == 500)
            && (code == 204 ==> job.stripeEventId in db'.ledger)
  {
    var db0 := Received(db, x, job);
    Ledger.BeginKeepsInv(db, x, Ledger.Accept(Encoded(job)), job.stripeEventId, job.eventType);
    Ledger.RunTxRefinesAtomicClaim(db0, x, plan.tx);
    var (db1, reply) := Ledger.RunTx(db0, x, plan.tx);
    Ledger.OthersKeep(db1, x, plan.beforeStatus);
  }

  /** An untroubled call is answered 204, and adds the event if it is new. */
  lemma UntroubledAnswers(db: Ledger.Db, x: nat, job: Job, plan: Plan)
    requires x !in db.open && Ledger.Inv(db) && Untroubled(plan) && !Ledger.Locked(db, job.stripeEventId)
    ensures var (db', code) := Respond(Received(db, x, job), x, plan);
            code == 204 && (job.stripeEventId !in db.ledger ==> Adds(db, db', job))
  {
    Ledger.UntroubledAnswers(db, x, Ledger.Accept(Encoded(job)), job.stripeEventId, job.eventType, plan.tx);
  }

  class App {
    const pg: Postgres

    constructor (pg: Postgres)
      ensures this.pg == pg
    {
      this.pg := pg;
    }

    /** From `AcceptEvent` on. */
    method Answer(x: nat, job: Job, plan: Plan) returns (code: int)
      requires x !in pg.open
      modifies pg`ledger, pg`outbox, pg`nextId, pg`open
      ensures (pg.Db(), code) == Respond(Received(old(pg.Db()), x, job), x, plan)
    {
      var claimed := pg.AcceptEvent(x, job.stripeEventId, job.eventType, Encoded(job), plan.tx);
      if claimed.Err? {
        return 500;
      }
      if claimed.value {
        return 204;
      }
      pg.OtherTransactions(x, plan.beforeStatus);
      var es := pg.Status(job.stripeEventId, plan.status);
      if es.Err? {
        return 500;
      }
      return 204;
    }

    /** 204 is only answered once the event's ledger row is committed, by this call or another, whatever
        others do meanwhile; a call that met no fault and no held lock is always answered 204. */
    method HandleStripeWebhook(x: nat, job: Job, marshalOk: bool, plan: Plan) returns (code: int)
      requires x !in pg.open && Ledger.Inv(pg.Db())
      modifies pg`ledger, pg`outbox, pg`nextId, pg`open
      ensures Ledger.Inv(pg.Db()) && x !in pg.open
      ensures code == 204 || code == 500
      ensures marshalOk ==> (pg.Db(), code) == Respond(Received(old(pg.Db()), x, job), x, plan)
      ensures code == 204 ==> job.stripeEventId in pg.ledger
      ensures code == 204 && pg.ledger[job.stripeEventId].status.Accepted? ==>
                Ledger.InOutbox(pg.outbox, job.stripeEventId)
      ensures !marshalOk ==> code == 500 && pg.Db() == old(pg.Db())
      ensures marshalOk && Untroubled(plan) && !old(Ledger.Locked(pg.Db(), job.stripeEventId)) ==>
                code == 204 && (job.stripeEventId !in old(pg.ledger) ==> Adds(old(pg.Db()), pg.Db(), job))
    {
      if !marshalOk {
        return 500;
      }
      AnswerKeepsInv(pg.Db(), x, job, plan);
      AnswerMeans(pg.Db(), x, job, plan);
      if Untroubled(plan) && !Ledger.Locked(pg.Db(), job.stripeEventId) {
        UntroubledAnswers(pg.Db(), x, job, plan);
      }
      code := Answer(x, job, plan);
    }
  }
}
