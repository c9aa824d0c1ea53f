/** The webhook handler's method and the pipeline: a run of one webhook call, whatever other handlers and the
    publishers do between its statements, is `Api.App.HandleStripeWebhook` under some plan, and the method under
    a plan is what every run does that follows the plan. */
module WebhookRefinement {
  import opened Engine
  import opened Pipeline
  import opened Runs
  import opened Sequences
  import Ledger
  import Api

  predicate Foreign(a: Action, h: nat) {
    !((a.Receive? || a.Transact? || a.CheckStatus?) && a.h == h)
  }

  /** What the action does to the ledger and the outbox, as an action of another session. */
  function Moves(s: State, a: Action): seq<Ledger.Action>
    requires Enabled(s, a)
  {
    match a
    case Receive(h, job) => [Ledger.Start(h, Ledger.Accept(Encoded(job)), job.stripeEventId, job.eventType)]
    case Transact(h, m) => [Ledger.Step(h, m)]
    case MarkPublished(q, fault) => if fault.ErrLost? then [] else [Ledger.Mark(s.publishers[q].event)]
    case _ => []
  }

  lemma ForeignStep(s: State, a: Action, h: nat)
    requires Enabled(s, a) && Foreign(a, h)
    ensures Do(s, a).db == Ledger.OthersDo(s.db, h, Moves(s, a))
    ensures h in Do(s, a).checking <==> h in s.checking
    ensures h in s.checking ==> Do(s, a).checking[h] == s.checking[h]
    ensures s.hist.answered <= Do(s, a).hist.answered
  {
    if Moves(s, a) != [] {
      assert Moves(s, a)[..0] == [];
    }
  }

  /** The call has received its event and has not answered yet. */
  predicate InCall(s: State, h: nat) {
    h in s.db.open || h in s.checking
  }

  function EventOf(s: State, h: nat): string
    requires InCall(s, h)
  {
    if h in s.db.open then s.db.open[h].event else s.checking[h]
  }

  /** The answer that the call's own action gives, if it is the last one. */
  function Code(s: State, a: Action): Option<int>
    requires Enabled(s, a)
  {
    match a
    case Transact(h, m) =>
      (match Ledger.Answer(s.db, h, m)
       case Claimed(true) => Some(204)
       case Error => Some(500)
       case _ => None)
    case CheckStatus(h, fault) => Some(if fault.NoFault? then 204 else 500)
    case _ => None
  }

  /** The pipeline records the event as answered exactly when the answer is 204. */
  lemma AnsweredIff204(s: State, a: Action, h: nat)
    requires Enabled(s, a) && !Foreign(a, h) && InCall(s, h) && (a.CheckStatus? ==> h !in s.db.open)
    ensures NextAnswered(s, a) == s.hist.answered + (if Code(s, a) == Some(204) then {EventOf(s, h)} else {})
  {
  }

  // ---------------------------------------------------------------- runs of one call

  /** A run from inside a call to its answer, with any actions of others in between. */
  ghost predicate CallRun(r: Rules, s: State, h: nat, acts: seq<Action>, s': State, code: int)
    decreases |acts|
  {
    acts != [] && InCall(s, h) && Allowed(r, s, acts[0]) &&
    var a, s1 := acts[0], Do(s, acts[0]);
    if !Foreign(a, h) && Code(s, a).Some? then acts == [a] && s' == s1 && code == Code(s, a).value
    else CallRun(r, s1, h, acts[1..], s', code)
  }

  function Gap(s: State, h: nat, plan: Api.Plan): seq<Ledger.Action>
    requires InCall(s, h)
  {
    if h in s.db.open then plan.tx.Gap(s.db.open[h].phase) else plan.beforeStatus
  }

  function Past(s: State, h: nat, plan: Api.Plan, n: nat): Api.Plan
    requires InCall(s, h) && n <= |Gap(s, h, plan)|
  {
    if h in s.db.open then plan.(tx := plan.tx.Past(s.db.open[h].phase, n))
    else plan.(beforeStatus := plan.beforeStatus[n..])
  }

  /** The call's own action is what the plan asks for, or has the same effect and answer. */
  predicate Decides(s: State, h: nat, a: Action, plan: Api.Plan)
    requires InCall(s, h) && Enabled(s, a) && !Foreign(a, h)
  {
    match a
    case Transact(_, m) => Ledger.SameMove(s.db, h, m, Ledger.MoveNow(s.db, h, plan.tx))
    case CheckStatus(_, fault) => h !in s.db.open && fault == plan.status
    case _ => false
  }

  /** The same, with the call's own moves going as the plan says, and with the others doing just what the
      plan lists before each of them. */
  ghost predicate CallFollows(r: Rules, s: State, h: nat, acts: seq<Action>, plan: Api.Plan, s': State, code: int)
    decreases |acts|
  {
    acts != [] && InCall(s, h) && Allowed(r, s, acts[0]) &&
    var a, s1 := acts[0], Do(s, acts[0]);
    if Foreign(a, h) then
      Moves(s, a) <= Gap(s, h, plan) && CallFollows(r, s1, h, acts[1..], Past(s, h, plan, |Moves(s, a)|), s', code)
    else
      Gap(s, h, plan) == [] && Decides(s, h, a, plan) &&
      if Code(s, a).Some? then acts == [a] && s' == s1 && code == Code(s, a).value
      else CallFollows(r, s1, h, acts[1..], plan, s', code)
  }

  /** What the method does from this point of the call on. */
  function Onward(s: State, h: nat, plan: Api.Plan): (Ledger.Db, int)
    requires InCall(s, h)
  {
    if h in s.db.open then Api.Respond(s.db, h, plan) else Api.RespondStatus(s.db, h, plan)
  }

  lemma RespondWaits(db: Ledger.Db, h: nat, plan: Api.Plan, n: nat)
    requires h in db.open && n <= |plan.tx.Gap(db.open[h].phase)|
    ensures var phase := db.open[h].phase; var db0 := Ledger.OthersDo(db, h, plan.tx.Gap(phase)[..n]);
            && h in db0.open && db0.open[h] == db.open[h]
            && Api.Respond(db0, h, plan.(tx := plan.tx.Past(phase, n))) == Api.Respond(db, h, plan)
  {
    Ledger.OthersKeep(db, h, plan.tx.Gap(db.open[h].phase)[..n]);
    Ledger.PastRuns(db, h, plan.tx, n);
  }

  lemma StatusWaits(db: Ledger.Db, h: nat, plan: Api.Plan, n: nat)
    requires n <= |plan.beforeStatus|
    ensures Api.RespondStatus(Ledger.OthersDo(db, h, plan.beforeStatus[..n]), h,
                              plan.(beforeStatus := plan.beforeStatus[n..])) ==
            Api.RespondStatus(db, h, plan)
  {
    var gap := plan.beforeStatus;
    Ledger.OthersDoConcat(db, h, gap[..n], gap[n..]);
    TakeDrop(gap, n);
  }

  lemma OnwardWaits(s: State, a: Action, h: nat, plan: Api.Plan)
    requires InCall(s, h) && Enabled(s, a) && Foreign(a, h) && Moves(s, a) <= Gap(s, h, plan)
    ensures InCall(Do(s, a), h) && EventOf(Do(s, a), h) == EventOf(s, h)
    ensures Onward(Do(s, a), h, Past(s, h, plan, |Moves(s, a)|)) == Onward(s, h, plan)
  {
    ForeignStep(s, a, h);
    Ledger.OthersKeep(s.db, h, Moves(s, a));
    if h in s.db.open {
      RespondWaits(s.db, h, plan, |Moves(s, a)|);
    } else {
      StatusWaits(s.db, h, plan, |Moves(s, a)|);
    }
  }

  /** The call's next own action, when the others are through with the gap at hand. */
  function NextMove(s: State, h: nat, plan: Api.Plan): Action
    requires InCall(s, h)
  {
    if h in s.db.open then Transact(h, Ledger.MoveNow(s.db, h, plan.tx)) else CheckStatus(h, plan.status)
  }

  /** Whatever the others did, it is possible; only the rule on commit order may forbid it, on a commit. */
  lemma NextMovePossible(r: Rules, s: State, h: nat, plan: Api.Plan)
    requires InCall(s, h)
    ensures var a := NextMove(s, h, plan);
            && Enabled(s, a) && !Foreign(a, h) && Decides(s, h, a, plan)
            && (Allowed(r, s, a) <==> (r.inOrder ==> CommitsInOrder(s, a)))
  {
  }

  lemma OnwardMoves(s: State, a: Action, h: nat, plan: Api.Plan)
    requires InCall(s, h) && Enabled(s, a) && !Foreign(a, h) && Gap(s, h, plan) == [] && Decides(s, h, a, plan)
    ensures Code(s, a).Some? ==> Onward(s, h, plan) == (Do(s, a).db, Code(s, a).value)
    ensures Code(s, a).None? ==> InCall(Do(s, a), h) && EventOf(Do(s, a), h) == EventOf(s, h) &&
                                 Onward(Do(s, a), h, plan) == Onward(s, h, plan)
  {
    if a.Transact? {
      Ledger.RunTxStep(s.db, h, plan.tx);
      assert Ledger.OthersDo(s.db, h, []) == s.db;
    }
  }

  lemma {:induction false} RestRefines(r: Rules, s: State, h: nat, acts: seq<Action>, plan: Api.Plan, s': State,
                                       code: int)
    requires CallFollows(r, s, h, acts, plan, s', code)
    ensures Leads(r, s, acts, s') && (s'.db, code) == Onward(s, h, plan)
    ensures code == 204 ==> EventOf(s, h) in s'.hist.answered
    decreases |acts|
  {
    var a, s1 := acts[0], Do(s, acts[0]);
    if Foreign(a, h) {
      OnwardWaits(s, a, h, plan);
      RestRefines(r, s1, h, acts[1..], Past(s, h, plan, |Moves(s, a)|), s', code);
      LeadsStep(r, s, acts, s');
    } else {
      OnwardMoves(s, a, h, plan);
      if Code(s, a).Some? {
        AnsweredIff204(s, a, h);
        LeadsOne(r, s, a);
      } else {
        RestRefines(r, s1, h, acts[1..], plan, s', code);
        LeadsStep(r, s, acts, s');
      }
    }
  }

  /** A webhook call under a plan, `Api.App.HandleStripeWebhook`, is what the pipeline does in every run that
      follows the plan: the same ledger, outbox and answer; and a 204 leaves its event among those that the
      end-to-end guarantee speaks of. */
  lemma WebhookRefines(r: Rules, s: State, h: nat, job: Job, acts: seq<Action>, plan: Api.Plan, s': State, code: int)
    requires Allowed(r, s, Receive(h, job)) && CallFollows(r, Do(s, Receive(h, job)), h, acts, plan, s', code)
    ensures Leads(r, s, [Receive(h, job)] + acts, s')
    ensures (s'.db, code) == Api.Respond(Api.Received(s.db, h, job), h, plan)
    ensures code == 204 ==> job.stripeEventId in s'.hist.answered
  {
    RestRefines(r, Do(s, Receive(h, job)), h, acts, plan, s', code);
    LeadsCons(r, s, Receive(h, job), acts, s');
  }

  // ---------------------------------------------------------------- every run has a plan

  /** The two plans are the same for the rest of the call. */
  ghost predicate Agree(s: State, h: nat, p: Api.Plan, p': Api.Plan)
    requires InCall(s, h)
  {
    && p.beforeStatus == p'.beforeStatus && p.status == p'.status
    && (h in s.db.open ==> Ledger.Agree(p.tx, p'.tx, Ledger.Remaining(s.db.open[h].phase)))
  }

  lemma AgreeWaits(s: State, a: Action, h: nat, p: Api.Plan, p': Api.Plan)
    requires InCall(s, h) && Enabled(s, a) && Foreign(a, h) && Moves(s, a) <= Gap(s, h, p) && Agree(s, h, p, p')
    ensures InCall(Do(s, a), h) && Gap(s, h, p') == Gap(s, h, p)
    ensures Agree(Do(s, a), h, Past(s, h, p, |Moves(s, a)|), Past(s, h, p', |Moves(s, a)|))
  {
    ForeignStep(s, a, h);
    Ledger.OthersKeep(s.db, h, Moves(s, a));
    if h in s.db.open {
      Ledger.PastAgree(s.db.open[h].phase, p.tx, p'.tx, |Moves(s, a)|);
    }
  }

  lemma {:induction false} FollowsAgreeing(r: Rules, s: State, h: nat, acts: seq<Action>, p: Api.Plan, p': Api.Plan,
                                           s': State, code: int)
    requires CallFollows(r, s, h, acts, p, s', code) && Agree(s, h, p, p')
    ensures CallFollows(r, s, h, acts, p', s', code)
    decreases |acts|
  {
    var a, s1 := acts[0], Do(s, acts[0]);
    if Foreign(a, h) {
      var n := |Moves(s, a)|;
      AgreeWaits(s, a, h, p, p');
      FollowsAgreeing(r, s1, h, acts[1..], Past(s, h, p, n), Past(s, h, p', n), s', code);
    } else if Code(s, a).None? {
      OnwardMoves(s, a, h, p);
      FollowsAgreeing(r, s1, h, acts[1..], p, p', s', code);
    }
  }

  /** The plan that makes this own move now. */
  function Deciding(s: State, h: nat, a: Action, plan: Api.Plan): Api.Plan
    requires InCall(s, h) && Enabled(s, a) && !Foreign(a, h)
  {
    match a
    case Transact(_, m) => plan.(tx := plan.tx.Deciding(s.db.open[h].phase, m))
    case CheckStatus(_, fault) => plan.(beforeStatus := [], status := fault)
    case _ => plan
  }

  function Before(s: State, h: nat, plan: Api.Plan, moves: seq<Ledger.Action>): Api.Plan
    requires InCall(s, h)
  {
    if h in s.db.open then plan.(tx := plan.tx.Before(s.db.open[h].phase, moves))
    else plan.(beforeStatus := moves + plan.beforeStatus)
  }

  /** Handlers are in their transaction or past it, never both. */
  ghost predicate Apart(s: State) {
    forall h :: h in s.db.open ==> h !in s.checking
  }

  lemma ApartStep(s: State, a: Action)
    requires Apart(s) && Enabled(s, a)
    ensures Apart(Do(s, a))
  {
  }

  lemma {:induction false} AlwaysApart(r: Rules, s: State, acts: seq<Action>)
    requires Apart(s) && Run(r, s, acts)
    ensures Apart(After(r, s, acts))
    decreases |acts|
  {
    if acts != [] {
      ApartStep(s, acts[0]);
      AlwaysApart(r, Do(s, acts[0]), acts[1..]);
    }
  }

  lemma PlanWaits(r: Rules, s: State, h: nat, acts: seq<Action>, later: Api.Plan, s': State, code: int)
    requires acts != [] && InCall(s, h) && Allowed(r, s, acts[0]) && Foreign(acts[0], h)
    requires CallFollows(r, Do(s, acts[0]), h, acts[1..], later, s', code)
    ensures CallFollows(r, s, h, acts, Before(s, h, later, Moves(s, acts[0])), s', code)
  {
    var moves := Moves(s, acts[0]);
    if h in s.db.open {
      Ledger.PastBefore(s.db.open[h].phase, later.tx, moves);
    } else {
      assert (moves + later.beforeStatus)[|moves|..] == later.beforeStatus;
    }
  }

  lemma DecidedNow(s: State, h: nat, a: Action, plan: Api.Plan)
    requires InCall(s, h) && Enabled(s, a) && !Foreign(a, h) && Apart(s)
    ensures var plan' := Deciding(s, h, a, plan);
            && Gap(s, h, plan') == [] && Decides(s, h, a, plan')
            && (Code(s, a).None? ==> InCall(Do(s, a), h) && Agree(Do(s, a), h, plan, plan'))
  {
    if a.Transact? {
      Ledger.DecidedMove(s.db, h, plan.tx, a.move);
    }
  }

  lemma {:induction false} RestHasPlan(r: Rules, s: State, h: nat, acts: seq<Action>, s': State, code: int)
    requires CallRun(r, s, h, acts, s', code) && Apart(s)
    ensures exists plan :: CallFollows(r, s, h, acts, plan, s', code)
    decreases |acts|
  {
    var a, s1 := acts[0], Do(s, acts[0]);
    var clean := Api.Plan(Ledger.Plan(false, false, true, NoFault, [], [], []), [], NoFault);
    ApartStep(s, a);
    if Foreign(a, h) {
      RestHasPlan(r, s1, h, acts[1..], s', code);
      var later :| CallFollows(r, s1, h, acts[1..], later, s', code);
      PlanWaits(r, s, h, acts, later, s', code);
      assert CallFollows(r, s, h, acts, Before(s, h, later, Moves(s, a)), s', code);
    } else if Code(s, a).Some? {
      DecidedNow(s, h, a, clean);
      assert CallFollows(r, s, h, acts, Deciding(s, h, a, clean), s', code);
    } else {
      RestHasPlan(r, s1, h, acts[1..], s', code);
      var later :| CallFollows(r, s1, h, acts[1..], later, s', code);
      DecidedNow(s, h, a, later);
      FollowsAgreeing(r, s1, h, acts[1..], later, Deciding(s, h, a, later), s', code);
      assert CallFollows(r, s, h, acts, Deciding(s, h, a, later), s', code);
    }
  }

  /** The call that starts with this request is the method's call under the plan. */
  ghost predicate IsCall(r: Rules, s: State, h: nat, job: Job, acts: seq<Action>, plan: Api.Plan, s': State, code: int)
    requires Allowed(r, s, Receive(h, job))
  {
    && CallFollows(r, Do(s, Receive(h, job)), h, acts, plan, s', code)
    && (s'.db, code) == Api.Respond(Api.Received(s.db, h, job), h, plan)
  }

  lemma CallHasPlan(r: Rules, s: State, h: nat, job: Job, acts: seq<Action>, s': State, code: int)
    requires Allowed(r, s, Receive(h, job)) && CallRun(r, Do(s, Receive(h, job)), h, acts, s', code) && Apart(s)
    ensures exists plan :: IsCall(r, s, h, job, acts, plan, s', code)
  {
    var s1 := Do(s, Receive(h, job));
    ApartStep(s, Receive(h, job));
    RestHasPlan(r, s1, h, acts, s', code);
    var plan :| CallFollows(r, s1, h, acts, plan, s', code);
    WebhookRefines(r, s, h, job, acts, plan, s', code);
    assert IsCall(r, s, h, job, acts, plan, s', code);
  }

  /** Every run of a webhook call, in any run from empty tables, follows some plan: whatever others do between
      its statements, the call is the method's call under that plan. */
  lemma InterleavedWebhookHasPlan(r: Rules, part: string -> nat, before: seq<Action>, h: nat, job: Job,
                                  acts: seq<Action>, s': State, code: int)
    requires Run(r, Init(part), before) && Allowed(r, After(r, Init(part), before), Receive(h, job))
    requires CallRun(r, Do(After(r, Init(part), before), Receive(h, job)), h, acts, s', code)
    ensures exists plan :: IsCall(r, After(r, Init(part), before), h, job, acts, plan, s', code)
  {
    AlwaysApart(r, Init(part), before);
    CallHasPlan(r, After(r, Init(part), before), h, job, acts, s', code);
  }

  // ---------------------------------------------------------------- nobody in between

  predicate Alone(plan: Api.Plan) {
    plan.tx.beforeInsert == plan.tx.beforeWrite == plan.tx.beforeCommit == plan.beforeStatus == []
  }

  /** The id that the accept has drawn, or would draw now, is above all those in the outbox. */
  predicate IdIsNext(db: Ledger.Db, h: nat) {
    && (forall i :: 0 <= i < |db.outbox| ==> db.outbox[i].id < db.nextId)
    && (h in db.open ==> db.open[h].kind.Accept?)
    && (h in db.open && db.open[h].phase.Written? ==>
          forall i :: 0 <= i < |db.outbox| ==> db.outbox[i].id < db.open[h].phase.id)
  }

  function StepsLeft(s: State, h: nat): nat
    requires InCall(s, h)
  {
    if h in s.db.open then Ledger.Remaining(s.db.open[h].phase) else 0
  }

  lemma MoveMakesProgress(s: State, h: nat, a: Action)
    requires InCall(s, h) && Enabled(s, a) && !Foreign(a, h) && Code(s, a).None?
    ensures InCall(Do(s, a), h) && StepsLeft(Do(s, a), h) < StepsLeft(s, h)
    ensures IdIsNext(s.db, h) ==> IdIsNext(Do(s, a).db, h)
  {
  }

  /** With nobody in between, every plan has its run. */
  lemma {:induction false} AloneCallIsRun(r: Rules, s: State, h: nat, plan: Api.Plan)
    requires InCall(s, h) && Alone(plan) && (r.inOrder ==> IdIsNext(s.db, h))
    ensures exists acts, s', code :: CallFollows(r, s, h, acts, plan, s', code)
    decreases StepsLeft(s, h)
  {
    var a := NextMove(s, h, plan);
    var s1 := Do(s, a);
    NextMovePossible(r, s, h, plan);
    OnwardMoves(s, a, h, plan);
    if Code(s, a).Some? {
      assert CallFollows(r, s, h, [a], plan, s1, Code(s, a).value);
    } else {
      MoveMakesProgress(s, h, a);
      AloneCallIsRun(r, s1, h, plan);
      var rest, s', code :| CallFollows(r, s1, h, rest, plan, s', code);
      assert ([a] + rest)[1..] == rest;
      assert CallFollows(r, s, h, [a] + rest, plan, s', code);
    }
  }
}
