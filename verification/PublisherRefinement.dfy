/** The publisher's method and the pipeline: a run of one iteration, whatever the webhook handlers, other
    publishers and other producers do between its calls, is `Publisher.Process.PublishNext` under some plan, and
    the method under a plan is what every run does that follows the plan. */
module PublisherRefinement {
  import opened Engine
  import opened Pipeline
  import opened Runs
  import opened Sequences
  import Ledger
  import P = Publisher

  predicate Foreign(a: Action, q: nat) {
    !((a.SelectPending? || a.Produce? || a.MarkPublished? || a.PublisherStops?) && a.q == q)
  }

  /** What the action does to the outbox or the topic. */
  function Others(s: State, a: Action): seq<P.Other>
    requires Enabled(s, a)
  {
    match a
    case Transact(h, Commit(fault)) =>
      var tx := s.db.open[h];
      if fault.ErrLost? || tx.kind.Process? then []
      else [P.Accepted(Ledger.OutboxRow(tx.phase.id, tx.event, tx.eventType, tx.kind.payload, Ledger.Pending))]
    case MarkPublished(q, fault) => if fault.ErrLost? then [] else [P.Marked(s.publishers[q].event)]
    case Produce(q, appended, _) =>
      var Selected(event, payload) := s.publishers[q];
      if appended then [P.Appended(s.part(event), Record(event, payload))] else []
    case ForeignAppend(p, r) => [P.Appended(p, r)]
    case _ => []
  }

  lemma OthersAct(s: State, a: Action)
    requires Enabled(s, a)
    ensures NextDb(s, a).outbox == P.OthersOutbox(s.db.outbox, Others(s, a))
    ensures NextLog(s, a) == P.OthersLog(s.log, Others(s, a))
  {
    if Others(s, a) != [] {
      assert Others(s, a)[..0] == [];
    }
  }

  lemma ForeignStep(s: State, a: Action, q: nat)
    requires Enabled(s, a) && Foreign(a, q) && q in s.publishers
    ensures var s1 := Do(s, a);
            && q in s1.publishers && s1.publishers[q] == s.publishers[q] && s1.part == s.part
            && s1.db.outbox == P.OthersOutbox(s.db.outbox, Others(s, a)) && s1.log == P.OthersLog(s.log, Others(s, a))
  {
    OthersAct(s, a);
  }

  // ---------------------------------------------------------------- runs of one iteration

  function Gap(p: Publisher, plan: P.Plan): seq<P.Other> {
    if p.Selected? then plan.beforeProduce else plan.beforeMark
  }

  function Past(p: Publisher, plan: P.Plan, n: nat): P.Plan
    requires n <= |Gap(p, plan)|
  {
    if p.Selected? then plan.(beforeProduce := plan.beforeProduce[n..]) else plan.(beforeMark := plan.beforeMark[n..])
  }

  function Before(p: Publisher, plan: P.Plan, os: seq<P.Other>): P.Plan {
    if p.Selected? then plan.(beforeProduce := os + plan.beforeProduce) else plan.(beforeMark := os + plan.beforeMark)
  }

  /** The publisher's next own action under the plan. */
  function NextMove(p: Publisher, q: nat, plan: P.Plan): Action {
    if p.Selected? then Produce(q, !plan.produce.ErrLost?, plan.produce.NoFault?) else MarkPublished(q, plan.mark)
  }

  /** Whatever the others did, it is possible, under every rule. */
  lemma NextMovePossible(r: Rules, s: State, q: nat, plan: P.Plan)
    requires q in s.publishers
    ensures Allowed(r, s, NextMove(s.publishers[q], q, plan))
  {
  }

  /** A run from the select to the end of the iteration, with any actions of others in between. */
  ghost predicate PublishRun(r: Rules, s: State, q: nat, acts: seq<Action>, s': State)
    decreases |acts|
  {
    acts != [] && q in s.publishers && Allowed(r, s, acts[0]) && (Foreign(acts[0], q) || !acts[0].PublisherStops?) &&
    var s1 := Do(s, acts[0]);
    if q in s1.publishers then PublishRun(r, s1, q, acts[1..], s') else acts == [acts[0]] && s' == s1
  }

  /** The same, with the publisher's own calls going as the plan says, and with the others doing just what
      the plan lists before each of them. */
  ghost predicate PublishFollows(r: Rules, s: State, q: nat, acts: seq<Action>, plan: P.Plan, s': State)
    decreases |acts|
  {
    acts != [] && q in s.publishers && Allowed(r, s, acts[0]) &&
    var a, s1, p := acts[0], Do(s, acts[0]), s.publishers[q];
    if Foreign(a, q) then
      Others(s, a) <= Gap(p, plan) && PublishFollows(r, s1, q, acts[1..], Past(p, plan, |Others(s, a)|), s')
    else
      Gap(p, plan) == [] && a == NextMove(p, q, plan) &&
      if q in s1.publishers then PublishFollows(r, s1, q, acts[1..], plan, s') else acts == [a] && s' == s1
  }

  /** What the method does from this point of the iteration on. */
  function Rest(p: Publisher, part: string -> nat, outbox: seq<Ledger.OutboxRow>, log: map<nat, seq<Record>>,
                plan: P.Plan)
    : (seq<Ledger.OutboxRow>, map<nat, seq<Record>>)
    decreases p.Selected?
  {
    var outbox', log' := P.OthersOutbox(outbox, Gap(p, plan)), P.OthersLog(log, Gap(p, plan));
    match p
    case Selected(event, payload) =>
      var produced := if plan.produce.ErrLost? then log' else Append(log', part(event), Record(event, payload));
      if plan.produce.NoFault? then Rest(Produced(event), part, outbox', produced, plan) else (outbox', produced)
    case Produced(event) => (if plan.mark.ErrLost? then outbox' else Ledger.MarkPublished(outbox', event), log')
  }

  function Onward(s: State, q: nat, plan: P.Plan): (seq<Ledger.OutboxRow>, map<nat, seq<Record>>)
    requires q in s.publishers
  {
    Rest(s.publishers[q], s.part, s.db.outbox, s.log, plan)
  }

  lemma RestWaits(p: Publisher, part: string -> nat, outbox: seq<Ledger.OutboxRow>, log: map<nat, seq<Record>>,
                  plan: P.Plan, n: nat)
    requires n <= |Gap(p, plan)|
    ensures var os := Gap(p, plan)[..n];
            Rest(p, part, P.OthersOutbox(outbox, os), P.OthersLog(log, os), Past(p, plan, n)) ==
            Rest(p, part, outbox, log, plan)
  {
    var gap, later := Gap(p, plan), Past(p, plan, n);
    TakeDrop(gap, n);
    P.OthersConcat(outbox, log, gap[..n], gap[n..]);
    assert Gap(p, later) == gap[n..];
    forall o, l | p.Selected?
      ensures Rest(Produced(p.event), part, o, l, later) == Rest(Produced(p.event), part, o, l, plan)
    {
    }
  }

  lemma OnwardWaits(s: State, a: Action, q: nat, plan: P.Plan)
    requires q in s.publishers && Enabled(s, a) && Foreign(a, q) && Others(s, a) <= Gap(s.publishers[q], plan)
    ensures q in Do(s, a).publishers
    ensures Onward(Do(s, a), q, Past(s.publishers[q], plan, |Others(s, a)|)) == Onward(s, q, plan)
  {
    ForeignStep(s, a, q);
    RestWaits(s.publishers[q], s.part, s.db.outbox, s.log, plan, |Others(s, a)|);
  }

  /** From the selected row on, it is one iteration of the loop. */
  lemma RestIsIteration(part: string -> nat, outbox: seq<Ledger.OutboxRow>, log: map<nat, seq<Record>>, plan: P.Plan)
    requires plan.beforeSelect == [] && P.Chosen(outbox, plan).Some?
    ensures var row := P.Chosen(outbox, plan).value;
            Rest(Selected(row.event, row.payload), part, outbox, log, plan) ==
            (P.NextOutbox(outbox, plan), P.NextLog(part, outbox, log, plan))
  {
  }

  lemma OnwardMoves(s: State, q: nat, plan: P.Plan)
    requires q in s.publishers && Gap(s.publishers[q], plan) == []
    ensures var s1 := Do(s, NextMove(s.publishers[q], q, plan));
            if q in s1.publishers then Onward(s1, q, plan) == Onward(s, q, plan) && s1.publishers[q].Produced?
            else (s1.db.outbox, s1.log) == Onward(s, q, plan)
    ensures q in Do(s, NextMove(s.publishers[q], q, plan)).publishers ==> s.publishers[q].Selected?
  {
  }

  lemma {:induction false} RestRefines(r: Rules, s: State, q: nat, acts: seq<Action>, plan: P.Plan, s': State)
    requires PublishFollows(r, s, q, acts, plan, s')
    ensures Leads(r, s, acts, s') && (s'.db.outbox, s'.log) == Onward(s, q, plan)
    decreases |acts|
  {
    var a, s1 := acts[0], Do(s, acts[0]);
    if Foreign(a, q) {
      OnwardWaits(s, a, q, plan);
      RestRefines(r, s1, q, acts[1..], Past(s.publishers[q], plan, |Others(s, a)|), s');
      LeadsStep(r, s, acts, s');
    } else {
      OnwardMoves(s, q, plan);
      if q in s1.publishers {
        RestRefines(r, s1, q, acts[1..], plan, s');
        LeadsStep(r, s, acts, s');
      } else {
        LeadsOne(r, s, a);
      }
    }
  }

  /** One iteration under a plan, `Publisher.Process.PublishNext`, is what the pipeline does in every run that
      follows the plan: it leaves the same outbox and the same topic. */
  lemma PublishRefines(r: Rules, s: State, q: nat, acts: seq<Action>, plan: P.Plan, s': State)
    requires Allowed(r, s, SelectPending(q)) && plan.select.NoFault? && plan.beforeSelect == []
    requires PublishFollows(r, Do(s, SelectPending(q)), q, acts, plan, s')
    ensures Leads(r, s, [SelectPending(q)] + acts, s')
    ensures s'.db.outbox == P.NextOutbox(s.db.outbox, plan) && s'.log == P.NextLog(s.part, s.db.outbox, s.log, plan)
  {
    var s1 := Do(s, SelectPending(q));
    RestIsIteration(s.part, s.db.outbox, s.log, plan);
    RestRefines(r, s1, q, acts, plan, s');
    LeadsCons(r, s, SelectPending(q), acts, s');
  }

  // ---------------------------------------------------------------- every run has a plan

  lemma {:induction false} FollowsAgreeing(r: Rules, s: State, q: nat, acts: seq<Action>, p: P.Plan, p': P.Plan,
                                           s': State)
    requires PublishFollows(r, s, q, acts, p, s') && s.publishers[q].Produced?
    requires p.beforeMark == p'.beforeMark && p.mark == p'.mark
    ensures PublishFollows(r, s, q, acts, p', s')
    decreases |acts|
  {
    var a := acts[0];
    if Foreign(a, q) {
      var n := |Others(s, a)|;
      ForeignStep(s, a, q);
      FollowsAgreeing(r, Do(s, a), q, acts[1..], Past(s.publishers[q], p, n), Past(s.publishers[q], p', n), s');
    }
  }

  /** The plan that makes this own call now. */
  function Deciding(a: Action, plan: P.Plan): P.Plan {
    match a
    case Produce(_, appended, acked) =>
      plan.(beforeProduce := [], produce := if acked then NoFault else if appended then ErrApplied else ErrLost)
    case MarkPublished(_, fault) => plan.(beforeMark := [], mark := fault)
    case _ => plan
  }

  lemma PlanWaits(r: Rules, s: State, q: nat, acts: seq<Action>, later: P.Plan, s': State)
    requires acts != [] && q in s.publishers && Allowed(r, s, acts[0]) && Foreign(acts[0], q)
    requires PublishFollows(r, Do(s, acts[0]), q, acts[1..], later, s')
    ensures PublishFollows(r, s, q, acts, Before(s.publishers[q], later, Others(s, acts[0])), s')
  {
    var p, os := s.publishers[q], Others(s, acts[0]);
    assert Past(p, Before(p, later, os), |os|) == later;
  }

  lemma PlanDecides(r: Rules, s: State, q: nat, acts: seq<Action>, later: P.Plan, s': State)
    requires acts != [] && q in s.publishers && Allowed(r, s, acts[0])
    requires !Foreign(acts[0], q) && !acts[0].PublisherStops?
    requires var s1 := Do(s, acts[0]);
             if q in s1.publishers then PublishFollows(r, s1, q, acts[1..], later, s')
             else acts == [acts[0]] && s' == s1
    ensures PublishFollows(r, s, q, acts, Deciding(acts[0], later), s')
  {
    var s1 := Do(s, acts[0]);
    if q in s1.publishers {
      FollowsAgreeing(r, s1, q, acts[1..], later, Deciding(acts[0], later), s');
    }
  }

  /** Every run of an iteration follows some plan: whatever the others do between its calls, it is the
      method's iteration under that plan. */
  lemma {:induction false} InterleavedPublishHasPlan(r: Rules, s: State, q: nat, acts: seq<Action>, s': State)
    requires PublishRun(r, s, q, acts, s')
    ensures exists plan: P.Plan ::
              plan.select.NoFault? && plan.beforeSelect == [] && PublishFollows(r, s, q, acts, plan, s')
    decreases |acts|
  {
    var a, s1 := acts[0], Do(s, acts[0]);
    if Foreign(a, q) { ForeignStep(s, a, q); }
    if q in s1.publishers {
      InterleavedPublishHasPlan(r, s1, q, acts[1..], s');
      var later: P.Plan :| later.select.NoFault? && later.beforeSelect == [] &&
                           PublishFollows(r, s1, q, acts[1..], later, s');
      if Foreign(a, q) { PlanWaits(r, s, q, acts, later, s'); } else { PlanDecides(r, s, q, acts, later, s'); }
    } else {
      PlanDecides(r, s, q, acts, P.Plan(NoFault, NoFault, NoFault, [], [], []), s');
    }
  }

  lemma OwnThenRest(r: Rules, s: State, q: nat, plan: P.Plan, rest: seq<Action>, s': State)
    requires q in s.publishers && Gap(s.publishers[q], plan) == []
    requires var s1 := Do(s, NextMove(s.publishers[q], q, plan));
             q in s1.publishers && PublishFollows(r, s1, q, rest, plan, s')
    ensures PublishFollows(r, s, q, [NextMove(s.publishers[q], q, plan)] + rest, plan, s')
  {
    var a := NextMove(s.publishers[q], q, plan);
    NextMovePossible(r, s, q, plan);
    assert ([a] + rest)[1..] == rest;
  }

  /** With nobody in between, every plan has its run. */
  lemma {:induction false} AloneIterationIsRun(r: Rules, s: State, q: nat, plan: P.Plan)
    requires q in s.publishers && plan.Alone()
    ensures exists acts, s' :: PublishFollows(r, s, q, acts, plan, s')
    decreases s.publishers[q].Selected?
  {
    var a := NextMove(s.publishers[q], q, plan);
    OnwardMoves(s, q, plan);
    if q in Do(s, a).publishers {
      AloneIterationIsRun(r, Do(s, a), q, plan);
      var rest, s' :| PublishFollows(r, Do(s, a), q, rest, plan, s');
      OwnThenRest(r, s, q, plan, rest, s');
    } else {
      NextMovePossible(r, s, q, plan);
      assert PublishFollows(r, s, q, [a], plan, Do(s, a));
    }
  }
}
