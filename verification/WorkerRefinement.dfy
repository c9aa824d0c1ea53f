/** The worker's methods and the pipeline: a run in which worker `w` handles records, whatever the other
    processes do between its steps, is what `Worker.Process` does under some plan; and a method under a plan is
    what any such run does whose own steps go as the plan says and in which the others issue, before each of
    them, exactly the statements that the plan lists there. */
module WorkerRefinement {
  import opened Engine
  import opened Completions
  import opened Pipeline
  import opened Runs
  import opened Sequences
  import Invariants
  import Ownership
  import H = Handler
  import Partition
  import Worker

  // ---------------------------------------------------------------- steps of the worker and of the others

  predicate Foreign(a: Action, w: nat) {
    !((a.Poll? || a.Handle? || a.CommitOffset? || a.WorkerStops?) && a.w == w)
  }

  /** The statement that the action executes on the completions, if any. */
  function Stmts(s: State, a: Action): seq<Statement>
    requires Enabled(s, a)
  {
    if !a.Handle? || Unreadable(s.workers[a.w]) then [] else
    var wk := s.workers[a.w];
    var q := H.Applied(KeyOf(wk), TypeOf(wk), wk.pc, a.choice);
    if q.Some? then [q.value] else []
  }

  lemma StmtsRun(s: State, a: Action)
    requires Enabled(s, a)
    ensures NextTable(s, a) == ExecAll(s.table, Stmts(s, a)) && NextStmts(s, a) == s.hist.stmts + Stmts(s, a)
  {
    if Stmts(s, a) != [] {
      assert Stmts(s, a)[..0] == [];
    }
  }

  lemma ForeignStep(s: State, a: Action, w: nat)
    requires Enabled(s, a) && Foreign(a, w) && w in s.workers
    ensures w in Do(s, a).workers && Do(s, a).workers[w] == s.workers[w]
    ensures Do(s, a).table == ExecAll(s.table, Stmts(s, a))
  {
    StmtsRun(s, a);
  }

  /** Worker `w` is handling a readable record. */
  predicate InCall(s: State, w: nat) {
    && w in s.workers
    && var wk := s.workers[w]; wk.pos < |wk.batch| && Handleable(wk.batch[wk.pos].value) && !wk.pc.Done?
  }

  lemma OwnNextPc(s: State, w: nat, c: H.Choice)
    requires InCall(s, w) && H.Enabled(s.workers[w].pc, c)
    ensures var wk := s.workers[w];
            && NextPc(s.table, wk, c) == H.NextPc(s.table, KeyOf(wk), TypeOf(wk), wk.pc, c)
            && H.Rank(NextPc(s.table, wk, c)) < H.Rank(wk.pc)
  {
  }

  lemma OwnFields(s: State, w: nat, c: H.Choice)
    requires InCall(s, w) && H.Enabled(s.workers[w].pc, c)
    ensures Enabled(s, Handle(w, c))
    ensures var wk, s' := s.workers[w], Do(s, Handle(w, c));
            && s'.table == H.NextTable(s.table, KeyOf(wk), TypeOf(wk), wk.pc, c)
            && w in s'.workers && s'.workers[w] == Advance(wk, NextPc(s.table, wk, c))
  {
  }

  /** Whatever the others did, the next step of the call is possible, however it goes. */
  lemma OwnStep(r: Rules, s: State, w: nat, c: H.Choice)
    requires InCall(s, w) && H.Enabled(s.workers[w].pc, c)
    ensures Allowed(r, s, Handle(w, c))
    ensures var wk, s' := s.workers[w], Do(s, Handle(w, c));
            && NextPc(s.table, wk, c) == H.NextPc(s.table, KeyOf(wk), TypeOf(wk), wk.pc, c)
            && s'.table == H.NextTable(s.table, KeyOf(wk), TypeOf(wk), wk.pc, c)
            && w in s'.workers && s'.workers[w] == Advance(wk, NextPc(s.table, wk, c))
            && H.Rank(NextPc(s.table, wk, c)) < H.Rank(wk.pc)
  {
    OwnNextPc(s, w, c);
    OwnFields(s, w, c);
  }

  lemma CallMoves(s: State, w: nat, c: H.Choice)
    requires InCall(s, w) && H.Enabled(s.workers[w].pc, c) && !NextPc(s.table, s.workers[w], c).Done?
    ensures var wk, s1 := s.workers[w], Do(s, Handle(w, c));
            && InCall(s1, w) && s1.workers[w] == wk.(pc := NextPc(s.table, wk, c))
            && KeyOf(s1.workers[w]) == KeyOf(wk) && TypeOf(s1.workers[w]) == TypeOf(wk)
            && s1.table == H.NextTable(s.table, KeyOf(wk), TypeOf(wk), wk.pc, c)
            && s1.workers[w].pc == H.NextPc(s.table, KeyOf(wk), TypeOf(wk), wk.pc, c)
            && (c.Call? <==> wk.pc.Granted?) && (c.Call? ==> s1.workers[w].pc.Calling?)
  {
  }

  // ---------------------------------------------------------------- one handleRecord call

  /** A run from inside a call to its return, with any actions of others in between. */
  ghost predicate CallRun(r: Rules, s: State, w: nat, acts: seq<Action>, s': State)
    decreases |acts|
  {
    acts != [] && InCall(s, w) && Allowed(r, s, acts[0]) &&
    var a, s1 := acts[0], Do(s, acts[0]);
    if Foreign(a, w) then CallRun(r, s1, w, acts[1..], s') else
    a.Handle? &&
    if NextPc(s.table, s.workers[w], a.choice).Done? then acts == [a] && s' == s1 else CallRun(r, s1, w, acts[1..], s')
  }

  /** The same, with the call's own steps going as the plan says, and with the others executing just what
      the plan lists before each of them. */
  ghost predicate CallFollows(r: Rules, s: State, w: nat, acts: seq<Action>, plan: H.Plan, s': State)
    decreases |acts|
  {
    acts != [] && InCall(s, w) && Allowed(r, s, acts[0]) &&
    var a, s1, pc := acts[0], Do(s, acts[0]), s.workers[w].pc;
    if Foreign(a, w) then
      Stmts(s, a) <= plan.Gap(pc) && CallFollows(r, s1, w, acts[1..], plan.Past(pc, |Stmts(s, a)|), s')
    else
      a.Handle? && plan.Gap(pc) == [] && plan.ChoiceAt(pc) == a.choice &&
      if NextPc(s.table, s.workers[w], a.choice).Done? then acts == [a] && s' == s1
      else CallFollows(r, s1, w, acts[1..], plan, s')
  }

  /** The run ends as the call does under the plan: in its table, with its result, and with its delivery. */
  ghost predicate CallIs(s: State, w: nat, acts: seq<Action>, plan: H.Plan, s': State)
    requires InCall(s, w)
  {
    var wk := s.workers[w];
    var (table, ok, called) := H.RunHandler(s.table, KeyOf(wk), TypeOf(wk), wk.pc, plan);
    && s'.table == table
    && w in s'.workers && s'.workers[w] == Advance(wk, H.Done(ok))
    && (Handle(w, H.Call) in acts <==> called)
  }

  lemma CallReturns(r: Rules, s: State, w: nat, c: H.Choice, plan: H.Plan)
    requires InCall(s, w) && H.Enabled(s.workers[w].pc, c) && NextPc(s.table, s.workers[w], c).Done?
    requires plan.Gap(s.workers[w].pc) == [] && plan.ChoiceAt(s.workers[w].pc) == c
    ensures CallIs(s, w, [Handle(w, c)], plan, Do(s, Handle(w, c)))
  {
    var wk := s.workers[w];
    OwnStep(NO_RULES, s, w, c);
    H.RunStep(s.table, KeyOf(wk), TypeOf(wk), wk.pc, plan);
  }

  lemma CallGoesOn(r: Rules, s: State, w: nat, c: H.Choice, rest: seq<Action>, plan: H.Plan, s': State)
    requires InCall(s, w) && H.Enabled(s.workers[w].pc, c) && !NextPc(s.table, s.workers[w], c).Done?
    requires plan.Gap(s.workers[w].pc) == [] && plan.ChoiceAt(s.workers[w].pc) == c
    requires InCall(Do(s, Handle(w, c)), w) && CallIs(Do(s, Handle(w, c)), w, rest, plan, s')
    ensures CallIs(s, w, [Handle(w, c)] + rest, plan, s')
  {
    var wk := s.workers[w];
    OwnStep(r, s, w, c);
    H.RunStep(s.table, KeyOf(wk), TypeOf(wk), wk.pc, plan);
  }

  lemma CallWaits(s: State, w: nat, a: Action, rest: seq<Action>, plan: H.Plan, s': State)
    requires InCall(s, w) && Enabled(s, a) && Foreign(a, w)
    requires Stmts(s, a) <= plan.Gap(s.workers[w].pc) && InCall(Do(s, a), w)
    requires CallIs(Do(s, a), w, rest, plan.Past(s.workers[w].pc, |Stmts(s, a)|), s')
    ensures CallIs(s, w, [a] + rest, plan, s')
  {
    var wk := s.workers[w];
    ForeignStep(s, a, w);
    H.PastRuns(s.table, KeyOf(wk), TypeOf(wk), wk.pc, plan, |Stmts(s, a)|);
  }

  /** A call under a plan is what the pipeline does in every run that follows the plan. */
  lemma {:induction false} CallRefines(r: Rules, s: State, w: nat, acts: seq<Action>, plan: H.Plan, s': State)
    requires CallFollows(r, s, w, acts, plan, s')
    ensures Leads(r, s, acts, s') && CallIs(s, w, acts, plan, s')
    decreases |acts|
  {
    var a, s1, wk := acts[0], Do(s, acts[0]), s.workers[w];
    assert acts == [a] + acts[1..];
    if Foreign(a, w) {
      CallRefines(r, s1, w, acts[1..], plan.Past(wk.pc, |Stmts(s, a)|), s');
      CallWaits(s, w, a, acts[1..], plan, s');
      LeadsStep(r, s, acts, s');
    } else if NextPc(s.table, wk, a.choice).Done? {
      CallReturns(r, s, w, a.choice, plan);
      LeadsOne(r, s, a);
    } else {
      CallRefines(r, s1, w, acts[1..], plan, s');
      CallGoesOn(r, s, w, a.choice, acts[1..], plan, s');
      LeadsStep(r, s, acts, s');
    }
  }

  lemma {:induction false} CallFollowsAgreeing(r: Rules, s: State, w: nat, acts: seq<Action>, p: H.Plan, p': H.Plan,
                                               s': State)
    requires CallFollows(r, s, w, acts, p, s') && H.Agree(p, p', H.Rank(s.workers[w].pc))
    ensures CallFollows(r, s, w, acts, p', s')
    decreases |acts|
  {
    var a, s1, pc := acts[0], Do(s, acts[0]), s.workers[w].pc;
    if Foreign(a, w) {
      ForeignStep(s, a, w);
      var n := |Stmts(s, a)|;
      H.PastAgree(pc, p, p', n);
      CallFollowsAgreeing(r, s1, w, acts[1..], p.Past(pc, n), p'.Past(pc, n), s');
    } else if !NextPc(s.table, s.workers[w], a.choice).Done? {
      OwnStep(r, s, w, a.choice);
      CallFollowsAgreeing(r, s1, w, acts[1..], p, p', s');
    }
  }

  lemma CallPlanWaits(r: Rules, s: State, w: nat, acts: seq<Action>, later: H.Plan, s': State)
    requires acts != [] && InCall(s, w) && Allowed(r, s, acts[0]) && Foreign(acts[0], w)
    requires CallFollows(r, Do(s, acts[0]), w, acts[1..], later, s')
    ensures CallFollows(r, s, w, acts, later.Before(s.workers[w].pc, Stmts(s, acts[0])), s')
  {
    H.PastBefore(s.workers[w].pc, later, Stmts(s, acts[0]));
  }

  lemma CallPlanReturns(r: Rules, s: State, w: nat, c: H.Choice, later: H.Plan)
    requires InCall(s, w) && H.Enabled(s.workers[w].pc, c) && NextPc(s.table, s.workers[w], c).Done?
    ensures CallFollows(r, s, w, [Handle(w, c)], later.Deciding(s.workers[w].pc, c), Do(s, Handle(w, c)))
  {
    OwnStep(r, s, w, c);
    H.ChangedHere(s.workers[w].pc, later, [], c, 0);
  }

  lemma CallPlanGoesOn(r: Rules, s: State, w: nat, c: H.Choice, rest: seq<Action>, later: H.Plan, s': State)
    requires InCall(s, w) && H.Enabled(s.workers[w].pc, c) && !NextPc(s.table, s.workers[w], c).Done?
    requires CallFollows(r, Do(s, Handle(w, c)), w, rest, later, s')
    ensures CallFollows(r, s, w, [Handle(w, c)] + rest, later.Deciding(s.workers[w].pc, c), s')
  {
    var s1, pc := Do(s, Handle(w, c)), s.workers[w].pc;
    OwnStep(r, s, w, c);
    H.ChangedHere(pc, later, [], c, H.Rank(NextPc(s.table, s.workers[w], c)));
    CallFollowsAgreeing(r, s1, w, rest, later, later.Deciding(pc, c), s');
    assert ([Handle(w, c)] + rest)[1..] == rest;
  }

  lemma {:induction false} CallHasPlan(r: Rules, s: State, w: nat, acts: seq<Action>, s': State)
    requires CallRun(r, s, w, acts, s')
    ensures exists plan :: CallFollows(r, s, w, acts, plan, s')
    decreases |acts|
  {
    var a := acts[0];
    if !Foreign(a, w) && NextPc(s.table, s.workers[w], a.choice).Done? {
      CallPlanReturns(r, s, w, a.choice, Worker.CLEAN_PLAN);
    } else {
      CallHasPlan(r, Do(s, a), w, acts[1..], s');
      var later :| CallFollows(r, Do(s, a), w, acts[1..], later, s');
      HeadTail(acts);
      if Foreign(a, w) {
        CallPlanWaits(r, s, w, acts, later, s');
      } else {
        CallPlanGoesOn(r, s, w, a.choice, acts[1..], later, s');
      }
    }
  }

  /** Every run through a call follows some plan: whatever the others do between the statements, the call
      is a `handleRecord` call under that plan. */
  lemma InterleavedCallHasPlan(r: Rules, s: State, w: nat, acts: seq<Action>, s': State)
    requires CallRun(r, s, w, acts, s')
    ensures exists plan :: CallFollows(r, s, w, acts, plan, s') && CallIs(s, w, acts, plan, s')
  {
    CallHasPlan(r, s, w, acts, s');
    var plan :| CallFollows(r, s, w, acts, plan, s');
    CallRefines(r, s, w, acts, plan, s');
  }

  // ---------------------------------------------------------------- every plan that others can carry out

  /** The steps of a call under a plan, with `others(pc)` in front of the step at `pc`. */
  function CallActs(w: nat, t: Table, k: Key, ty: string, pc: H.Pc, plan: H.Plan,
                    others: H.Pc -> seq<Action>): seq<Action>
    decreases H.Rank(pc), 1
  {
    if pc.Done? then [] else others(pc) + OwnActs(w, ExecAll(t, plan.Gap(pc)), k, ty, pc, plan, others)
  }

  function OwnActs(w: nat, t: Table, k: Key, ty: string, pc: H.Pc, plan: H.Plan,
                   others: H.Pc -> seq<Action>): seq<Action>
    requires !pc.Done?
    decreases H.Rank(pc), 0
  {
    var c := plan.ChoiceAt(pc);
    [Handle(w, c)] + CallActs(w, H.NextTable(t, k, ty, pc, c), k, ty, H.NextPc(t, k, ty, pc, c), plan, others)
  }

  /** The others get from `s` to `mid` by these actions, executing these statements. */
  ghost predicate OthersDo(r: Rules, s: State, w: nat, gap: seq<Action>, qs: seq<Statement>, mid: State) {
    && Leads(r, s, gap, mid) && mid.hist.stmts == s.hist.stmts + qs
    && forall i :: 0 <= i < |gap| ==> Foreign(gap[i], w)
  }

  lemma {:induction false} StmtsGrow(r: Rules, s: State, acts: seq<Action>, s': State)
    requires Leads(r, s, acts, s')
    ensures s.hist.stmts <= s'.hist.stmts
    decreases |acts|
  {
    if acts == [] {
      LeadsIsRun(r, s, acts, s');
    } else {
      LeadsFirst(r, s, acts, s');
      StmtsRun(s, acts[0]);
      StmtsGrow(r, Do(s, acts[0]), acts[1..], s');
    }
  }

  lemma OthersFirstStep(r: Rules, s: State, w: nat, gap: seq<Action>, qs: seq<Statement>, mid: State)
    requires OthersDo(r, s, w, gap, qs, mid) && gap != [] && w in s.workers
    ensures Allowed(r, s, gap[0]) && Foreign(gap[0], w) && Stmts(s, gap[0]) <= qs
    ensures OthersDo(r, Do(s, gap[0]), w, gap[1..], qs[|Stmts(s, gap[0])|..], mid)
  {
    LeadsFirst(r, s, gap, mid);
    StmtsRun(s, gap[0]);
    StmtsGrow(r, Do(s, gap[0]), gap[1..], mid);
    SplitAfter(s.hist.stmts, Stmts(s, gap[0]), qs, mid.hist.stmts);
  }

  /** The others leave the call where it is, with their statements executed. */
  lemma {:induction false} OthersPass(r: Rules, s: State, w: nat, gap: seq<Action>, qs: seq<Statement>, mid: State)
    requires OthersDo(r, s, w, gap, qs, mid) && InCall(s, w)
    ensures InCall(mid, w) && mid.workers[w] == s.workers[w] && mid.table == ExecAll(s.table, qs)
    decreases |gap|
  {
    if gap == [] {
      LeadsIsRun(r, s, gap, mid);
      assert qs == [];
    } else {
      OthersFirstStep(r, s, w, gap, qs, mid);
      var done := Stmts(s, gap[0]);
      ForeignStep(s, gap[0], w);
      OthersPass(r, Do(s, gap[0]), w, gap[1..], qs[|done|..], mid);
      ExecAllConcat(s.table, done, qs[|done|..]);
      assert done + qs[|done|..] == qs;
    }
  }

  /** The gaps of the plan are what actions of other processes do, each allowed when its turn comes. */
  ghost predicate Possible(r: Rules, s: State, w: nat, plan: H.Plan, others: H.Pc -> seq<Action>)
    requires InCall(s, w)
    decreases H.Rank(s.workers[w].pc), 1
  {
    var pc := s.workers[w].pc;
    exists mid :: OthersDo(r, s, w, others(pc), plan.Gap(pc), mid) &&
                  (OthersPass(r, s, w, others(pc), plan.Gap(pc), mid); PossibleNow(r, mid, w, plan, others))
  }

  /** The same, when the others are through with the gap at hand. */
  ghost predicate PossibleNow(r: Rules, s: State, w: nat, plan: H.Plan, others: H.Pc -> seq<Action>)
    requires InCall(s, w)
    decreases H.Rank(s.workers[w].pc), 0
  {
    var c := plan.ChoiceAt(s.workers[w].pc);
    OwnStep(r, s, w, c);
    NextPc(s.table, s.workers[w], c).Done? ||
    (CallMoves(s, w, c); Possible(r, Do(s, Handle(w, c)), w, plan, others))
  }

  lemma FollowsWait(r: Rules, s: State, w: nat, a: Action, rest: seq<Action>, plan: H.Plan, s': State)
    requires InCall(s, w) && Allowed(r, s, a) && Foreign(a, w) && Stmts(s, a) <= plan.Gap(s.workers[w].pc)
    requires CallFollows(r, Do(s, a), w, rest, plan.Past(s.workers[w].pc, |Stmts(s, a)|), s')
    ensures CallFollows(r, s, w, [a] + rest, plan, s')
  {
    assert ([a] + rest)[1..] == rest;
  }

  lemma {:induction false} FollowsAfterOthers(r: Rules, s: State, w: nat, gap: seq<Action>, mid: State,
                                              rest: seq<Action>, plan: H.Plan, s': State)
    requires InCall(s, w) && OthersDo(r, s, w, gap, plan.Gap(s.workers[w].pc), mid)
    requires CallFollows(r, mid, w, rest, plan.Past(s.workers[w].pc, |plan.Gap(s.workers[w].pc)|), s')
    ensures CallFollows(r, s, w, gap + rest, plan, s')
    decreases |gap|
  {
    var pc := s.workers[w].pc;
    if gap == [] {
      LeadsIsRun(r, s, gap, mid);
      assert plan.Gap(pc) == [] && plan.Past(pc, 0) == plan && gap + rest == rest;
    } else {
      OthersFirstStep(r, s, w, gap, plan.Gap(pc), mid);
      var a, n := gap[0], |Stmts(s, gap[0])|;
      ForeignStep(s, a, w);
      H.PastPast(pc, plan, n);
      FollowsAfterOthers(r, Do(s, a), w, gap[1..], mid, rest, plan.Past(pc, n), s');
      FollowsWait(r, s, w, a, gap[1..] + rest, plan, s');
      ConsAppend(gap, rest);
    }
  }

  /** Whenever other processes can carry out the gaps of a plan, the pipeline has a run of the call that
      follows the plan: the call's own steps are possible throughout, under every rule. */
  lemma {:induction false} PlannedCallIsRun(r: Rules, s: State, w: nat, plan: H.Plan, others: H.Pc -> seq<Action>)
    requires InCall(s, w) && Possible(r, s, w, plan, others)
    ensures var wk := s.workers[w];
            var acts := CallActs(w, s.table, KeyOf(wk), TypeOf(wk), wk.pc, plan, others);
            exists s' :: CallFollows(r, s, w, acts, plan, s')
    decreases H.Rank(s.workers[w].pc), 1
  {
    var pc := s.workers[w].pc;
    var mid :| OthersDo(r, s, w, others(pc), plan.Gap(pc), mid) &&
               (OthersPass(r, s, w, others(pc), plan.Gap(pc), mid); PossibleNow(r, mid, w, plan, others));
    OthersPass(r, s, w, others(pc), plan.Gap(pc), mid);
    PlannedStepsAreRun(r, mid, w, plan, others);
    var wk := s.workers[w];
    var own := OwnActs(w, ExecAll(s.table, plan.Gap(pc)), KeyOf(wk), TypeOf(wk), pc, plan, others);
    var s' :| CallFollows(r, mid, w, own, plan.Past(pc, |plan.Gap(pc)|), s');
    FollowsAfterOthers(r, s, w, others(pc), mid, own, plan, s');
    assert CallActs(w, s.table, KeyOf(wk), TypeOf(wk), pc, plan, others) == others(pc) + own;
  }

  lemma PlannedStep(r: Rules, s: State, w: nat, plan: H.Plan, c: H.Choice, rest: seq<Action>)
    requires InCall(s, w) && c == plan.ChoiceAt(s.workers[w].pc)
    requires NextPc(s.table, s.workers[w], c).Done? ==> rest == []
    requires !NextPc(s.table, s.workers[w], c).Done? ==>
               exists s' :: CallFollows(r, Do(s, Handle(w, c)), w, rest, plan, s')
    ensures var pc := s.workers[w].pc;
            exists s' :: CallFollows(r, s, w, [Handle(w, c)] + rest, plan.Past(pc, |plan.Gap(pc)|), s')
  {
    var pc, s1, acts := s.workers[w].pc, Do(s, Handle(w, c)), [Handle(w, c)] + rest;
    var plan' := plan.Past(pc, |plan.Gap(pc)|);
    OwnStep(r, s, w, c);
    assert acts[1..] == rest;
    H.PastHere(pc, plan, |plan.Gap(pc)|, H.Rank(NextPc(s.table, s.workers[w], c)));
    if NextPc(s.table, s.workers[w], c).Done? {
      assert CallFollows(r, s, w, acts, plan', s1);
    } else {
      var s' :| CallFollows(r, s1, w, rest, plan, s');
      CallFollowsAgreeing(r, s1, w, rest, plan, plan', s');
      assert CallFollows(r, s, w, acts, plan', s');
    }
  }

  lemma {:induction false} PlannedStepsAreRun(r: Rules, s: State, w: nat, plan: H.Plan, others: H.Pc -> seq<Action>)
    requires InCall(s, w) && PossibleNow(r, s, w, plan, others)
    ensures var wk := s.workers[w];
            exists s' :: CallFollows(r, s, w, OwnActs(w, s.table, KeyOf(wk), TypeOf(wk), wk.pc, plan, others),
                                     plan.Past(wk.pc, |plan.Gap(wk.pc)|), s')
    decreases H.Rank(s.workers[w].pc), 0
  {
    var wk, c := s.workers[w], plan.ChoiceAt(s.workers[w].pc);
    var rest := CallActs(w, H.NextTable(s.table, KeyOf(wk), TypeOf(wk), wk.pc, c), KeyOf(wk), TypeOf(wk),
                         H.NextPc(s.table, KeyOf(wk), TypeOf(wk), wk.pc, c), plan, others);
    OwnStep(r, s, w, c);
    if !NextPc(s.table, wk, c).Done? {
      CallMoves(s, w, c);
      PlannedCallIsRun(r, Do(s, Handle(w, c)), w, plan, others);
    }
    PlannedStep(r, s, w, plan, c, rest);
    assert OwnActs(w, s.table, KeyOf(wk), TypeOf(wk), wk.pc, plan, others) == [Handle(w, c)] + rest;
  }

  function NoOthers(): H.Pc -> seq<Action> {
    _ => []
  }

  /** With nobody in between, every plan has its run. */
  lemma {:induction false} AloneIsPossible(r: Rules, s: State, w: nat, plan: H.Plan)
    requires InCall(s, w) && plan.Alone()
    ensures Possible(r, s, w, plan, NoOthers())
    decreases H.Rank(s.workers[w].pc)
  {
    var pc, c := s.workers[w].pc, plan.ChoiceAt(s.workers[w].pc);
    OwnStep(r, s, w, c);
    if !NextPc(s.table, s.workers[w], c).Done? {
      CallMoves(s, w, c);
      AloneIsPossible(r, Do(s, Handle(w, c)), w, plan);
    }
    assert PossibleNow(r, s, w, plan, NoOthers());
    LeadsNowhere(r, s);
    assert NoOthers()(pc) == [] && plan.Gap(pc) == [];
    assert OthersDo(r, s, w, NoOthers()(pc), plan.Gap(pc), s);
  }

  // ---------------------------------------------------------------- a batch

  /** A batch always starts with a whole record; a record that cannot be read is never claimed. */
  predicate Placed(s: State, w: nat) {
    && w in s.workers
    && var wk := s.workers[w];
       wk.pc.Done? || (wk.pos < |wk.batch| && (Handleable(wk.batch[wk.pos].value) || wk.pc.Ready?))
  }

  /** A run in which `recordsSafeToCommit` returns at last, with any actions of others in between. */
  ghost predicate BatchRun(r: Rules, s: State, w: nat, acts: seq<Action>, s': State)
    decreases |acts|
  {
    w in s.workers &&
    if acts == [] then s.workers[w].pc.Done? && s' == s else
    && Allowed(r, s, acts[0]) && (Foreign(acts[0], w) || acts[0].Handle?)
    && BatchRun(r, Do(s, acts[0]), w, acts[1..], s')
  }

  /** The same, with the own steps going as the plans say: `plan` for the record in hand, `plans` for those
      after it. */
  ghost predicate BatchFollows(r: Rules, s: State, w: nat, acts: seq<Action>, plan: H.Plan, plans: seq<H.Plan>,
                               s': State)
    decreases |acts|
  {
    w in s.workers &&
    if acts == [] then s.workers[w].pc.Done? && s' == s else
    Allowed(r, s, acts[0]) &&
    var a, s1, pc := acts[0], Do(s, acts[0]), s.workers[w].pc;
    if !InCall(s, w) then
      (Foreign(a, w) || a.Handle?) && BatchFollows(r, s1, w, acts[1..], plan, plans, s')
    else if Foreign(a, w) then
      Stmts(s, a) <= plan.Gap(pc) && BatchFollows(r, s1, w, acts[1..], plan.Past(pc, |Stmts(s, a)|), plans, s')
    else
      a.Handle? && plan.Gap(pc) == [] && plan.ChoiceAt(pc) == a.choice &&
      if NextPc(s.table, s.workers[w], a.choice) == H.Done(true)
      then BatchFollows(r, s1, w, acts[1..], Worker.PlanAt(plans, 0), Worker.Later(plans, 1), s')
      else BatchFollows(r, s1, w, acts[1..], plan, plans, s')
  }

  function JobOf(s: State, w: nat): Job
    requires InCall(s, w)
  {
    s.workers[w].batch[s.workers[w].pos].value.job
  }

  /** The jobs that worker `w` sends downstream in the run. */
  function Sent(s: State, w: nat, acts: seq<Action>): seq<Job>
    decreases |acts|
  {
    if acts == [] || !Enabled(s, acts[0]) then [] else
    var later := Sent(Do(s, acts[0]), w, acts[1..]);
    if acts[0] == Handle(w, H.Call) && InCall(s, w) then [JobOf(s, w)] + later else later
  }

  /** What `recordsSafeToCommit` makes of the records in front of a worker that has none in hand. */
  function Handled(wk: Pipeline.Worker, scene: Worker.Scene): (Worker.Scene, nat)
    requires wk.pos <= |wk.batch|
  {
    Partition.SafePrefix(Worker.Handle(wk.consumer), scene, wk.batch[wk.pos..])
  }

  /** The result for a batch whose next record has just returned `ok`, leaving this scene. */
  function HandledFrom(wk: Pipeline.Worker, scene: Worker.Scene, ok: bool): (Worker.Scene, nat)
    requires wk.pos < |wk.batch|
  {
    if !ok then (scene, 0) else
    var rest := Partition.SafePrefix(Worker.Handle(wk.consumer), scene, wk.batch[wk.pos + 1..]);
    (rest.0, rest.1 + 1)
  }

  function AfterCall(wk: Pipeline.Worker, sent: seq<Job>, end: (Table, bool, bool), plans: seq<H.Plan>)
    : (Worker.Scene, nat)
    requires wk.pos < |wk.batch| && Handleable(wk.batch[wk.pos].value)
  {
    var (table, ok, called) := end;
    HandledFrom(wk, Worker.Scene(table, if called then sent + [wk.batch[wk.pos].value.job] else sent, plans), ok)
  }

  /** What becomes of a batch from inside a call: the rest of the call under `plan`, then the records after
      it under `plans`; `sent` is what was delivered before. */
  function Onward(wk: Pipeline.Worker, t: Table, sent: seq<Job>, plan: H.Plan, plans: seq<H.Plan>): (Worker.Scene, nat)
    requires wk.pos < |wk.batch|
  {
    if !Handleable(wk.batch[wk.pos].value) then (Worker.Scene(t, sent, plans), 0) else
    AfterCall(wk, sent, H.RunHandler(t, KeyOf(wk), TypeOf(wk), wk.pc, plan), plans)
  }

  /** A delivery that this call still makes, or one that is already on record. */
  lemma CalledOrSent(wk: Pipeline.Worker, pc: H.Pc, sent: seq<Job>, table: Table, ok: bool, plans: seq<H.Plan>)
    requires wk.pos < |wk.batch| && Handleable(wk.batch[wk.pos].value)
    ensures AfterCall(wk, sent, (table, ok, true), plans) ==
            AfterCall(wk.(pc := pc), sent + [wk.batch[wk.pos].value.job], (table, ok, false), plans)
    ensures forall called :: AfterCall(wk, sent, (table, ok, called), plans) ==
                             AfterCall(wk.(pc := pc), sent, (table, ok, called), plans)
  {
  }

  lemma OnwardFromReady(wk: Pipeline.Worker, t: Table, sent: seq<Job>, plans: seq<H.Plan>)
    requires wk.pos < |wk.batch| && wk.pc.Ready?
    ensures Handled(wk, Worker.Scene(t, sent, plans)) ==
            Onward(wk, t, sent, Worker.PlanAt(plans, 0), Worker.Later(plans, 1))
  {
    var records, scene := wk.batch[wk.pos..], Worker.Scene(t, sent, plans);
    assert records[0] == wk.batch[wk.pos] && records[1..] == wk.batch[wk.pos + 1..];
    assert Worker.Handle(wk.consumer)(scene, records[0]) == Worker.HandleScene(wk.consumer, scene, records[0]);
  }

  function Stopped(wk: Pipeline.Worker, n: nat): Pipeline.Worker {
    wk.(pos := wk.pos + n, pc := H.Done(wk.pos + n == |wk.batch|))
  }

  ghost predicate OthersLead(t: Table, t': Table) {
    exists qs :: t' == ExecAll(t, qs)
  }

  /** The run ends as the methods do: with this prefix handled, these deliveries made, and in this table but
      for what the others did after the last call. */
  ghost predicate BatchIs(wk: Pipeline.Worker, w: nat, sent: seq<Job>, end: (Worker.Scene, nat), s': State) {
    && w in s'.workers && s'.workers[w] == Stopped(wk, end.1)
    && end.0.delivered == sent
    && OthersLead(end.0.table, s'.table)
  }

  /** From state `s` on, with `sent` delivered before, the run ends as the batch does under the plans. */
  ghost predicate Ends(s: State, w: nat, acts: seq<Action>, sent: seq<Job>, plan: H.Plan, plans: seq<H.Plan>, s': State)
    requires w in s.workers && s.workers[w].pos < |s.workers[w].batch|
  {
    BatchIs(s.workers[w], w, sent + Sent(s, w, acts), Onward(s.workers[w], s.table, sent, plan, plans), s')
  }

  lemma OthersFirst(t: Table, qs: seq<Statement>, t': Table)
    requires OthersLead(ExecAll(t, qs), t')
    ensures OthersLead(t, t')
  {
    var later :| t' == ExecAll(ExecAll(t, qs), later);
    ExecAllConcat(t, qs, later);
  }

  /** Once the batch is over, only the others move. */
  lemma {:induction false} AfterBatch(r: Rules, s: State, w: nat, acts: seq<Action>, plan: H.Plan, plans: seq<H.Plan>,
                                      s': State)
    requires BatchFollows(r, s, w, acts, plan, plans, s') && s.workers[w].pc.Done?
    ensures Leads(r, s, acts, s') && w in s'.workers && s'.workers[w] == s.workers[w]
    ensures Sent(s, w, acts) == [] && OthersLead(s.table, s'.table)
    decreases |acts|
  {
    if acts == [] {
      LeadsNowhere(r, s);
      assert s.table == ExecAll(s.table, []);
    } else {
      ForeignStep(s, acts[0], w);
      AfterBatch(r, Do(s, acts[0]), w, acts[1..], plan, plans, s');
      OthersFirst(s.table, Stmts(s, acts[0]), s'.table);
      LeadsStep(r, s, acts, s');
    }
  }

  /** Another process moves while the record in hand has not been looked at and never will be. */
  lemma UnreadableWaits(s: State, w: nat, a: Action, rest: seq<Action>, sent: seq<Job>, plan: H.Plan,
                        plans: seq<H.Plan>, s': State)
    requires Placed(s, w) && !s.workers[w].pc.Done? && !InCall(s, w) && Enabled(s, a) && Foreign(a, w)
    requires Placed(Do(s, a), w) && Do(s, a).workers[w] == s.workers[w]
    requires Ends(Do(s, a), w, rest, sent, plan, plans, s')
    ensures Ends(s, w, [a] + rest, sent, plan, plans, s')
  {
    ForeignStep(s, a, w);
    OthersFirst(s.table, Stmts(s, a), s'.table);
    assert ([a] + rest)[1..] == rest;
  }

  /** Another process moves during the call. */
  lemma BatchWaits(s: State, w: nat, a: Action, rest: seq<Action>, sent: seq<Job>, plan: H.Plan, plans: seq<H.Plan>,
                   s': State)
    requires InCall(s, w) && Enabled(s, a) && Foreign(a, w) && Stmts(s, a) <= plan.Gap(s.workers[w].pc)
    requires var wk, s1 := s.workers[w], Do(s, a);
             && w in s1.workers && s1.workers[w] == wk
             && Ends(s1, w, rest, sent, plan.Past(wk.pc, |Stmts(s, a)|), plans, s')
    ensures Ends(s, w, [a] + rest, sent, plan, plans, s')
  {
    var wk := s.workers[w];
    ForeignStep(s, a, w);
    H.PastRuns(s.table, KeyOf(wk), TypeOf(wk), wk.pc, plan, |Stmts(s, a)|);
    assert ([a] + rest)[1..] == rest;
  }

  /** The call returns: the plan of the next record takes over, if the batch goes on. */
  lemma RecordReturns(s: State, w: nat, c: H.Choice, plan: H.Plan, plans: seq<H.Plan>, sent: seq<Job>)
    requires InCall(s, w) && H.Enabled(s.workers[w].pc, c) && NextPc(s.table, s.workers[w], c).Done?
    requires plan.Gap(s.workers[w].pc) == [] && plan.ChoiceAt(s.workers[w].pc) == c
    ensures var wk, s1 := s.workers[w], Do(s, Handle(w, c));
            Onward(wk, s.table, sent, plan, plans) ==
            HandledFrom(wk, Worker.Scene(s1.table, sent, plans), NextPc(s.table, wk, c).ok)
  {
    var wk := s.workers[w];
    OwnStep(NO_RULES, s, w, c);
    H.RunStep(s.table, KeyOf(wk), TypeOf(wk), wk.pc, plan);
  }

  /** From the answer on, a call delivers nothing more. */
  lemma {:induction false} DeliversOnce(t: Table, k: Key, ty: string, pc: H.Pc, plan: H.Plan)
    requires pc.Calling? || pc.GotOk? || pc.GotError? || pc.Done?
    ensures !H.RunHandler(t, k, ty, pc, plan).2
    decreases H.Rank(pc)
  {
    if !pc.Done? {
      var t0, c := ExecAll(t, plan.Gap(pc)), plan.ChoiceAt(pc);
      DeliversOnce(H.NextTable(t0, k, ty, pc, c), k, ty, H.NextPc(t0, k, ty, pc, c), plan);
    }
  }

  /** The call goes on: a delivery is on record from its own step on. */
  lemma RecordGoesOn(s: State, w: nat, c: H.Choice, plan: H.Plan, plans: seq<H.Plan>, sent: seq<Job>)
    requires InCall(s, w) && H.Enabled(s.workers[w].pc, c) && !NextPc(s.table, s.workers[w], c).Done?
    requires plan.Gap(s.workers[w].pc) == [] && plan.ChoiceAt(s.workers[w].pc) == c
    ensures var wk, s1 := s.workers[w], Do(s, Handle(w, c));
            && InCall(s1, w) && (forall n :: Stopped(s1.workers[w], n) == Stopped(wk, n))
            && Onward(wk, s.table, sent, plan, plans) ==
               Onward(s1.workers[w], s1.table, if c.Call? then sent + [JobOf(s, w)] else sent, plan, plans)
  {
    var wk, s1 := s.workers[w], Do(s, Handle(w, c));
    CallMoves(s, w, c);
    H.RunStep(s.table, KeyOf(wk), TypeOf(wk), wk.pc, plan);
    if c.Call? {
      DeliversOnce(s1.table, KeyOf(wk), TypeOf(wk), s1.workers[w].pc, plan);
    }
    var end := H.RunHandler(s1.table, KeyOf(wk), TypeOf(wk), s1.workers[w].pc, plan);
    CalledOrSent(wk, s1.workers[w].pc, sent, end.0, end.1, plans);
  }

  lemma SentOwn(s: State, w: nat, c: H.Choice, rest: seq<Action>, sent: seq<Job>)
    requires InCall(s, w) && H.Enabled(s.workers[w].pc, c)
    ensures sent + Sent(s, w, [Handle(w, c)] + rest) ==
            (if c.Call? then sent + [JobOf(s, w)] else sent) + Sent(Do(s, Handle(w, c)), w, rest)
  {
    assert ([Handle(w, c)] + rest)[1..] == rest;
    assert (sent + [JobOf(s, w)]) + Sent(Do(s, Handle(w, c)), w, rest) ==
           sent + ([JobOf(s, w)] + Sent(Do(s, Handle(w, c)), w, rest));
  }

  lemma BatchEnds(s: State, w: nat, c: H.Choice, rest: seq<Action>, sent: seq<Job>, plan: H.Plan, plans: seq<H.Plan>,
                  s': State)
    requires InCall(s, w) && H.Enabled(s.workers[w].pc, c) && NextPc(s.table, s.workers[w], c).Done?
    requires plan.Gap(s.workers[w].pc) == [] && plan.ChoiceAt(s.workers[w].pc) == c
    requires var s1 := Do(s, Handle(w, c));
             && w in s1.workers && s1.workers[w].pc.Done? && w in s'.workers && s'.workers[w] == s1.workers[w]
             && Sent(s1, w, rest) == [] && OthersLead(s1.table, s'.table)
    ensures Ends(s, w, [Handle(w, c)] + rest, sent, plan, plans, s')
  {
    var wk, s1 := s.workers[w], Do(s, Handle(w, c));
    RecordReturns(s, w, c, plan, plans, sent);
    SentOwn(s, w, c, rest, sent);
    if NextPc(s.table, wk, c).ok {
      assert wk.batch[wk.pos + 1..] == [];
    }
  }

  lemma Carries(s: State, w: nat, acts: seq<Action>, sent: seq<Job>, plan: H.Plan, plans: seq<H.Plan>,
                s1: State, rest: seq<Action>, sent1: seq<Job>, plan1: H.Plan, plans1: seq<H.Plan>, s': State)
    requires w in s.workers && s.workers[w].pos < |s.workers[w].batch|
    requires w in s1.workers && s1.workers[w].pos < |s1.workers[w].batch|
    requires Ends(s1, w, rest, sent1, plan1, plans1, s')
    requires sent + Sent(s, w, acts) == sent1 + Sent(s1, w, rest)
    requires var end := Onward(s.workers[w], s.table, sent, plan, plans);
             var end1 := Onward(s1.workers[w], s1.table, sent1, plan1, plans1);
             end.0 == end1.0 && Stopped(s.workers[w], end.1) == Stopped(s1.workers[w], end1.1)
    ensures Ends(s, w, acts, sent, plan, plans, s')
  {
  }

  /** After a call that returned true the batch is as long as what its next record makes of it, and one. */
  lemma NextIsReady(wk: Pipeline.Worker, wk1: Pipeline.Worker, t: Table, sent: seq<Job>, plans: seq<H.Plan>, ok: bool)
    requires wk.pos + 1 < |wk.batch| && wk1 == wk.(pos := wk.pos + 1, pc := H.Ready) && ok
    ensures var end := HandledFrom(wk, Worker.Scene(t, sent, plans), ok);
            var end1 := Onward(wk1, t, sent, Worker.PlanAt(plans, 0), Worker.Later(plans, 1));
            end.0 == end1.0 && end.1 == end1.1 + 1
  {
    OnwardFromReady(wk1, t, sent, plans);
  }

  lemma MovedOn(s: State, w: nat, c: H.Choice)
    requires InCall(s, w) && H.Enabled(s.workers[w].pc, c) && NextPc(s.table, s.workers[w], c) == H.Done(true)
    requires s.workers[w].pos + 1 < |s.workers[w].batch|
    ensures var wk, s1 := s.workers[w], Do(s, Handle(w, c));
            w in s1.workers && s1.workers[w] == wk.(pos := wk.pos + 1, pc := H.Ready)
  {
    OwnFields(s, w, c);
  }

  /** The call returned true and the batch goes on. */
  lemma RecordThenMore(s: State, w: nat, c: H.Choice, plan: H.Plan, plans: seq<H.Plan>, sent: seq<Job>)
    requires InCall(s, w) && H.Enabled(s.workers[w].pc, c) && NextPc(s.table, s.workers[w], c) == H.Done(true)
    requires plan.Gap(s.workers[w].pc) == [] && plan.ChoiceAt(s.workers[w].pc) == c
    requires s.workers[w].pos + 1 < |s.workers[w].batch|
    ensures var wk, s1 := s.workers[w], Do(s, Handle(w, c));
            && w in s1.workers && s1.workers[w] == wk.(pos := wk.pos + 1, pc := H.Ready)
            && var end := Onward(wk, s.table, sent, plan, plans);
               var end1 := Onward(s1.workers[w], s1.table, sent, Worker.PlanAt(plans, 0), Worker.Later(plans, 1));
               end.0 == end1.0 && end.1 == end1.1 + 1
  {
    MovedOn(s, w, c);
    RecordReturns(s, w, c, plan, plans, sent);
    var s1 := Do(s, Handle(w, c));
    NextIsReady(s.workers[w], s1.workers[w], s1.table, sent, plans, NextPc(s.table, s.workers[w], c).ok);
  }

  /** Where an own step leaves the worker. */
  lemma PlacedStep(s: State, w: nat, c: H.Choice)
    requires Placed(s, w) && Enabled(s, Handle(w, c))
    ensures var wk, s1 := s.workers[w], Do(s, Handle(w, c));
            && Placed(s1, w)
            && (!InCall(s, w) ==> s1.workers[w] == Stopped(wk, 0) && s1.table == s.table)
            && (InCall(s, w) && NextPc(s.table, wk, c) == H.Done(false) ==> s1.workers[w].pc.Done?)
            && (InCall(s, w) && !NextPc(s.table, wk, c).Done? ==> InCall(s1, w))
  {
  }

  /** `recordsSafeToCommit` under plans is what the pipeline does in every run that follows them. */
  lemma {:induction false} BatchRefines(r: Rules, s: State, w: nat, acts: seq<Action>, sent: seq<Job>, plan: H.Plan,
                                        plans: seq<H.Plan>, s': State)
    requires BatchFollows(r, s, w, acts, plan, plans, s') && Placed(s, w) && !s.workers[w].pc.Done?
    ensures Leads(r, s, acts, s') && Ends(s, w, acts, sent, plan, plans, s')
    decreases |acts|, 1
  {
    var a, rest, s1, wk := acts[0], acts[1..], Do(s, acts[0]), s.workers[w];
    assert acts == [a] + rest;
    if Foreign(a, w) {
      ForeignStep(s, a, w);
      if InCall(s, w) {
        BatchRefines(r, s1, w, rest, sent, plan.Past(wk.pc, |Stmts(s, a)|), plans, s');
        BatchWaits(s, w, a, rest, sent, plan, plans, s');
      } else {
        BatchRefines(r, s1, w, rest, sent, plan, plans, s');
        UnreadableWaits(s, w, a, rest, sent, plan, plans, s');
      }
    } else {
      PlacedStep(s, w, a.choice);
      OwnRefines(r, s, w, a.choice, rest, sent, plan, plans, s');
    }
    LeadsStep(r, s, acts, s');
  }

  lemma {:induction false} OwnRefines(r: Rules, s: State, w: nat, c: H.Choice, rest: seq<Action>, sent: seq<Job>,
                                      plan: H.Plan, plans: seq<H.Plan>, s': State)
    requires BatchFollows(r, s, w, [Handle(w, c)] + rest, plan, plans, s') && Placed(s, w) && !s.workers[w].pc.Done?
    ensures Leads(r, Do(s, Handle(w, c)), rest, s') && Ends(s, w, [Handle(w, c)] + rest, sent, plan, plans, s')
    decreases |rest| + 1, 0
  {
    var wk, s1 := s.workers[w], Do(s, Handle(w, c));
    assert ([Handle(w, c)] + rest)[1..] == rest;
    PlacedStep(s, w, c);
    if !InCall(s, w) {
      AfterBatch(r, s1, w, rest, plan, plans, s');
    } else if NextPc(s.table, wk, c) == H.Done(true) {
      if wk.pos + 1 == |wk.batch| {
        AfterBatch(r, s1, w, rest, Worker.PlanAt(plans, 0), Worker.Later(plans, 1), s');
        BatchEnds(s, w, c, rest, sent, plan, plans, s');
      } else {
        NextRecordRefines(r, s, w, c, rest, sent, plan, plans, s');
      }
    } else if NextPc(s.table, wk, c).Done? {
      AfterBatch(r, s1, w, rest, plan, plans, s');
      BatchEnds(s, w, c, rest, sent, plan, plans, s');
    } else {
      SameCallRefines(r, s, w, c, rest, sent, plan, plans, s');
    }
  }

  lemma {:induction false} NextRecordRefines(r: Rules, s: State, w: nat, c: H.Choice, rest: seq<Action>, sent: seq<Job>,
                                             plan: H.Plan, plans: seq<H.Plan>, s': State)
    requires InCall(s, w) && H.Enabled(s.workers[w].pc, c) && NextPc(s.table, s.workers[w], c) == H.Done(true)
    requires plan.Gap(s.workers[w].pc) == [] && plan.ChoiceAt(s.workers[w].pc) == c
    requires s.workers[w].pos + 1 < |s.workers[w].batch|
    requires BatchFollows(r, Do(s, Handle(w, c)), w, rest, Worker.PlanAt(plans, 0), Worker.Later(plans, 1), s')
    ensures Leads(r, Do(s, Handle(w, c)), rest, s') && Ends(s, w, [Handle(w, c)] + rest, sent, plan, plans, s')
    decreases |rest|, 2
  {
    var s1 := Do(s, Handle(w, c));
    RecordThenMore(s, w, c, plan, plans, sent);
    BatchRefines(r, s1, w, rest, sent, Worker.PlanAt(plans, 0), Worker.Later(plans, 1), s');
    SentOwn(s, w, c, rest, sent);
    Carries(s, w, [Handle(w, c)] + rest, sent, plan, plans, s1, rest, sent, Worker.PlanAt(plans, 0),
            Worker.Later(plans, 1), s');
  }

  lemma {:induction false} SameCallRefines(r: Rules, s: State, w: nat, c: H.Choice, rest: seq<Action>, sent: seq<Job>,
                                           plan: H.Plan, plans: seq<H.Plan>, s': State)
    requires InCall(s, w) && H.Enabled(s.workers[w].pc, c) && !NextPc(s.table, s.workers[w], c).Done?
    requires plan.Gap(s.workers[w].pc) == [] && plan.ChoiceAt(s.workers[w].pc) == c
    requires BatchFollows(r, Do(s, Handle(w, c)), w, rest, plan, plans, s')
    ensures Leads(r, Do(s, Handle(w, c)), rest, s') && Ends(s, w, [Handle(w, c)] + rest, sent, plan, plans, s')
    decreases |rest|, 2
  {
    var s1, sent1 := Do(s, Handle(w, c)), if c.Call? then sent + [JobOf(s, w)] else sent;
    RecordGoesOn(s, w, c, plan, plans, sent);
    SentOwn(s, w, c, rest, sent);
    BatchRefines(r, s1, w, rest, sent1, plan, plans, s');
    Carries(s, w, [Handle(w, c)] + rest, sent, plan, plans, s1, rest, sent1, plan, plans, s');
  }

  lemma {:induction false} BatchFollowsAgreeing(r: Rules, s: State, w: nat, acts: seq<Action>, p: H.Plan, p': H.Plan,
                                                plans: seq<H.Plan>, s': State)
    requires BatchFollows(r, s, w, acts, p, plans, s') && Placed(s, w)
    requires InCall(s, w) ==> H.Agree(p, p', H.Rank(s.workers[w].pc))
    ensures BatchFollows(r, s, w, acts, p', plans, s')
    decreases |acts|
  {
    if acts != [] {
      var a, rest, s1, pc := acts[0], acts[1..], Do(s, acts[0]), s.workers[w].pc;
      if Foreign(a, w) { ForeignStep(s, a, w); } else { PlacedStep(s, w, a.choice); }
      if !InCall(s, w) {
        BatchFollowsAgreeing(r, s1, w, rest, p, p', plans, s');
      } else if Foreign(a, w) {
        var n := |Stmts(s, a)|;
        H.PastAgree(pc, p, p', n);
        BatchFollowsAgreeing(r, s1, w, rest, p.Past(pc, n), p'.Past(pc, n), plans, s');
      } else if NextPc(s.table, s.workers[w], a.choice) != H.Done(true) {
        OwnStep(r, s, w, a.choice);
        BatchFollowsAgreeing(r, s1, w, rest, p, p', plans, s');
      }
    }
  }

  /** No other process executes a statement at these rows during the run. */
  ghost predicate OthersAvoid(s: State, w: nat, acts: seq<Action>, rows: set<Key>)
    decreases |acts|
  {
    acts == [] ||
    (Enabled(s, acts[0]) && (Foreign(acts[0], w) ==> Avoid(Stmts(s, acts[0]), rows)) &&
     OthersAvoid(Do(s, acts[0]), w, acts[1..], rows))
  }

  lemma {:induction false} AvoidNothing(r: Rules, s: State, w: nat, acts: seq<Action>, s': State)
    requires BatchRun(r, s, w, acts, s')
    ensures OthersAvoid(s, w, acts, {})
    decreases |acts|
  {
    if acts != [] {
      AvoidNothing(r, Do(s, acts[0]), w, acts[1..], s');
    }
  }

  /** The run follows these plans, which leave these rows to the worker. */
  ghost predicate FollowsAway(r: Rules, s: State, w: nat, acts: seq<Action>, rows: set<Key>, plan: H.Plan,
                              plans: seq<H.Plan>, s': State) {
    BatchFollows(r, s, w, acts, plan, plans, s') && plan.AwayFrom(rows) && Worker.AllAway(plans, rows)
  }

  lemma WaitHasPlans(r: Rules, s: State, w: nat, a: Action, rest: seq<Action>, rows: set<Key>, plan1: H.Plan,
                     plans1: seq<H.Plan>, s': State)
    requires w in s.workers && Allowed(r, s, a) && (Foreign(a, w) || (a.Handle? && !InCall(s, w)))
    requires Foreign(a, w) ==> Avoid(Stmts(s, a), rows)
    requires FollowsAway(r, Do(s, a), w, rest, rows, plan1, plans1, s')
    ensures exists plan, plans :: FollowsAway(r, s, w, [a] + rest, rows, plan, plans, s')
  {
    var acts, pc := [a] + rest, s.workers[w].pc;
    assert acts[1..] == rest;
    if InCall(s, w) {
      H.PastBefore(pc, plan1, Stmts(s, a));
      H.StillAway(pc, plan1, Stmts(s, a), rows);
      assert FollowsAway(r, s, w, acts, rows, plan1.Before(pc, Stmts(s, a)), plans1, s');
    } else {
      assert FollowsAway(r, s, w, acts, rows, plan1, plans1, s');
    }
  }

  lemma OwnStepHasPlans(r: Rules, s: State, w: nat, c: H.Choice, rest: seq<Action>, rows: set<Key>, plan1: H.Plan,
                        plans1: seq<H.Plan>, s': State)
    requires InCall(s, w) && H.Enabled(s.workers[w].pc, c)
    requires FollowsAway(r, Do(s, Handle(w, c)), w, rest, rows, plan1, plans1, s')
    ensures exists plan, plans :: FollowsAway(r, s, w, [Handle(w, c)] + rest, rows, plan, plans, s')
  {
    var s1, pc, acts := Do(s, Handle(w, c)), s.workers[w].pc, [Handle(w, c)] + rest;
    assert acts[1..] == rest;
    var plan := plan1.Deciding(pc, c);
    OwnStep(r, s, w, c);
    H.ChangedHere(pc, plan1, [], c, H.Rank(NextPc(s.table, s.workers[w], c)));
    H.StillAway(pc, plan1, [], rows);
    if NextPc(s.table, s.workers[w], c) == H.Done(true) {
      var plans := [plan1] + plans1;
      Worker.FirstPlan(plan1, plans1, rows);
      assert FollowsAway(r, s, w, acts, rows, plan, plans, s');
    } else {
      BatchFollowsAgreeing(r, s1, w, rest, plan1, plan, plans1, s');
      assert FollowsAway(r, s, w, acts, rows, plan, plans1, s');
    }
  }

  /** The plans for a run are read off its own steps and off the statements between them. */
  lemma {:induction false} BatchHasPlans(r: Rules, s: State, w: nat, acts: seq<Action>, rows: set<Key>, s': State)
    requires BatchRun(r, s, w, acts, s') && Placed(s, w) && OthersAvoid(s, w, acts, rows)
    ensures exists plan, plans :: FollowsAway(r, s, w, acts, rows, plan, plans, s')
    decreases |acts|
  {
    if acts == [] {
      assert FollowsAway(r, s, w, acts, rows, Worker.CLEAN_PLAN, [], s');
    } else {
      var a, rest, s1 := acts[0], acts[1..], Do(s, acts[0]);
      if Foreign(a, w) { ForeignStep(s, a, w); } else { PlacedStep(s, w, a.choice); }
      BatchHasPlans(r, s1, w, rest, rows, s');
      var plan1, plans1 :| FollowsAway(r, s1, w, rest, rows, plan1, plans1, s');
      HeadTail(acts);
      if InCall(s, w) && !Foreign(a, w) {
        OwnStepHasPlans(r, s, w, a.choice, rest, rows, plan1, plans1, s');
      } else {
        WaitHasPlans(r, s, w, a, rest, rows, plan1, plans1, s');
      }
    }
  }

  /** A run of a call and a run of the rest of the batch make a run of the batch. */
  lemma {:induction false} CallThenBatch(r: Rules, s: State, w: nat, acts: seq<Action>, plan: H.Plan, s1: State,
                                         rest: seq<Action>, plans: seq<H.Plan>, s': State)
    requires CallFollows(r, s, w, acts, plan, s1) && w in s1.workers
    requires if s1.workers[w].pos > s.workers[w].pos
             then BatchFollows(r, s1, w, rest, Worker.PlanAt(plans, 0), Worker.Later(plans, 1), s')
             else BatchFollows(r, s1, w, rest, plan, plans, s')
    ensures BatchFollows(r, s, w, acts + rest, plan, plans, s')
    decreases |acts|, 1
  {
    var a := acts[0];
    ConsAppend(acts, rest);
    if Foreign(a, w) {
      CallThenBatchWaits(r, s, w, acts, plan, s1, rest, plans, s');
    } else if NextPc(s.table, s.workers[w], a.choice).Done? {
      OwnStep(r, s, w, a.choice);
      assert acts[1..] + rest == rest;
    } else {
      OwnStep(r, s, w, a.choice);
      CallThenBatch(r, Do(s, a), w, acts[1..], plan, s1, rest, plans, s');
    }
  }

  lemma BatchFollowsWait(r: Rules, s: State, w: nat, a: Action, rest: seq<Action>, plan: H.Plan, plans: seq<H.Plan>,
                         s': State)
    requires InCall(s, w) && Allowed(r, s, a) && Foreign(a, w) && Stmts(s, a) <= plan.Gap(s.workers[w].pc)
    requires BatchFollows(r, Do(s, a), w, rest, plan.Past(s.workers[w].pc, |Stmts(s, a)|), plans, s')
    ensures BatchFollows(r, s, w, [a] + rest, plan, plans, s')
  {
    assert ([a] + rest)[1..] == rest;
  }

  /** A call that has returned false leaves the batch over, one that has returned true moves it on. */
  lemma CallMovesOn(r: Rules, s: State, w: nat, acts: seq<Action>, plan: H.Plan, s': State)
    requires CallFollows(r, s, w, acts, plan, s')
    ensures w in s'.workers && s'.workers[w].pos >= s.workers[w].pos
    ensures s'.workers[w].pos == s.workers[w].pos ==> !InCall(s', w) && Placed(s', w)
  {
    CallRefines(r, s, w, acts, plan, s');
  }

  lemma {:induction false} CallThenBatchWaits(r: Rules, s: State, w: nat, acts: seq<Action>, plan: H.Plan, s1: State,
                                              rest: seq<Action>, plans: seq<H.Plan>, s': State)
    requires CallFollows(r, s, w, acts, plan, s1) && w in s1.workers && Foreign(acts[0], w)
    requires if s1.workers[w].pos > s.workers[w].pos
             then BatchFollows(r, s1, w, rest, Worker.PlanAt(plans, 0), Worker.Later(plans, 1), s')
             else BatchFollows(r, s1, w, rest, plan, plans, s')
    ensures BatchFollows(r, s, w, [acts[0]] + (acts[1..] + rest), plan, plans, s')
    decreases |acts|, 0
  {
    var a, plan1 := acts[0], plan.Past(s.workers[w].pc, |Stmts(s, acts[0])|);
    ForeignStep(s, a, w);
    CallMovesOn(r, Do(s, a), w, acts[1..], plan1, s1);
    if s1.workers[w].pos == s.workers[w].pos {
      BatchFollowsAgreeing(r, s1, w, rest, plan, plan1, plans, s');
    }
    CallThenBatch(r, Do(s, a), w, acts[1..], plan1, s1, rest, plans, s');
    BatchFollowsWait(r, s, w, a, acts[1..] + rest, plan, plans, s');
  }

  lemma BatchFromCall(r: Rules, s: State, w: nat, acts: seq<Action>, plan: H.Plan, s1: State, plans: seq<H.Plan>)
    requires CallFollows(r, s, w, acts, plan, s1) && w in s1.workers
    requires s1.workers[w].pc.Done? ||
             (s1.workers[w].pos > s.workers[w].pos &&
              exists rest, s' :: BatchFollows(r, s1, w, rest, Worker.PlanAt(plans, 0), Worker.Later(plans, 1), s'))
    ensures exists all, s' :: BatchFollows(r, s, w, all, plan, plans, s')
  {
    if s1.workers[w].pc.Done? {
      CallThenBatch(r, s, w, acts, plan, s1, [], plans, s1);
    } else {
      var rest, s' :| BatchFollows(r, s1, w, rest, Worker.PlanAt(plans, 0), Worker.Later(plans, 1), s');
      CallThenBatch(r, s, w, acts, plan, s1, rest, plans, s');
    }
  }

  /** Where a call that has returned leaves the worker. */
  lemma CallLeaves(s: State, w: nat, acts: seq<Action>, plan: H.Plan, s': State)
    requires InCall(s, w) && CallIs(s, w, acts, plan, s')
    ensures Placed(s', w) && |s'.workers[w].batch| == |s.workers[w].batch|
    ensures var wk, wk' := s.workers[w], s'.workers[w];
            wk'.pc.Done? || (wk'.pc.Ready? && wk'.pos == wk.pos + 1)
  {
  }

  lemma UnreadableIsRun(r: Rules, s: State, w: nat, plan: H.Plan, plans: seq<H.Plan>)
    requires Placed(s, w) && s.workers[w].pc.Ready? && !InCall(s, w)
    ensures exists acts, s' :: BatchFollows(r, s, w, acts, plan, plans, s')
  {
    var a := Handle(w, H.Db(NoFault));
    PlacedStep(s, w, a.choice);
    assert BatchFollows(r, s, w, [a], plan, plans, Do(s, a));
  }

  /** A choice that the plan makes at some step. */
  predicate Planned(plan: H.Plan, c: H.Choice) {
    match c
    case Db(fault) => fault == plan.insert || fault == plan.select || fault == plan.update || fault == plan.mark
    case Call => true
    case Answer(transport) => transport == plan.transport
  }

  /** Nobody but the worker moves, and it only handles records, as the plan says. */
  predicate AsPlanned(w: nat, plan: H.Plan, acts: seq<Action>) {
    forall i :: 0 <= i < |acts| ==> acts[i].Handle? && acts[i].w == w && Planned(plan, acts[i].choice)
  }

  lemma {:induction false} AloneActsAsPlanned(w: nat, t: Table, k: Key, ty: string, pc: H.Pc, plan: H.Plan)
    ensures AsPlanned(w, plan, CallActs(w, t, k, ty, pc, plan, NoOthers()))
    decreases H.Rank(pc)
  {
    if !pc.Done? {
      var t0, c := ExecAll(t, plan.Gap(pc)), plan.ChoiceAt(pc);
      var rest := CallActs(w, H.NextTable(t0, k, ty, pc, c), k, ty, H.NextPc(t0, k, ty, pc, c), plan, NoOthers());
      AloneActsAsPlanned(w, H.NextTable(t0, k, ty, pc, c), k, ty, H.NextPc(t0, k, ty, pc, c), plan);
      assert CallActs(w, t, k, ty, pc, plan, NoOthers()) == [] + ([Handle(w, c)] + rest);
    }
  }

  lemma AloneCallIsRun(r: Rules, s: State, w: nat, plan: H.Plan)
    requires InCall(s, w) && plan.Alone()
    ensures exists acts, s' ::
              AsPlanned(w, plan, acts) && CallFollows(r, s, w, acts, plan, s') && CallIs(s, w, acts, plan, s')
  {
    AloneIsPossible(r, s, w, plan);
    PlannedCallIsRun(r, s, w, plan, NoOthers());
    var wk := s.workers[w];
    var acts := CallActs(w, s.table, KeyOf(wk), TypeOf(wk), wk.pc, plan, NoOthers());
    AloneActsAsPlanned(w, s.table, KeyOf(wk), TypeOf(wk), wk.pc, plan);
    var s' :| CallFollows(r, s, w, acts, plan, s');
    CallRefines(r, s, w, acts, plan, s');
  }

  /** With nobody in between, every sequence of plans has its run of a batch. */
  lemma {:induction false} AloneBatchIsRun(r: Rules, s: State, w: nat, plans: seq<H.Plan>)
    requires Placed(s, w) && s.workers[w].pc.Ready? && forall i :: 0 <= i < |plans| ==> plans[i].Alone()
    ensures exists acts, s' :: BatchFollows(r, s, w, acts, Worker.PlanAt(plans, 0), Worker.Later(plans, 1), s')
    decreases |s.workers[w].batch| - s.workers[w].pos
  {
    var plan, later := Worker.PlanAt(plans, 0), Worker.Later(plans, 1);
    if !InCall(s, w) {
      UnreadableIsRun(r, s, w, plan, later);
    } else {
      AloneCallIsRun(r, s, w, plan);
      var acts, s1 :| CallFollows(r, s, w, acts, plan, s1) && CallIs(s, w, acts, plan, s1);
      CallLeaves(s, w, acts, plan, s1);
      if !s1.workers[w].pc.Done? {
        AloneBatchIsRun(r, s1, w, later);
      }
      BatchFromCall(r, s, w, acts, plan, s1, later);
    }
  }

  // ---------------------------------------------------------------- one poll

  function OffsetAfter(committed: map<Slot, nat>, slot: Slot, start: nat, n: nat, fault: Fault): map<Slot, nat> {
    if n == 0 || fault.ErrLost? then committed else committed[slot := start + n]
  }

  function PollActs(w: nat, consumer: string, p: nat, start: nat, poll: Worker.PollPlan,
                    body: seq<Action>): seq<Action> {
    [Poll(w, consumer, p, start, poll.count)] + (body + [CommitOffset(w, poll.commit)])
  }

  /** A batch is fetched, its records are handled in the run `body` up to state `mid`, following the plans. */
  ghost predicate PollFollows(r: Rules, s: State, w: nat, consumer: string, p: nat, start: nat, poll: Worker.PollPlan,
                              body: seq<Action>, mid: State) {
    var a := Poll(w, consumer, p, start, poll.count);
    && Allowed(r, s, a)
    && BatchFollows(r, Do(s, a), w, body, Worker.PlanAt(poll.plans, 0), Worker.Later(poll.plans, 1), mid)
  }

  function Fetched(s: State, consumer: string, p: nat, start: nat, count: nat): Pipeline.Worker
    requires start + count <= |Log(s.log, p)|
  {
    Pipeline.Worker(consumer, p, start, Log(s.log, p)[start..start + count], 0, H.Ready)
  }

  lemma FetchStep(s: State, w: nat, consumer: string, p: nat, start: nat, count: nat)
    requires Enabled(s, Poll(w, consumer, p, start, count))
    ensures var s1 := Do(s, Poll(w, consumer, p, start, count));
            && Placed(s1, w) && s1.table == s.table
            && s1.workers[w] == Fetched(s, consumer, p, start, count)
  {
  }

  lemma CommitStep(r: Rules, s: State, w: nat, fault: Fault)
    requires w in s.workers && s.workers[w].pc.Done?
    ensures Allowed(r, s, CommitOffset(w, fault))
    ensures var wk, s' := s.workers[w], Do(s, CommitOffset(w, fault));
            && s'.table == s.table && s'.workers == s.workers - {w}
            && s'.committed == OffsetAfter(s.committed, Slot(wk.consumer, wk.part), wk.start, wk.pos, fault)
  {
  }

  lemma WholeBatch(wk: Pipeline.Worker, scene: Worker.Scene)
    requires wk.pos == 0
    ensures Handled(wk, scene) == Partition.SafePrefix(Worker.Handle(wk.consumer), scene, wk.batch)
  {
    assert wk.batch[0..] == wk.batch;
  }

  /** The batch of a poll: the prefix that the poll will commit, and what its calls did. */
  lemma FetchedRefines(r: Rules, s: State, w: nat, consumer: string, p: nat, start: nat, poll: Worker.PollPlan,
                       body: seq<Action>, mid: State, sent: seq<Job>)
    requires PollFollows(r, s, w, consumer, p, start, poll, body, mid)
    ensures var s1 := Do(s, Poll(w, consumer, p, start, poll.count));
            var wk := Fetched(s, consumer, p, start, poll.count);
            && Leads(r, s1, body, mid)
            && BatchIs(wk, w, sent + Sent(s1, w, body), Handled(wk, Worker.Scene(s.table, sent, poll.plans)), mid)
  {
    FetchStep(s, w, consumer, p, start, poll.count);
    var s1 := Do(s, Poll(w, consumer, p, start, poll.count));
    BatchRefines(r, s1, w, body, sent, Worker.PlanAt(poll.plans, 0), Worker.Later(poll.plans, 1), mid);
    OnwardFromReady(s1.workers[w], s.table, sent, poll.plans);
  }

  lemma PollLeads(r: Rules, s: State, w: nat, consumer: string, p: nat, start: nat, poll: Worker.PollPlan,
                  body: seq<Action>, mid: State)
    requires Allowed(r, s, Poll(w, consumer, p, start, poll.count))
    requires Leads(r, Do(s, Poll(w, consumer, p, start, poll.count)), body, mid)
    requires Allowed(r, mid, CommitOffset(w, poll.commit))
    ensures Leads(r, s, PollActs(w, consumer, p, start, poll, body), Do(mid, CommitOffset(w, poll.commit)))
  {
    var a, c := Poll(w, consumer, p, start, poll.count), CommitOffset(w, poll.commit);
    LeadsOne(r, mid, c);
    LeadsConcat(r, Do(s, a), body, mid, [c], Do(mid, c));
    LeadsCons(r, s, a, body + [c], Do(mid, c));
  }

  /** What `Worker.Process.PollOnce` makes of a poll in this state. */
  function Polled(s: State, consumer: string, p: nat, start: nat, poll: Worker.PollPlan, sent: seq<Job>)
    : (Worker.Scene, nat)
    requires start + poll.count <= |Log(s.log, p)|
  {
    Partition.SafePrefix(Worker.Handle(consumer), Worker.Scene(s.table, sent, poll.plans),
                         Log(s.log, p)[start..start + poll.count])
  }

  lemma PolledIsHandled(s: State, consumer: string, p: nat, start: nat, poll: Worker.PollPlan, sent: seq<Job>)
    requires start + poll.count <= |Log(s.log, p)|
    ensures Polled(s, consumer, p, start, poll, sent) ==
            Handled(Fetched(s, consumer, p, start, poll.count), Worker.Scene(s.table, sent, poll.plans))
  {
    WholeBatch(Fetched(s, consumer, p, start, poll.count), Worker.Scene(s.table, sent, poll.plans));
  }

  lemma BatchBeforeCommit(r: Rules, s: State, w: nat, consumer: string, p: nat, start: nat, poll: Worker.PollPlan,
                          body: seq<Action>, mid: State, sent: seq<Job>)
    requires PollFollows(r, s, w, consumer, p, start, poll, body, mid)
    ensures BatchIs(Fetched(s, consumer, p, start, poll.count), w,
                    sent + Sent(Do(s, Poll(w, consumer, p, start, poll.count)), w, body),
                    Polled(s, consumer, p, start, poll, sent), mid)
  {
    FetchedRefines(r, s, w, consumer, p, start, poll, body, mid, sent);
    PolledIsHandled(s, consumer, p, start, poll, sent);
  }

  /** One poll under plans, `Worker.Process.PollOnce`, is what the pipeline does in every run that follows
      them: the offset it commits, the deliveries, and the completions but for what the others did last. */
  lemma PollRefines(r: Rules, s: State, w: nat, consumer: string, p: nat, start: nat, poll: Worker.PollPlan,
                    body: seq<Action>, mid: State, sent: seq<Job>)
    requires PollFollows(r, s, w, consumer, p, start, poll, body, mid)
    ensures Allowed(r, mid, CommitOffset(w, poll.commit))
    ensures var s', (scene, n) := Do(mid, CommitOffset(w, poll.commit)), Polled(s, consumer, p, start, poll, sent);
            && Leads(r, s, PollActs(w, consumer, p, start, poll, body), s')
            && s'.committed == OffsetAfter(mid.committed, Slot(consumer, p), start, n, poll.commit)
            && s'.workers == mid.workers - {w} && OthersLead(scene.table, s'.table)
            && scene.delivered == sent + Sent(Do(s, Poll(w, consumer, p, start, poll.count)), w, body)
  {
    BatchBeforeCommit(r, s, w, consumer, p, start, poll, body, mid, sent);
    FetchedRefines(r, s, w, consumer, p, start, poll, body, mid, sent);
    CommitStep(r, mid, w, poll.commit);
    PollLeads(r, s, w, consumer, p, start, poll, body, mid);
  }

  lemma PollHasPlans(r: Rules, s: State, w: nat, consumer: string, p: nat, start: nat, count: nat, commit: Fault,
                     body: seq<Action>, rows: set<Key>, mid: State)
    requires Allowed(r, s, Poll(w, consumer, p, start, count))
    requires var s1 := Do(s, Poll(w, consumer, p, start, count));
             BatchRun(r, s1, w, body, mid) && OthersAvoid(s1, w, body, rows)
    ensures exists plans ::
              && PollFollows(r, s, w, consumer, p, start, Worker.PollPlan(count, plans, commit), body, mid)
              && Worker.AllAway(plans, rows)
  {
    var s1 := Do(s, Poll(w, consumer, p, start, count));
    FetchStep(s, w, consumer, p, start, count);
    BatchHasPlans(r, s1, w, body, rows, mid);
    var plan, plans :| FollowsAway(r, s1, w, body, rows, plan, plans, mid);
    var all := [plan] + plans;
    Worker.FirstPlan(plan, plans, rows);
    assert PollFollows(r, s, w, consumer, p, start, Worker.PollPlan(count, all, commit), body, mid);
  }

  /** Every run of a batch from its fetch on is one poll under some plans. */
  lemma InterleavedPollHasPlans(r: Rules, s: State, w: nat, consumer: string, p: nat, start: nat, count: nat,
                                commit: Fault, body: seq<Action>, mid: State)
    requires Allowed(r, s, Poll(w, consumer, p, start, count))
    requires BatchRun(r, Do(s, Poll(w, consumer, p, start, count)), w, body, mid)
    ensures exists plans :: PollFollows(r, s, w, consumer, p, start, Worker.PollPlan(count, plans, commit), body, mid)
  {
    AvoidNothing(r, Do(s, Poll(w, consumer, p, start, count)), w, body, mid);
    PollHasPlans(r, s, w, consumer, p, start, count, commit, body, {}, mid);
  }

  // ---------------------------------------------------------------- the polls of a slot's only owner

  /** The row belongs to records of this slot only, or no handler ever gets to it. */
  ghost predicate OwnRow(r: Rules, part: string -> nat, slot: Slot, k: Key) {
    k.event == "" || (r.homeOnly(k.event) && Ownership.HomeOf(part, k) == slot)
  }

  ghost predicate OwnRows(r: Rules, part: string -> nat, slot: Slot, rows: set<Key>) {
    forall k :: k in rows ==> OwnRow(r, part, slot, k)
  }

  /** A statement is at the row of the record that its worker handles. */
  lemma StmtsAtRow(s: State, a: Action)
    requires Enabled(s, a) && Stmts(s, a) != [] && Invariants.AllProgressOk(AcksOf(s), s.workers)
    ensures var wk := s.workers[a.w];
            && Ownership.AtRow(wk, KeyOf(wk)) && KeyOf(wk).event != ""
            && forall i :: 0 <= i < |Stmts(s, a)| ==> Stmts(s, a)[i].key == KeyOf(wk)
  {
    assert Invariants.ProgressOk(AcksOf(s), s.workers[a.w]);
  }

  lemma OwnerIsHere(r: Rules, s: State, w: nat, w': nat, k: Key, rows: set<Key>)
    requires Inv(r, s) && w in s.workers && w' in s.workers && r.oneOwner(SlotOf(s.workers[w]))
    requires OwnRows(r, s.part, SlotOf(s.workers[w]), rows) && k.event != "" && Ownership.AtRow(s.workers[w'], k)
    ensures k in rows ==> w == w'
  {
    if k in rows {
      assert OwnRow(r, s.part, SlotOf(s.workers[w]), k);
      assert Ownership.AtHome(s.part, s.log, k.event) && Ownership.OwnedOnce(s.workers, SlotOf(s.workers[w]));
      Ownership.HandledAtHome(s, s.workers[w'], k);
    }
  }

  /** A step of somebody else executes nothing at a row of a slot whose only owner is at work. */
  lemma OwnerIsAlone(r: Rules, s: State, w: nat, a: Action, rows: set<Key>)
    requires Inv(r, s) && Enabled(s, a) && Foreign(a, w) && w in s.workers
    requires r.oneOwner(SlotOf(s.workers[w])) && OwnRows(r, s.part, SlotOf(s.workers[w]), rows)
    ensures Avoid(Stmts(s, a), rows)
  {
    if Stmts(s, a) != [] {
      StmtsAtRow(s, a);
      OwnerIsHere(r, s, w, a.w, KeyOf(s.workers[a.w]), rows);
    }
  }

  ghost predicate OwnsRows(r: Rules, s: State, w: nat, rows: set<Key>) {
    && Inv(r, s) && w in s.workers && r.oneOwner(SlotOf(s.workers[w]))
    && OwnRows(r, s.part, SlotOf(s.workers[w]), rows)
  }

  lemma SlotStays(s: State, w: nat, a: Action)
    requires Enabled(s, a) && w in s.workers && (Foreign(a, w) || a.Handle?)
    ensures w in NextWorkers(s, a) && SlotOf(NextWorkers(s, a)[w]) == SlotOf(s.workers[w])
  {
  }

  lemma OwnsRowsStep(r: Rules, s: State, w: nat, a: Action, rows: set<Key>)
    requires OwnsRows(r, s, w, rows) && Allowed(r, s, a) && (Foreign(a, w) || a.Handle?)
    ensures OwnsRows(r, Do(s, a), w, rows)
  {
    SlotStays(s, w, a);
    InvStep(r, s, a);
  }

  lemma {:induction false} OwnerStaysAlone(r: Rules, s: State, w: nat, acts: seq<Action>, rows: set<Key>, s': State)
    requires OwnsRows(r, s, w, rows) && BatchRun(r, s, w, acts, s')
    ensures OthersAvoid(s, w, acts, rows)
    decreases |acts|
  {
    if acts != [] {
      if Foreign(acts[0], w) { OwnerIsAlone(r, s, w, acts[0], rows); }
      OwnsRowsStep(r, s, w, acts[0], rows);
      OwnerStaysAlone(r, Do(s, acts[0]), w, acts[1..], rows, s');
    }
  }

  /** With the events of a partition at home in it, the rows of its records are its own. */
  lemma RowsAreOwn(r: Rules, s: State, consumer: string, p: nat)
    requires Inv(r, s)
    requires forall o :: 0 <= o < |Log(s.log, p)| && Handleable(Log(s.log, p)[o].value) ==>
               r.homeOnly(Log(s.log, p)[o].value.job.stripeEventId)
    ensures OwnRows(r, s.part, Slot(consumer, p), Worker.Rows(consumer, Log(s.log, p)))
  {
    var records := Log(s.log, p);
    forall k | k in Worker.Rows(consumer, records)
      ensures OwnRow(r, s.part, Slot(consumer, p), k)
    {
      var o :| 0 <= o < |records| && KeyFor(records[o], consumer) == k;
      if Handleable(records[o].value) {
        assert Ownership.AtHome(s.part, s.log, k.event) && Ownership.Carries(records[o], k.event);
      }
    }
  }

  /** With one owner of the slot, every run of a poll follows plans that leave the rows of the partition's
      records alone: what other workers do meanwhile, in other partitions and groups, is no trouble for it. */
  lemma OwnedPollHasPlans(r: Rules, s: State, w: nat, consumer: string, p: nat, start: nat, count: nat, commit: Fault,
                          body: seq<Action>, mid: State)
    requires Inv(r, s) && Allowed(r, s, Poll(w, consumer, p, start, count)) && r.oneOwner(Slot(consumer, p))
    requires forall o :: 0 <= o < |Log(s.log, p)| && Handleable(Log(s.log, p)[o].value) ==>
               r.homeOnly(Log(s.log, p)[o].value.job.stripeEventId)
    requires BatchRun(r, Do(s, Poll(w, consumer, p, start, count)), w, body, mid)
    ensures exists plans ::
              && PollFollows(r, s, w, consumer, p, start, Worker.PollPlan(count, plans, commit), body, mid)
              && Worker.AllAway(plans, Worker.Rows(consumer, Log(s.log, p)))
  {
    var a, rows := Poll(w, consumer, p, start, count), Worker.Rows(consumer, Log(s.log, p));
    RowsAreOwn(r, s, consumer, p);
    InvStep(r, s, a);
    OwnerStaysAlone(r, Do(s, a), w, body, rows, mid);
    PollHasPlans(r, s, w, consumer, p, start, count, commit, body, rows, mid);
  }
}
