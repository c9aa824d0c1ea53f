/** `handleRecord` and the claim inside it as a machine with one atomic step per SQL statement and
    per network event (cmd/worker/main.go:100-166, internal/store/postgres.go:217-289). */
module Handler {
  import opened Engine
  import opened Completions
  import opened Downstream

  /** What the handler does next for the decoded record. */
  datatype Pc =
    | Ready                     // INSERT ... ON CONFLICT DO NOTHING
    | Selecting                 // SELECT status, attempt_count
    | Retrying                  // UPDATE ... WHERE status = 'processing' RETURNING
    | Reclaiming                // UPDATE ... WHERE status = 'failed' RETURNING
    | Granted(claim: Claim)     // the claim allows a delivery: DeliverJob
    | Calling(claim: Claim)     // waiting for the answer
    | GotOk                     // 2xx received: MarkConsumerProcessed
    | GotError(error: Error)    // MarkConsumerFailed
    | Done(ok: bool)            // handleRecord has returned

  /** The outcome of a step that is not up to the handler. */
  datatype Choice = Db(fault: Fault) | Call | Answer(transport: Transport)

  predicate Enabled(pc: Pc, c: Choice) {
    match pc
    case Granted(_) => c.Call?
    case Calling(_) => c.Answer?
    case Done(_) => false
    case _ => c.Db?
  }

  /** The write statement issued at `pc`, if any. */
  function Sql(k: Key, ty: string, pc: Pc): Option<Statement> {
    match pc
    case Ready => Some(Insert(k, ty))
    case Retrying => Some(Bump(k))
    case Reclaiming => Some(Reclaim(k))
    case GotOk => Some(MarkProcessed(k))
    case GotError(e) => Some(MarkFailed(k, Text(e)))
    case _ => None
  }

  /** The write statement that reaches the table in this step, if any. */
  function Applied(k: Key, ty: string, pc: Pc, c: Choice): Option<Statement>
    requires Enabled(pc, c)
  {
    if Sql(k, ty, pc).Some? && c.fault != ErrLost then Sql(k, ty, pc) else None
  }

  function NextTable(t: Table, k: Key, ty: string, pc: Pc, c: Choice): Table
    requires Enabled(pc, c)
  {
    var q := Applied(k, ty, pc, c);
    if q.Some? then Exec(t, q.value) else t
  }

  function NextPc(t: Table, k: Key, ty: string, pc: Pc, c: Choice): Pc
    requires Enabled(pc, c)
  {
    if c.Db? && c.fault != NoFault then Done(false) else
    match pc
    case Ready => if k !in t then Granted(Claim(New, 1)) else Selecting
    case Selecting =>
      if k !in t then Done(false) else
      (match t[k].status
       case Processed => Done(true)
       case Processing => Retrying
       case Failed => Reclaiming)
    case Retrying =>
      if Matches(t, Bump(k)) then Granted(Claim(Retry, t[k].attempts + 1)) else Done(false)
    case Reclaiming =>
      if Matches(t, Reclaim(k)) then Granted(Claim(RetryFromFailed, t[k].attempts + 1)) else Done(false)
    case Granted(claim) => Calling(claim)
    case Calling(_) => (match Verdict(c.transport) case None => GotOk case Some(e) => GotError(e))
    case GotOk => Done(Matches(t, MarkProcessed(k)))
    case GotError(e) => Done(!IsRetryable(e))
  }

  predicate Claiming(pc: Pc) {
    pc.Ready? || pc.Selecting? || pc.Retrying? || pc.Reclaiming?
  }

  /** What `ClaimConsumerCompletion` has returned once the machine has left the claim. */
  function ClaimResult(t: Table, k: Key, pc: Pc): Result<Claim>
    requires pc.Granted? || pc.Done?
    requires pc == Done(true) ==> k in t
  {
    match pc
    case Granted(claim) => Ok(claim)
    case Done(ok) => if ok then Ok(Claim(AlreadyProcessed, t[k].attempts)) else Err
  }

  // ---------------------------------------------------------------- what one step keeps

  /** The claim refines its one-step form, step by step and in any interleaving: a step that does not
      finish the claim changes nothing, the step that finishes it with a result takes effect exactly
      as `AtomicClaim` does in the state of that moment, and an error changes nothing unless the
      statement was applied and only its acknowledgement was lost. */
  lemma ClaimStepRefines(t: Table, k: Key, ty: string, pc: Pc, fault: Fault)
    requires Claiming(pc)
    ensures var t', pc' := NextTable(t, k, ty, pc, Db(fault)), NextPc(t, k, ty, pc, Db(fault));
            && (Claiming(pc') ==> t' == t)
            && (pc' == Done(true) ==> k in t')
            && (pc'.Granted? || pc' == Done(true) ==>
                  AtomicClaim(t, k, ty).0 == t' &&
                  ClaimResult(t', k, pc') == Ok(AtomicClaim(t, k, ty).1))
            && (pc' == Done(false) && fault != ErrApplied ==> t' == t)
            && (pc' == Done(false) && fault == ErrApplied ==> t' == t || t' == AtomicClaim(t, k, ty).0)
            && (Claiming(pc') || pc'.Granted? || pc'.Done?)
  {
    var t' := NextTable(t, k, ty, pc, Db(fault));
    assert pc.Selecting? ==> t' == t;
  }

  /** When `handleRecord` returns true the row is no longer processing after its last statement, and
      either the event is processed or this very call got a non-retryable verdict. */
  lemma HandledStep(t: Table, k: Key, ty: string, pc: Pc, c: Choice)
    requires Enabled(pc, c)
    requires !pc.Ready? ==> k in t
    ensures var t', pc' := NextTable(t, k, ty, pc, c), NextPc(t, k, ty, pc, c);
            && (pc' != Done(false) ==> k in t')
            && (pc' == Done(true) ==>
                  && (IsProcessed(t', k) || IsFailed(t', k))
                  && (IsProcessed(t', k) || (pc.GotError? && !IsRetryable(pc.error))))
  {
  }

  /** No step grants a claim on a processed row. */
  lemma ProcessedGrantsNothing(t: Table, k: Key, ty: string, pc: Pc, c: Choice)
    requires Enabled(pc, c) && IsProcessed(t, k)
    ensures !NextPc(t, k, ty, pc, c).Granted?
  {
  }

  // ---------------------------------------------------------------- what one step does, by the status of the row

  predicate RowIs(t: Table, k: Key, status: Status) {
    k in t && t[k].status == status
  }

  /** `handleRecord` returns true in three places only: it finds the row processed; it has a 2xx and its own mark
      turns the row from processing to processed; or it records an error that is final. */
  lemma ReturnsTrueIff(t: Table, k: Key, ty: string, pc: Pc, c: Choice)
    requires Enabled(pc, c)
    ensures var t' := NextTable(t, k, ty, pc, c);
            NextPc(t, k, ty, pc, c) == Done(true) <==>
            c.Db? && c.fault.NoFault? &&
            (|| (pc.Selecting? && RowIs(t, k, Processed))
             || (pc.GotOk? && RowIs(t, k, Processing) && RowIs(t', k, Processed))
             || (pc.GotError? && !IsRetryable(pc.error)))
  {
  }

  /** Each claim is granted by one statement that found the row as the action says, and has left it processing
      with the claim's number. */
  lemma GrantsIff(t: Table, k: Key, ty: string, pc: Pc, c: Choice)
    requires Enabled(pc, c)
    ensures var t', pc' := NextTable(t, k, ty, pc, c), NextPc(t, k, ty, pc, c);
            && (pc'.Granted? <==>
                  c.Db? && c.fault.NoFault? &&
                  (|| (pc.Ready? && k !in t)
                   || (pc.Retrying? && RowIs(t, k, Processing))
                   || (pc.Reclaiming? && RowIs(t, k, Failed))))
            && (pc'.Granted? ==>
                  && pc'.claim == (if k !in t then Claim(New, 1)
                                   else Claim(if pc.Retrying? then Retry else RetryFromFailed, t[k].attempts + 1))
                  && t' == t[k := if k !in t then Row(ty, Processing, None, 1)
                                  else Row(t[k].eventType, Processing, if pc.Retrying? then t[k].error else None,
                                           t[k].attempts + 1)])
  {
  }

  /** A statement that ends in an error ends the call with false; its effect is lost, or it is what the statement
      does without an error. */
  lemma FaultReturnsFalse(t: Table, k: Key, ty: string, pc: Pc, fault: Fault)
    requires Enabled(pc, Db(fault)) && !fault.NoFault?
    ensures NextPc(t, k, ty, pc, Db(fault)) == Done(false)
    ensures NextTable(t, k, ty, pc, Db(fault)) == if fault.ErrLost? then t else NextTable(t, k, ty, pc, Db(NoFault))
  {
  }

  // ---------------------------------------------------------------- one call under a plan

  /** Everything the environment decides during one `handleRecord` call: the fault of each statement,
      what the transport does, and the statements other sessions run just before each of ours. */
  datatype Plan = Plan(
    insert: Fault, select: Fault, update: Fault, mark: Fault,
    transport: Transport,
    beforeInsert: seq<Statement>, beforeSelect: seq<Statement>, beforeUpdate: seq<Statement>,
    beforeCall: seq<Statement>, beforeAnswer: seq<Statement>, beforeMark: seq<Statement>)
  {
    function Gap(pc: Pc): seq<Statement> {
      match pc
      case Ready => beforeInsert
      case Selecting => beforeSelect
      case Retrying => beforeUpdate
      case Reclaiming => beforeUpdate
      case Granted(_) => beforeCall
      case Calling(_) => beforeAnswer
      case GotOk => beforeMark
      case GotError(_) => beforeMark
      case _ => []
    }

    function ChoiceAt(pc: Pc): (c: Choice)
      requires !pc.Done?
      ensures Enabled(pc, c)
    {
      match pc
      case Ready => Db(insert)
      case Selecting => Db(select)
      case Retrying => Db(update)
      case Reclaiming => Db(update)
      case Granted(_) => Call
      case Calling(_) => Answer(transport)
      case GotOk => Db(mark)
      case GotError(_) => Db(mark)
    }

    /** The same plan with more statements of others in front of those before the step at `pc`. */
    function Before(pc: Pc, qs: seq<Statement>): Plan {
      match pc
      case Ready => this.(beforeInsert := qs + beforeInsert)
      case Selecting => this.(beforeSelect := qs + beforeSelect)
      case Retrying => this.(beforeUpdate := qs + beforeUpdate)
      case Reclaiming => this.(beforeUpdate := qs + beforeUpdate)
      case Granted(_) => this.(beforeCall := qs + beforeCall)
      case Calling(_) => this.(beforeAnswer := qs + beforeAnswer)
      case GotOk => this.(beforeMark := qs + beforeMark)
      case GotError(_) => this.(beforeMark := qs + beforeMark)
      case Done(_) => this
    }

    /** The same plan once the first `n` statements of others before the step at `pc` have run. */
    function Past(pc: Pc, n: nat): Plan
      requires n <= |Gap(pc)|
    {
      match pc
      case Ready => this.(beforeInsert := beforeInsert[n..])
      case Selecting => this.(beforeSelect := beforeSelect[n..])
      case Retrying => this.(beforeUpdate := beforeUpdate[n..])
      case Reclaiming => this.(beforeUpdate := beforeUpdate[n..])
      case Granted(_) => this.(beforeCall := beforeCall[n..])
      case Calling(_) => this.(beforeAnswer := beforeAnswer[n..])
      case GotOk => this.(beforeMark := beforeMark[n..])
      case GotError(_) => this.(beforeMark := beforeMark[n..])
      case Done(_) => this
    }

    /** The same plan with the step at `pc` taken at once and going as `c` says. */
    function Deciding(pc: Pc, c: Choice): Plan
      requires Enabled(pc, c)
    {
      match pc
      case Ready => this.(beforeInsert := [], insert := c.fault)
      case Selecting => this.(beforeSelect := [], select := c.fault)
      case Retrying => this.(beforeUpdate := [], update := c.fault)
      case Reclaiming => this.(beforeUpdate := [], update := c.fault)
      case Granted(_) => this.(beforeCall := [])
      case Calling(_) => this.(beforeAnswer := [], transport := c.transport)
      case GotOk => this.(beforeMark := [], mark := c.fault)
      case GotError(_) => this.(beforeMark := [], mark := c.fault)
    }

    /** No other session runs during the call. */
    predicate Alone() {
      beforeInsert == beforeSelect == beforeUpdate == beforeCall == beforeAnswer == beforeMark == []
    }

    /** Whatever other sessions do during the call, they do it at other rows than these. */
    predicate AwayFrom(rows: set<Key>) {
      && Avoid(beforeInsert, rows) && Avoid(beforeSelect, rows) && Avoid(beforeUpdate, rows)
      && Avoid(beforeCall, rows) && Avoid(beforeAnswer, rows) && Avoid(beforeMark, rows)
    }

    /** No fault, nobody else at these rows, and a verdict that is final. */
    predicate Clean(rows: set<Key>) {
      && insert == select == update == mark == NoFault
      && AwayFrom(rows)
      && (Verdict(transport).Some? ==> !IsRetryable(Verdict(transport).value))
    }
  }

  lemma GapAvoids(plan: Plan, pc: Pc, rows: set<Key>)
    requires plan.AwayFrom(rows)
    ensures Avoid(plan.Gap(pc), rows)
  {
  }

  function Rank(pc: Pc): nat {
    match pc
    case Ready => 6
    case Selecting => 5
    case Retrying => 4
    case Reclaiming => 4
    case Granted(_) => 3
    case Calling(_) => 2
    case GotOk => 1
    case GotError(_) => 1
    case Done(_) => 0
  }

  /** The machine run through its claim. */
  function RunClaim(t: Table, k: Key, ty: string, pc: Pc, plan: Plan): (Table, Pc)
    decreases Rank(pc)
  {
    if !Claiming(pc) then (t, pc) else
    var t0, c := ExecAll(t, plan.Gap(pc)), plan.ChoiceAt(pc);
    RunClaim(NextTable(t0, k, ty, pc, c), k, ty, NextPc(t0, k, ty, pc, c), plan)
  }

  /** What other sessions did to the table before the claim's last statement. */
  function ClaimInterference(t: Table, k: Key, ty: string, pc: Pc, plan: Plan): seq<Statement>
    decreases Rank(pc)
  {
    if !Claiming(pc) then [] else
    var t0, c := ExecAll(t, plan.Gap(pc)), plan.ChoiceAt(pc);
    plan.Gap(pc) + ClaimInterference(NextTable(t0, k, ty, pc, c), k, ty, NextPc(t0, k, ty, pc, c), plan)
  }

  /** The machine run to the return of `handleRecord`: the table, the result, and whether
      downstream was called. */
  function RunHandler(t: Table, k: Key, ty: string, pc: Pc, plan: Plan): (Table, bool, bool)
    decreases Rank(pc)
  {
    if pc.Done? then (t, pc.ok, false) else
    var t0, c := ExecAll(t, plan.Gap(pc)), plan.ChoiceAt(pc);
    var end := RunHandler(NextTable(t0, k, ty, pc, c), k, ty, NextPc(t0, k, ty, pc, c), plan);
    (end.0, end.1, end.2 || pc.Granted?)
  }

  // ---------------------------------------------------------------- plans that agree from a step on

  /** The two plans are the same for every step of at most this rank. */
  ghost predicate Agree(p: Plan, p': Plan, rank: nat) {
    forall pc: Pc :: !pc.Done? && Rank(pc) <= rank ==> p.Gap(pc) == p'.Gap(pc) && p.ChoiceAt(pc) == p'.ChoiceAt(pc)
  }

  lemma {:induction false} AgreeRuns(t: Table, k: Key, ty: string, pc: Pc, p: Plan, p': Plan)
    requires Agree(p, p', Rank(pc))
    ensures RunHandler(t, k, ty, pc, p) == RunHandler(t, k, ty, pc, p')
    decreases Rank(pc)
  {
    if !pc.Done? {
      var t0, c := ExecAll(t, p.Gap(pc)), p.ChoiceAt(pc);
      AgreeRuns(NextTable(t0, k, ty, pc, c), k, ty, NextPc(t0, k, ty, pc, c), p, p');
    }
  }

  /** A call after the step at `pc`, taken in table `t`: whether downstream was called counts that step in. */
  function AfterStep(t: Table, k: Key, ty: string, pc: Pc, c: Choice, plan: Plan): (Table, bool, bool)
    requires Enabled(pc, c)
  {
    var end := RunHandler(NextTable(t, k, ty, pc, c), k, ty, NextPc(t, k, ty, pc, c), plan);
    (end.0, end.1, end.2 || pc.Granted?)
  }

  lemma RunStep(t: Table, k: Key, ty: string, pc: Pc, plan: Plan)
    requires !pc.Done?
    ensures RunHandler(t, k, ty, pc, plan) ==
            AfterStep(ExecAll(t, plan.Gap(pc)), k, ty, pc, plan.ChoiceAt(pc), plan)
  {
  }

  /** Changing a plan at one step changes nothing about the later ones. */
  lemma ChangedHere(pc: Pc, plan: Plan, qs: seq<Statement>, c: Choice, rank: nat)
    requires rank < Rank(pc) && Enabled(pc, c)
    ensures Agree(plan.Before(pc, qs), plan, rank) && Agree(plan.Deciding(pc, c), plan, rank)
    ensures plan.Before(pc, qs).Gap(pc) == qs + plan.Gap(pc) && plan.Before(pc, qs).ChoiceAt(pc) == plan.ChoiceAt(pc)
    ensures plan.Deciding(pc, c).Gap(pc) == [] && plan.Deciding(pc, c).ChoiceAt(pc) == c
  {
  }

  lemma StillAway(pc: Pc, plan: Plan, qs: seq<Statement>, rows: set<Key>)
    requires plan.AwayFrom(rows)
    ensures Avoid(qs, rows) ==> plan.Before(pc, qs).AwayFrom(rows)
    ensures forall c :: Enabled(pc, c) ==> plan.Deciding(pc, c).AwayFrom(rows)
  {
  }

  lemma PastBefore(pc: Pc, plan: Plan, qs: seq<Statement>)
    requires !pc.Done?
    ensures qs <= plan.Before(pc, qs).Gap(pc) && plan.Before(pc, qs).Past(pc, |qs|) == plan
  {
    assert (qs + plan.Gap(pc))[|qs|..] == plan.Gap(pc);
  }

  lemma PastHere(pc: Pc, plan: Plan, n: nat, rank: nat)
    requires !pc.Done? && n <= |plan.Gap(pc)| && rank < Rank(pc)
    ensures plan.Past(pc, n).Gap(pc) == plan.Gap(pc)[n..] && plan.Past(pc, n).ChoiceAt(pc) == plan.ChoiceAt(pc)
    ensures Agree(plan, plan.Past(pc, n), rank)
  {
  }

  lemma PastPast(pc: Pc, plan: Plan, n: nat)
    requires !pc.Done? && n <= |plan.Gap(pc)|
    ensures var p := plan.Past(pc, n);
            p.Gap(pc) == plan.Gap(pc)[n..] && p.Past(pc, |p.Gap(pc)|) == plan.Past(pc, |plan.Gap(pc)|)
  {
  }

  lemma PastAgree(pc: Pc, p: Plan, p': Plan, n: nat)
    requires !pc.Done? && n <= |p.Gap(pc)| && Agree(p, p', Rank(pc))
    ensures n <= |p'.Gap(pc)| && Agree(p.Past(pc, n), p'.Past(pc, n), Rank(pc))
  {
  }

  lemma AgreeAfterStep(t: Table, k: Key, ty: string, pc: Pc, c: Choice, p: Plan, p': Plan)
    requires Enabled(pc, c) && Agree(p, p', Rank(pc) - 1)
    ensures AfterStep(t, k, ty, pc, c, p) == AfterStep(t, k, ty, pc, c, p')
  {
    AgreeRuns(NextTable(t, k, ty, pc, c), k, ty, NextPc(t, k, ty, pc, c), p, p');
  }

  /** What others do before a step may as well have been done already. */
  lemma BeforeRuns(t: Table, k: Key, ty: string, pc: Pc, plan: Plan, qs: seq<Statement>)
    requires !pc.Done?
    ensures RunHandler(t, k, ty, pc, plan.Before(pc, qs)) == RunHandler(ExecAll(t, qs), k, ty, pc, plan)
  {
    var plan', c := plan.Before(pc, qs), plan.ChoiceAt(pc);
    var t0 := ExecAll(t, qs + plan.Gap(pc));
    ExecAllConcat(t, qs, plan.Gap(pc));
    RunStep(t, k, ty, pc, plan');
    RunStep(ExecAll(t, qs), k, ty, pc, plan);
    ChangedHere(pc, plan, qs, c, Rank(pc) - 1);
    AgreeAfterStep(t0, k, ty, pc, c, plan', plan);
  }

  lemma PastRuns(t: Table, k: Key, ty: string, pc: Pc, plan: Plan, n: nat)
    requires !pc.Done? && n <= |plan.Gap(pc)|
    ensures RunHandler(t, k, ty, pc, plan) == RunHandler(ExecAll(t, plan.Gap(pc)[..n]), k, ty, pc, plan.Past(pc, n))
  {
    var qs, rest := plan.Gap(pc)[..n], plan.Gap(pc)[n..];
    assert qs + rest == plan.Gap(pc);
    assert plan.Past(pc, n).Before(pc, qs) == plan;
    BeforeRuns(t, k, ty, pc, plan.Past(pc, n), qs);
  }

  lemma {:induction false} RunHandlerAfterClaim(t: Table, k: Key, ty: string, pc: Pc, plan: Plan)
    ensures var claimed := RunClaim(t, k, ty, pc, plan);
            RunHandler(t, k, ty, pc, plan) == RunHandler(claimed.0, k, ty, claimed.1, plan)
    decreases Rank(pc)
  {
    if Claiming(pc) {
      var t0, c := ExecAll(t, plan.Gap(pc)), plan.ChoiceAt(pc);
      RunHandlerAfterClaim(NextTable(t0, k, ty, pc, c), k, ty, NextPc(t0, k, ty, pc, c), plan);
    }
  }

  /** A call whose claim is over: it has returned, or it goes on from its grant. */
  lemma RunHandlerSplits(t: Table, k: Key, ty: string, plan: Plan)
    ensures var (t', pc') := RunClaim(t, k, ty, Ready, plan);
            && (pc'.Done? ==> RunHandler(t, k, ty, Ready, plan) == (t', pc'.ok, false))
            && (pc'.Granted? ==> RunHandler(t, k, ty, Ready, plan) == RunHandler(t', k, ty, pc', plan))
  {
    RunHandlerAfterClaim(t, k, ty, Ready, plan);
  }

  /** From a grant: the call, its answer, and the mark that the verdict asks for. */
  lemma RunHandlerFromGrant(t: Table, k: Key, ty: string, claim: Claim, plan: Plan)
    ensures var answered := ExecAll(ExecAll(t, plan.beforeCall), plan.beforeAnswer);
            var verdict := Verdict(plan.transport);
            var end := RunHandler(answered, k, ty, if verdict.None? then GotOk else GotError(verdict.value), plan);
            RunHandler(t, k, ty, Granted(claim), plan) == (end.0, end.1, true)
  {
    var t1 := ExecAll(t, plan.beforeCall);
    var calling := RunHandler(t1, k, ty, Calling(claim), plan);
    assert RunHandler(t, k, ty, Granted(claim), plan) == (calling.0, calling.1, true);
  }

  /** The call gets to the step at `at`. */
  predicate Reaches(t: Table, k: Key, ty: string, pc: Pc, plan: Plan, at: Pc)
    decreases Rank(pc)
  {
    pc == at ||
    (!pc.Done? &&
     var t0, c := ExecAll(t, plan.Gap(pc)), plan.ChoiceAt(pc);
     Reaches(NextTable(t0, k, ty, pc, c), k, ty, NextPc(t0, k, ty, pc, c), plan, at))
  }

  lemma {:induction false} ClaimIsOver(t: Table, k: Key, ty: string, pc: Pc, plan: Plan, at: Pc)
    requires !Claiming(pc) && Reaches(t, k, ty, pc, plan, at)
    ensures !Claiming(at)
    decreases Rank(pc)
  {
    if pc != at {
      var t0, c := ExecAll(t, plan.Gap(pc)), plan.ChoiceAt(pc);
      ClaimIsOver(NextTable(t0, k, ty, pc, c), k, ty, NextPc(t0, k, ty, pc, c), plan, at);
    }
  }

  /** A call that gets to a statement that ends in an error returns false, and without a delivery if that is one
      of the claim's. */
  lemma {:induction false} FaultedCallFails(t: Table, k: Key, ty: string, pc: Pc, plan: Plan, at: Pc)
    requires Reaches(t, k, ty, pc, plan, at) && !at.Done?
    requires plan.ChoiceAt(at).Db? && !plan.ChoiceAt(at).fault.NoFault?
    ensures !RunHandler(t, k, ty, pc, plan).1
    ensures Claiming(at) ==> !RunHandler(t, k, ty, pc, plan).2
    decreases Rank(pc)
  {
    var t0, c := ExecAll(t, plan.Gap(pc)), plan.ChoiceAt(pc);
    if pc == at {
      FaultReturnsFalse(t0, k, ty, pc, c.fault);
    } else {
      if pc.Granted? { ClaimIsOver(t, k, ty, pc, plan, at); }
      FaultedCallFails(NextTable(t0, k, ty, pc, c), k, ty, NextPc(t0, k, ty, pc, c), plan, at);
    }
  }

  /** The table when the mark of a granted call runs. */
  function AtMark(t: Table, k: Key, ty: string, plan: Plan): Table {
    ExecAll(ExecAll(ExecAll(RunClaim(t, k, ty, Ready, plan).0, plan.beforeCall), plan.beforeAnswer), plan.beforeMark)
  }

  /** What a mark does to the table it finds, and what the call then returns: after a 2xx it returns true if and
      only if this very mark found the row processing and reported no error; after an error, if and only if the mark
      reported no error and the verdict is final. */
  function Marked(at: Table, k: Key, verdict: Option<Error>, fault: Fault): (Table, bool) {
    var row := if verdict.None? then (Processed, None) else (Failed, Some(Text(verdict.value)));
    (if RowIs(at, k, Processing) && !fault.ErrLost? then at[k := at[k].(status := row.0, error := row.1)] else at,
     fault.NoFault? && if verdict.None? then RowIs(at, k, Processing) else !IsRetryable(verdict.value))
  }

  lemma MarkEnds(t: Table, k: Key, ty: string, pc: Pc, plan: Plan)
    requires pc.GotOk? || pc.GotError?
    ensures var m := Marked(ExecAll(t, plan.beforeMark), k, if pc.GotOk? then None else Some(pc.error), plan.mark);
            RunHandler(t, k, ty, pc, plan) == (m.0, m.1, false)
  {
    RunStep(t, k, ty, pc, plan);
  }

  /** A granted call delivers, and ends with its mark. */
  lemma GrantedCallMarks(t: Table, k: Key, ty: string, plan: Plan)
    requires RunClaim(t, k, ty, Ready, plan).1.Granted?
    ensures var m := Marked(AtMark(t, k, ty, plan), k, Verdict(plan.transport), plan.mark);
            RunHandler(t, k, ty, Ready, plan) == (m.0, m.1, true)
  {
    var (t1, pc1) := RunClaim(t, k, ty, Ready, plan);
    var verdict := Verdict(plan.transport);
    RunHandlerSplits(t, k, ty, plan);
    RunHandlerFromGrant(t1, k, ty, pc1.claim, plan);
    MarkEnds(ExecAll(ExecAll(t1, plan.beforeCall), plan.beforeAnswer), k, ty,
             if verdict.None? then GotOk else GotError(verdict.value), plan);
  }

  /** A claim that ends with this table and program counter is one atomic claim on the table `seen`, or an error
      that changed nothing unless a statement was applied and only its acknowledgement lost. */
  ghost predicate ClaimIs(seen: Table, k: Key, ty: string, t': Table, pc': Pc, plan: Plan) {
    && (pc'.Granted? || pc'.Done?)
    && (pc' == Done(true) ==> k in t')
    && (pc' != Done(false) ==>
          t' == AtomicClaim(seen, k, ty).0 &&
          ClaimResult(t', k, pc') == Ok(AtomicClaim(seen, k, ty).1))
    && (pc' == Done(false) ==> t' == seen || t' == AtomicClaim(seen, k, ty).0)
    && (pc' == Done(false) && plan.insert == plan.select == plan.update == NoFault ==> t' == seen)
  }

  lemma ClaimEnds(t: Table, k: Key, ty: string, pc: Pc, plan: Plan)
    requires Claiming(pc) && !Claiming(NextPc(t, k, ty, pc, plan.ChoiceAt(pc)))
    ensures var c := plan.ChoiceAt(pc);
            ClaimIs(t, k, ty, NextTable(t, k, ty, pc, c), NextPc(t, k, ty, pc, c), plan)
  {
    ClaimStepRefines(t, k, ty, pc, plan.ChoiceAt(pc).fault);
  }

  /** The whole INSERT / SELECT / guarded UPDATE, whatever other sessions do in between, is one atomic
      claim taken after their statements; without a fault an error leaves only their statements. */
  lemma {:induction false} ClaimRefines(t: Table, k: Key, ty: string, pc: Pc, plan: Plan)
    requires Claiming(pc)
    ensures var (t', pc') := RunClaim(t, k, ty, pc, plan);
            ClaimIs(ExecAll(t, ClaimInterference(t, k, ty, pc, plan)), k, ty, t', pc', plan)
    decreases Rank(pc)
  {
    var t0, c := ExecAll(t, plan.Gap(pc)), plan.ChoiceAt(pc);
    var t1, pc1 := NextTable(t0, k, ty, pc, c), NextPc(t0, k, ty, pc, c);
    if Claiming(pc1) {
      ClaimStepRefines(t0, k, ty, pc, c.fault);
      ExecAllConcat(t, plan.Gap(pc), ClaimInterference(t1, k, ty, pc1, plan));
      ClaimRefines(t1, k, ty, pc1, plan);
    } else {
      assert plan.Gap(pc) + [] == plan.Gap(pc);
      ClaimEnds(t0, k, ty, pc, plan);
    }
  }

  /** What a claim means for the row: the table `seen` just before it, and `t'` after it. */
  ghost predicate ClaimedAs(seen: Table, t': Table, k: Key, ty: string, claim: Claim) {
    match claim.action
    case New => k !in seen && claim.attempts == 1 && t' == seen[k := Row(ty, Processing, None, 1)]
    case Retry =>
      && RowIs(seen, k, Processing) && claim.attempts == seen[k].attempts + 1
      && t' == seen[k := seen[k].(attempts := claim.attempts)]
    case RetryFromFailed =>
      && RowIs(seen, k, Failed) && claim.attempts == seen[k].attempts + 1
      && t' == seen[k := seen[k].(status := Processing, error := None, attempts := claim.attempts)]
    case AlreadyProcessed => RowIs(seen, k, Processed) && claim.attempts == seen[k].attempts && t' == seen
  }

  /** The statements that a claim with this result has executed all came back without an error. */
  predicate NoFaultBefore(plan: Plan, claim: Claim) {
    && plan.insert.NoFault?
    && (!claim.action.New? ==> plan.select.NoFault?)
    && (claim.action.Retry? || claim.action.RetryFromFailed? ==> plan.update.NoFault?)
  }

  lemma {:induction false} ClaimHadNoFault(t: Table, k: Key, ty: string, pc: Pc, plan: Plan)
    requires Claiming(pc)
    ensures var (t', pc') := RunClaim(t, k, ty, pc, plan);
            pc' != Done(false) ==>
              && (pc' == Done(true) ==> k in t')
              && (pc.Ready? ==> NoFaultBefore(plan, ClaimResult(t', k, pc').value))
              && (pc.Selecting? ==> plan.select.NoFault? && (pc'.Granted? ==> plan.update.NoFault?))
              && (pc.Retrying? || pc.Reclaiming? ==> plan.update.NoFault?)
              && (!pc.Ready? && pc'.Granted? ==> !pc'.claim.action.New?)
              && (pc'.Granted? ==> !pc'.claim.action.AlreadyProcessed?)
    decreases Rank(pc)
  {
    var t0, c := ExecAll(t, plan.Gap(pc)), plan.ChoiceAt(pc);
    var t1, pc1 := NextTable(t0, k, ty, pc, c), NextPc(t0, k, ty, pc, c);
    if Claiming(pc1) {
      ClaimHadNoFault(t1, k, ty, pc1, plan);
    }
  }

  /** A call that has delivered returns true after a 2xx if and only if its own mark found the row processing and
      reported no error, and after an error if and only if the mark reported none and the verdict is final. */
  lemma DeliveredCallMarks(t: Table, k: Key, ty: string, plan: Plan)
    requires RunHandler(t, k, ty, Ready, plan).2
    ensures var at, (t', ok, _) := AtMark(t, k, ty, plan), RunHandler(t, k, ty, Ready, plan);
            && (t', ok) == Marked(at, k, Verdict(plan.transport), plan.mark)
            && (Verdict(plan.transport).None? ==>
                  (ok <==> plan.mark.NoFault? && RowIs(at, k, Processing) && RowIs(t', k, Processed)))
            && (Verdict(plan.transport).Some? ==>
                  (ok <==> plan.mark.NoFault? && !IsRetryable(Verdict(plan.transport).value)))
  {
    ClaimRefines(t, k, ty, Ready, plan);
    RunHandlerSplits(t, k, ty, plan);
    GrantedCallMarks(t, k, ty, plan);
  }

  lemma AtomicClaimMeans(seen: Table, k: Key, ty: string)
    ensures var (t', claim) := AtomicClaim(seen, k, ty); ClaimedAs(seen, t', k, ty, claim)
  {
  }

  /** Each action says how the claim found the row and how it left it, and that none of its statements failed. */
  lemma ClaimMeans(t: Table, k: Key, ty: string, plan: Plan)
    ensures var (t', pc') := RunClaim(t, k, ty, Ready, plan);
            var seen := ExecAll(t, ClaimInterference(t, k, ty, Ready, plan));
            pc' != Done(false) ==>
              && (pc'.Granted? || pc' == Done(true)) && (pc' == Done(true) ==> k in t')
              && var claim := ClaimResult(t', k, pc').value;
                 ClaimedAs(seen, t', k, ty, claim) && NoFaultBefore(plan, claim)
  {
    ClaimRefines(t, k, ty, Ready, plan);
    AtomicClaimMeans(ExecAll(t, ClaimInterference(t, k, ty, Ready, plan)), k, ty);
    ClaimHadNoFault(t, k, ty, Ready, plan);
  }

  /** What is left of a call once its claim has ended with this result. */
  lemma AfterClaim(t: Table, k: Key, ty: string, plan: Plan, t1: Table, r: Result<Claim>)
    requires var (t', pc) := RunClaim(t, k, ty, Ready, plan);
             (pc.Granted? || pc.Done?) && (pc == Done(true) ==> k in t') && t1 == t' && r == ClaimResult(t', k, pc)
    ensures RunHandler(t, k, ty, Ready, plan) ==
            if r.Err? then (t1, false, false)
            else if r.value.action.AlreadyProcessed? then (t1, true, false)
            else RunHandler(t1, k, ty, Granted(r.value), plan)
  {
    RunHandlerSplits(t, k, ty, plan);
    ClaimHadNoFault(t, k, ty, Ready, plan);
  }

  /** Without faults, and with nobody else at the row, a claim is not in error. */
  lemma {:induction false} ClaimSucceeds(t: Table, k: Key, ty: string, pc: Pc, plan: Plan)
    requires Claiming(pc) && plan.insert == plan.select == plan.update == NoFault && plan.AwayFrom({k})
    requires pc.Selecting? ==> k in t
    requires pc.Retrying? ==> RowIs(t, k, Processing)
    requires pc.Reclaiming? ==> RowIs(t, k, Failed)
    ensures RunClaim(t, k, ty, pc, plan).1 != Done(false)
    decreases Rank(pc)
  {
    var t0, c := ExecAll(t, plan.Gap(pc)), plan.ChoiceAt(pc);
    GapAvoids(plan, pc, {k});
    AvoidedStays(t, plan.Gap(pc), {k}, k);
    if Claiming(NextPc(t0, k, ty, pc, c)) {
      ClaimSucceeds(NextTable(t0, k, ty, pc, c), k, ty, NextPc(t0, k, ty, pc, c), plan);
    }
  }

  /** `HandledStep` for a whole call: true means the row ends processed or failed, and failed only
      together with a non-retryable verdict on a delivery this call made. */
  lemma {:induction false} HandledMeans(t: Table, k: Key, ty: string, pc: Pc, plan: Plan)
    requires !pc.Ready? && !pc.Done? ==> k in t
    requires pc.GotError? ==> Verdict(plan.transport) == Some(pc.error)
    ensures var (t', ok, called) := RunHandler(t, k, ty, pc, plan);
            && (ok && !pc.Done? ==> IsProcessed(t', k) || IsFailed(t', k))
            && (ok && !pc.Done? && !IsProcessed(t', k) ==>
                  && Verdict(plan.transport).Some? && !IsRetryable(Verdict(plan.transport).value)
                  && (pc.GotError? || pc.Calling? || called))
    decreases Rank(pc)
  {
    if !pc.Done? {
      var t0, c := ExecAll(t, plan.Gap(pc)), plan.ChoiceAt(pc);
      if k in t { RowsPersist(t, plan.Gap(pc), k); }
      HandledStep(t0, k, ty, pc, c);
      HandledMeans(NextTable(t0, k, ty, pc, c), k, ty, NextPc(t0, k, ty, pc, c), plan);
    }
  }

  /** A plan without faults, retryable verdict or statements of others at the row always ends in true, and
      delivers exactly when the event was not processed yet. */
  lemma {:induction false} CleanHandled(t: Table, k: Key, ty: string, pc: Pc, plan: Plan)
    requires plan.Clean({k})
    requires pc.Selecting? ==> k in t
    requires pc.Retrying? || pc.Granted? || pc.Calling? || pc.GotOk? ==> k in t && t[k].status.Processing?
    requires pc.Reclaiming? ==> IsFailed(t, k)
    requires pc.GotError? ==> !IsRetryable(pc.error)
    requires pc != Done(false)
    ensures RunHandler(t, k, ty, pc, plan).1
    ensures pc.Ready? || pc.Selecting? ==> (RunHandler(t, k, ty, pc, plan).2 <==> !IsProcessed(t, k))
    ensures pc.Retrying? || pc.Reclaiming? || pc.Granted? ==> RunHandler(t, k, ty, pc, plan).2
    decreases Rank(pc)
  {
    if !pc.Done? {
      var t0, c := ExecAll(t, plan.Gap(pc)), plan.ChoiceAt(pc);
      GapAvoids(plan, pc, {k});
      AvoidedStays(t, plan.Gap(pc), {k}, k);
      CleanHandled(NextTable(t0, k, ty, pc, c), k, ty, NextPc(t0, k, ty, pc, c), plan);
    }
  }

  lemma ClaimedIsProcessing(seen: Table, t': Table, k: Key, ty: string, claim: Claim)
    requires ClaimedAs(seen, t', k, ty, claim) && !claim.action.AlreadyProcessed?
    ensures RowIs(t', k, Processing)
  {
  }

  /** A granted claim leaves the row processing. */
  lemma GrantLeavesProcessing(t: Table, k: Key, ty: string, plan: Plan)
    requires RunClaim(t, k, ty, Ready, plan).1.Granted?
    ensures RowIs(RunClaim(t, k, ty, Ready, plan).0, k, Processing)
  {
    var (t', pc') := RunClaim(t, k, ty, Ready, plan);
    ClaimMeans(t, k, ty, plan);
    ClaimHadNoFault(t, k, ty, Ready, plan);
    ClaimedIsProcessing(ExecAll(t, ClaimInterference(t, k, ty, Ready, plan)), t', k, ty, pc'.claim);
  }

  /** With nobody else at the row, a claim on a row that is not processed does not find it processed. */
  lemma {:induction false} ClaimFindsUnprocessed(t: Table, k: Key, ty: string, pc: Pc, plan: Plan)
    requires Claiming(pc) && plan.AwayFrom({k}) && !IsProcessed(t, k)
    ensures !IsProcessed(RunClaim(t, k, ty, pc, plan).0, k) && RunClaim(t, k, ty, pc, plan).1 != Done(true)
    decreases Rank(pc)
  {
    var t0, c := ExecAll(t, plan.Gap(pc)), plan.ChoiceAt(pc);
    GapAvoids(plan, pc, {k});
    AvoidedStays(t, plan.Gap(pc), {k}, k);
    if Claiming(NextPc(t0, k, ty, pc, c)) {
      ClaimFindsUnprocessed(NextTable(t0, k, ty, pc, c), k, ty, NextPc(t0, k, ty, pc, c), plan);
    }
  }

  /** With nobody else at the row, a claim that is not granted leaves it as it was, or processing if the effect
      of a statement that reported an error was applied. */
  lemma {:induction false} UngrantedKeeps(t: Table, k: Key, ty: string, pc: Pc, plan: Plan)
    requires Claiming(pc) && plan.AwayFrom({k}) && k in t && RunClaim(t, k, ty, pc, plan).1.Done?
    ensures var t' := RunClaim(t, k, ty, pc, plan).0;
            && k in t'
            && (IsProcessed(t, k) ==> t'[k] == t[k])
            && (RowIs(t, k, Processing) ==> RowIs(t', k, Processing))
            && (IsFailed(t, k) ==> t'[k] == t[k] || (RowIs(t', k, Processing) && plan.update.ErrApplied?))
    decreases Rank(pc)
  {
    var t0, c := ExecAll(t, plan.Gap(pc)), plan.ChoiceAt(pc);
    GapAvoids(plan, pc, {k});
    AvoidedStays(t, plan.Gap(pc), {k}, k);
    if Claiming(NextPc(t0, k, ty, pc, c)) {
      UngrantedKeeps(NextTable(t0, k, ty, pc, c), k, ty, NextPc(t0, k, ty, pc, c), plan);
    }
  }

  lemma UndeliveredKeeps(t: Table, k: Key, ty: string, plan: Plan)
    requires plan.AwayFrom({k}) && k in t && !RunHandler(t, k, ty, Ready, plan).2
    ensures var t' := RunHandler(t, k, ty, Ready, plan).0;
            && k in t'
            && (IsProcessed(t, k) ==> t'[k] == t[k])
            && (RowIs(t, k, Processing) ==> RowIs(t', k, Processing))
            && (IsFailed(t, k) ==> t'[k] == t[k] || (RowIs(t', k, Processing) && plan.update.ErrApplied?))
  {
    ClaimRefines(t, k, ty, Ready, plan);
    RunHandlerSplits(t, k, ty, plan);
    if RunClaim(t, k, ty, Ready, plan).1.Granted? { GrantedCallMarks(t, k, ty, plan); }
    UngrantedKeeps(t, k, ty, Ready, plan);
  }

  /** With nobody else at the row, the mark finds it as the claim has left it. */
  lemma StillAtMark(t: Table, k: Key, ty: string, plan: Plan)
    requires plan.AwayFrom({k})
    ensures SameRow(RunClaim(t, k, ty, Ready, plan).0, AtMark(t, k, ty, plan), k)
  {
    var t1 := RunClaim(t, k, ty, Ready, plan).0;
    AvoidedStays(t1, plan.beforeCall, {k}, k);
    AvoidedStays(ExecAll(t1, plan.beforeCall), plan.beforeAnswer, {k}, k);
    AvoidedStays(ExecAll(ExecAll(t1, plan.beforeCall), plan.beforeAnswer), plan.beforeMark, {k}, k);
  }

  /** With nobody else at the row, a call that has delivered leaves it as the answer says, unless its mark is
      lost, and returns true if and only if the mark reported no error and the answer is final. */
  lemma DeliveryDecides(t: Table, k: Key, ty: string, plan: Plan)
    requires plan.AwayFrom({k}) && RunHandler(t, k, ty, Ready, plan).2
    ensures var (t', ok, _) := RunHandler(t, k, ty, Ready, plan);
            var verdict := Verdict(plan.transport);
            && k in t'
            && (plan.mark.ErrLost? ==> t'[k].status.Processing?)
            && (!plan.mark.ErrLost? && verdict.None? ==> t'[k].status.Processed? && t'[k].error == None)
            && (!plan.mark.ErrLost? && verdict.Some? ==>
                  t'[k].status.Failed? && t'[k].error == Some(Text(verdict.value)))
            && (ok <==> plan.mark.NoFault? && (verdict.None? || !IsRetryable(verdict.value)))
  {
    ClaimRefines(t, k, ty, Ready, plan);
    RunHandlerSplits(t, k, ty, plan);
    GrantLeavesProcessing(t, k, ty, plan);
    GrantedCallMarks(t, k, ty, plan);
    StillAtMark(t, k, ty, plan);
  }

  /** An untroubled call with a record that was not processed yet leaves its row, and returns, as downstream has
      answered. */
  lemma AnswerDecides(t: Table, k: Key, ty: string, plan: Plan, status: int)
    requires plan.insert == plan.select == plan.update == plan.mark == NoFault && plan.AwayFrom({k})
    requires plan.transport == Response(status) && !IsProcessed(t, k)
    ensures var (t', ok, called) := RunHandler(t, k, ty, Ready, plan);
            && called && k in t'
            && (200 <= status < 300 ==> ok && t'[k].status.Processed? && t'[k].error == None)
            && (status >= 500 || status == 429 ==>
                  !ok && t'[k].status.Failed? && t'[k].error == Some("downstream error"))
            && (status == 400 || status == 404 || status == 422 ==>
                  ok && t'[k].status.Failed? && t'[k].error == Some("downstream rejected job"))
            && (!(200 <= status < 300) && status < 500 && status !in {400, 404, 422, 429} ==>
                  ok && t'[k].status.Failed? && t'[k].error == Some("downstream unexpected status"))
  {
    ClaimSucceeds(t, k, ty, Ready, plan);
    ClaimMeans(t, k, ty, plan);
    ClaimFindsUnprocessed(t, k, ty, Ready, plan);
    GrantedCallMarks(t, k, ty, plan);
    DeliveryDecides(t, k, ty, plan);
  }

  // ---------------------------------------------------------------- what a call leaves behind

  predicate FinalText(transport: Transport, text: Option<string>) {
    var e := Verdict(transport);
    e.Some? && !IsRetryable(e.value) && text == Some(Text(e.value))
  }

  /** The row is processed, or failed with the text of a verdict that is final. */
  ghost predicate Settled(t: Table, k: Key) {
    IsProcessed(t, k) || (IsFailed(t, k) && exists transport :: FinalText(transport, t[k].error))
  }

  /** A row that is not the call's own, and at which nobody else is, stays as it was. */
  lemma {:induction false} TouchesOwnRow(t: Table, k: Key, ty: string, pc: Pc, plan: Plan, other: Key)
    requires plan.AwayFrom({other}) && other != k
    ensures SameRow(t, RunHandler(t, k, ty, pc, plan).0, other)
    decreases Rank(pc)
  {
    if !pc.Done? {
      var t0, c := ExecAll(t, plan.Gap(pc)), plan.ChoiceAt(pc);
      GapAvoids(plan, pc, {other});
      AvoidedStays(t, plan.Gap(pc), {other}, other);
      TouchesOwnRow(NextTable(t0, k, ty, pc, c), k, ty, NextPc(t0, k, ty, pc, c), plan, other);
    }
  }

  /** With nobody else at its row, whatever faults a call meets, if it returns true it leaves the row settled. */
  lemma {:induction false} CallSettles(t: Table, k: Key, ty: string, pc: Pc, plan: Plan)
    requires plan.AwayFrom({k})
    requires pc.Selecting? ==> k in t
    requires pc.Retrying? || pc.Granted? || pc.Calling? || pc.GotOk? || pc.GotError? ==>
               k in t && t[k].status.Processing?
    requires pc.Reclaiming? ==> IsFailed(t, k)
    requires pc.GotError? ==> Verdict(plan.transport) == Some(pc.error)
    ensures RunHandler(t, k, ty, pc, plan).1 && !pc.Done? ==> Settled(RunHandler(t, k, ty, pc, plan).0, k)
    decreases Rank(pc)
  {
    if !pc.Done? {
      var t0, c := ExecAll(t, plan.Gap(pc)), plan.ChoiceAt(pc);
      GapAvoids(plan, pc, {k});
      AvoidedStays(t, plan.Gap(pc), {k}, k);
      var t', pc' := NextTable(t0, k, ty, pc, c), NextPc(t0, k, ty, pc, c);
      if !pc'.Done? {
        CallSettles(t', k, ty, pc', plan);
      } else if pc.GotError? && pc' == Done(true) {
        assert FinalText(plan.transport, t'[k].error);
      }
    }
  }
}
