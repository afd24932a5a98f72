/** How the phase moves: never back, and on to completion when the outside cooperates. */
module Progress {
  import opened Orders
  import opened StepSpec
  import opened Ladder

  /** Within a run the stored phase is the one in memory. */
  ghost predicate InPhase(r: Run, v: Value) {
    && HasAll(r.order.bag)
    && Get(r.order.bag, PhaseParam) == v
    && Get(r.server.saved.bag, PhaseParam) == v
    && (v == Unset || v.AtPhase?)
  }

  lemma HandleErrorPhase(r: Run, v: Value, step: Step, w: World)
    requires InPhase(r, v)
    ensures InPhase(HandleError(r, step, w).0, v)
    ensures HandleError(r, step, w).0.stillRunning == r.stillRunning
  {
  }

  predicate DeploymentOpen(w: World) {
    w.deployment == Good(Running) || w.deployment == Good(UnknownDeployment)
  }

  /** The work of a step leaves the phase alone. */
  lemma ProcessPhase(step: Step, r: Run, v: Value, w: World, catalogue: Catalogue)
    requires step != SetupContext
    requires InPhase(r, v)
    ensures InPhase(Process(step, r, w, catalogue).0, v)
    ensures step != CheckOnboardStatus ==> Process(step, r, w, catalogue).0.stillRunning == r.stillRunning
    ensures step == CheckOnboardStatus && Process(step, r, w, catalogue).0.stillRunning ==> DeploymentOpen(w)
  {
    match step
    case OnboardServicesStep => OnboardPhase(r, v, w);
    case CheckOnboardStatus => HandleErrorPhase(r.(stillRunning := false), v, step, w);
    case TicketNewAccount => TicketPhase(r, v, NewAccountTicket, w.ticket(step));
    case TicketOrderFail => TicketPhase(r, v, OrderFailedTicket, w.ticket(step));
    case TicketPLS => TicketPhase(r, v, PlsTicket, w.ticket(step));
    case TicketOnboardServices => TicketPhase(r, v, OnboardTicket, w.ticket(step));
    case _ => PlainPhase(step, r, v, w, catalogue);
  }

  /** The steps whose work neither opens tickets nor handles deployment errors. */
  predicate PlainWork(step: Step) {
    step !in {SetupContext, OnboardServicesStep, CheckOnboardStatus,
              TicketNewAccount, TicketOrderFail, TicketPLS, TicketOnboardServices}
  }

  lemma PlainPhase(step: Step, r: Run, v: Value, w: World, catalogue: Catalogue)
    requires PlainWork(step) && InPhase(r, v)
    ensures InPhase(Process(step, r, w, catalogue).0, v)
    ensures Process(step, r, w, catalogue).0.stillRunning == r.stillRunning
  {
    match step
    case ValidateOrder =>
    case CreateNewAWSEnvironment =>
    case CreateBillingTransferInvitation =>
    case CheckBillingTransferInvitation =>
    case ConfigureAPNProgram =>
    case CreateChannelHandshake =>
    case CheckChannelHandshakeStatus =>
    case CheckCustomerRoles =>
    case CreateSubscriptionStep =>
    case ContractCard =>
    case SWOJob =>
    case CompleteOrder =>
  }

  lemma OnboardPhase(r: Run, v: Value, w: World)
    requires InPhase(r, v)
    ensures InPhase(Onboard(r, w).0, v) && Onboard(r, w).0.stillRunning == r.stillRunning
  {
    HandleErrorPhase(r, v, OnboardServicesStep, w);
  }

  lemma TicketPhase(r: Run, v: Value, p: Param, answer: Answer<string>)
    requires InPhase(r, v) && p != PhaseParam
    ensures InPhase(OpenTicket(r, p, answer).0, v)
    ensures OpenTicket(r, p, answer).0.stillRunning == r.stillRunning
  {
    if answer.Good? {
      if answer.value != "" {
        assert Get(Set(r.order.bag, p, Text(answer.value)), PhaseParam) == v;
      }
    }
  }

  /** Where a step may leave the phase, and where it must when the run goes on. */
  ghost predicate Moved(step: Step, r: Run, w: World, c: (Run, Outcome)) {
    var v, v' := Get(r.order.bag, PhaseParam), Get(c.0.server.saved.bag, PhaseParam);
    var home := HomePhase(step).Some? && IsAt(r.order.bag, HomePhase(step).value);
    && (v' == v || (home && NextPhase(step).Some? && v' == AtPhase(NextPhase(step).value)))
    && (c.1.Continue? ==> InPhase(c.0, v'))
    && (c.1.Continue? && home && NextPhase(step).Some? && v' == v ==>
          step == CheckOnboardStatus && c.0.stillRunning)
    && (c.1.Continue? && c.0.stillRunning ==> r.stillRunning || DeploymentOpen(w))
    && (c.1.Continue? && !(home && step == CheckOnboardStatus) ==> c.0.stillRunning == r.stillRunning)
  }

  lemma SavePhase(r: Run, v: Value, ok: bool)
    requires HasAll(r.order.bag)
    requires Get(r.order.bag, PhaseParam) == v && (v == Unset || v.AtPhase?)
    ensures var (r', sig) := Save(r, ok);
      && r'.order == r.order && r'.stillRunning == r.stillRunning && r'.roles == r.roles
      && r'.server.saved == (if ok then r.order else r.server.saved)
      && r'.server.pls == r.server.pls && r'.server.status == r.server.status
      && sig == (if ok then Proceed else Crash)
      && (ok ==> InPhase(r', v))
  {
  }

  lemma PostMoves(step: Step, r: Run, v: Value, w: World)
    requires step != SetupContext && InPhase(r, v)
    ensures var (r', sig) := PostStep(step, r, w);
      var v' := Get(r'.server.saved.bag, PhaseParam);
      && (v' == v || (NextPhase(step).Some? && v' == AtPhase(NextPhase(step).value)))
      && (sig == Proceed ==> InPhase(r', v') && r'.stillRunning == r.stillRunning)
      && (sig == Proceed && NextPhase(step).Some? && !(step == CheckOnboardStatus && r.stillRunning) ==>
            v' == AtPhase(NextPhase(step).value))
      && (sig == Proceed || sig == Crash)
  {
    var v1 := if NextPhase(step).Some? then AtPhase(NextPhase(step).value) else v;
    SavePhase(if NextPhase(step).Some? then r.At(NextPhase(step).value) else r, v1, w.save(step, AfterStep));
  }

  lemma CallMoves(step: Step, r: Run, v: Value, w: World, catalogue: Catalogue)
    requires step != SetupContext
    requires InPhase(r, v)
    ensures Moved(step, r, w, Call(step, r, w, catalogue))
  {
    var (r1, sig) := PreStep(step, r, w);
    if sig.Proceed? {
      WorkMoves(step, r, v, w, catalogue);
    } else if sig.AlreadyProcessed? {
      SavePhase(r1, AtPhase(NextPhase(step).value), w.save(step, OnSkip));
    }
  }

  lemma WorkMoves(step: Step, r: Run, v: Value, w: World, catalogue: Catalogue)
    requires step != SetupContext && InPhase(r, v) && PreStep(step, r, w).1.Proceed?
    ensures Moved(step, r, w, Call(step, r, w, catalogue))
  {
    var (r1, sig) := Process(step, r, w, catalogue);
    PreProceeds(step, r, w);
    ProcessPhase(step, r, v, w, catalogue);
    AfterMoves(step, r, r1, sig, v, w);
  }

  lemma AfterMoves(step: Step, r: Run, r1: Run, sig: Signal, v: Value, w: World)
    requires step != SetupContext && InPhase(r, v) && InPhase(r1, v)
    requires HomePhase(step).Some? ==> IsAt(r.order.bag, HomePhase(step).value)
    requires step != CheckOnboardStatus ==> r1.stillRunning == r.stillRunning
    requires step == CheckOnboardStatus && r1.stillRunning ==> DeploymentOpen(w)
    ensures Moved(step, r, w, AfterWork(step, r1, sig, w))
  {
    if sig.Proceed? {
      PostMoves(step, r1, v, w);
    } else if sig.QueryOrder? || sig.FailOrder? {
      SavePhase(r1, v, w.save(step, Switch));
    }
  }

  /** A step that goes on to its work has changed nothing yet and is at home. */
  lemma PreProceeds(step: Step, r: Run, w: World)
    requires PreStep(step, r, w).1.Proceed?
    ensures PreStep(step, r, w) == (r, Proceed)
    ensures HomePhase(step).Some? ==> IsAt(r.order.bag, HomePhase(step).value)
  {
    match step
    case SetupContext =>
    case ValidateOrder =>
    case TicketNewAccount =>
    case CreateNewAWSEnvironment =>
    case CreateBillingTransferInvitation =>
    case CheckBillingTransferInvitation =>
    case ConfigureAPNProgram =>
    case CreateChannelHandshake =>
    case CheckChannelHandshakeStatus =>
    case CheckCustomerRoles =>
    case TicketOrderFail =>
    case OnboardServicesStep =>
    case CheckOnboardStatus =>
    case CreateSubscriptionStep =>
    case ContractCard =>
    case SWOJob =>
    case TicketPLS =>
    case TicketOnboardServices =>
    case CompleteOrder =>
  }

  lemma SetupMoves(r: Run, w: World, catalogue: Catalogue)
    requires FlagsOnly(catalogue)
    requires r.order == r.server.saved && InPhase(r, Get(r.order.bag, PhaseParam))
    ensures var (r', out) := Call(SetupContext, r, w, catalogue);
      var first := if r.server.newAccount then CreateAccount else CreateInvitation;
      var v' := Get(r'.server.saved.bag, PhaseParam);
      && (v' == Get(r.order.bag, PhaseParam) || (Rank(r.order.bag) == 0 && v' == AtPhase(first)))
      && (out.Continue? ==> InPhase(r', v') && v'.AtPhase? && r'.stillRunning == r.stillRunning)
  {
    DefaultsTouchFlagsOnly(r.order.bag, catalogue, PhaseParam);
  }

  function Successor(step: Step, newAccount: bool): Option<Step> {
    match step
    case SetupContext => Some(ValidateOrder)
    case ValidateOrder => Some(if newAccount then TicketNewAccount else CreateBillingTransferInvitation)
    case TicketNewAccount => Some(CreateNewAWSEnvironment)
    case CreateNewAWSEnvironment => Some(CreateBillingTransferInvitation)
    case CreateBillingTransferInvitation => Some(CheckBillingTransferInvitation)
    case CheckBillingTransferInvitation => Some(ConfigureAPNProgram)
    case ConfigureAPNProgram => Some(CreateChannelHandshake)
    case CreateChannelHandshake => Some(CheckChannelHandshakeStatus)
    case CheckChannelHandshakeStatus => Some(CheckCustomerRoles)
    case CheckCustomerRoles => Some(TicketOrderFail)
    case TicketOrderFail => Some(OnboardServicesStep)
    case OnboardServicesStep => Some(CheckOnboardStatus)
    case CheckOnboardStatus => Some(CreateSubscriptionStep)
    case CreateSubscriptionStep => Some(ContractCard)
    case ContractCard => Some(SWOJob)
    case SWOJob => Some(TicketPLS)
    case TicketPLS => Some(TicketOnboardServices)
    case TicketOnboardServices => Some(CompleteOrder)
    case CompleteOrder => None
  }

  /** The steps follow each other as in the pipeline, to its end. */
  predicate Chain(steps: seq<Step>, newAccount: bool) {
    && steps != []
    && steps[|steps| - 1] == CompleteOrder
    && forall i :: 0 <= i < |steps| - 1 ==> Successor(steps[i], newAccount) == Some(steps[i + 1])
  }

  lemma PipelineIsChain(newAccount: bool)
    ensures Chain(Pipeline(newAccount), newAccount)
    ensures Pipeline(newAccount)[0] == SetupContext
  {
    SharedIsChain(newAccount);
    var head := if newAccount then [SetupContext, ValidateOrder, TicketNewAccount, CreateNewAWSEnvironment]
                else [SetupContext, ValidateOrder];
    HeadIsLinked(newAccount, head);
    assert Pipeline(newAccount) == head + SHARED_STEPS;
    ChainsJoin(head, SHARED_STEPS, newAccount);
  }

  /** The steps follow each other, up to the last of them. */
  predicate Linked(steps: seq<Step>, newAccount: bool) {
    forall i :: 0 <= i < |steps| - 1 ==> Successor(steps[i], newAccount) == Some(steps[i + 1])
  }

  lemma HeadIsLinked(newAccount: bool, head: seq<Step>)
    requires head == if newAccount then [SetupContext, ValidateOrder, TicketNewAccount, CreateNewAWSEnvironment]
                     else [SetupContext, ValidateOrder]
    ensures Linked(head, newAccount)
  {
  }

  lemma ChainsJoin(a: seq<Step>, b: seq<Step>, newAccount: bool)
    requires a != [] && Linked(a, newAccount) && Chain(b, newAccount)
    requires Successor(a[|a| - 1], newAccount) == Some(b[0])
    ensures Chain(a + b, newAccount)
  {
  }

  lemma {:induction false} LinkIsChain(step: Step, rest: seq<Step>, newAccount: bool)
    requires Chain(rest, newAccount) && Successor(step, newAccount) == Some(rest[0])
    ensures Chain([step] + rest, newAccount)
  {
    ChainsJoin([step], rest, newAccount);
  }

  lemma SharedIsChain(newAccount: bool)
    ensures Chain(SHARED_STEPS, newAccount)
  {
    var n := |SHARED_STEPS|;
    var i := n - 1;
    while i > 0
      invariant 0 <= i < n
      invariant Chain(SHARED_STEPS[i..], newAccount)
    {
      i := i - 1;
      assert Successor(SHARED_STEPS[i], newAccount) == Some(SHARED_STEPS[i + 1]);
      LinkIsChain(SHARED_STEPS[i], SHARED_STEPS[i + 1..], newAccount);
      assert [SHARED_STEPS[i]] + SHARED_STEPS[i + 1..] == SHARED_STEPS[i..];
    }
    assert SHARED_STEPS[0..] == SHARED_STEPS;
  }

  /** The phases with which a run can arrive at a step: every phase whose own step comes
      earlier has been left, but for an onboarding that is still running. */
  predicate Reached(step: Step, k: nat, still: bool) {
    var waiting := k == 9 && still;
    match step
    case SetupContext => true
    case ValidateOrder => k >= 1
    case TicketNewAccount => k >= 1
    case CreateNewAWSEnvironment => k >= 1
    case CreateBillingTransferInvitation => k >= 2
    case CheckBillingTransferInvitation => k >= 3
    case ConfigureAPNProgram => k >= 4
    case CreateChannelHandshake => k >= 5
    case CheckChannelHandshakeStatus => k >= 6
    case CheckCustomerRoles => k >= 7
    case TicketOrderFail => k >= 8
    case OnboardServicesStep => k >= 8
    case CheckOnboardStatus => k >= 9
    case CreateSubscriptionStep => k >= 10 || waiting
    case ContractCard => k >= 11 || waiting
    case SWOJob => k >= 11 || waiting
    case TicketPLS => k >= 12 || waiting
    case TicketOnboardServices => k >= 12 || waiting
    case CompleteOrder => k >= 12 || waiting
  }

  /** An order without new account never has the phase of the account creation. */
  predicate PhaseFits(s: Server) {
    (Get(s.saved.bag, PhaseParam) == Unset || Get(s.saved.bag, PhaseParam).AtPhase?)
    && (s.newAccount || !IsAt(s.saved.bag, CreateAccount))
  }

  ghost predicate Arrives(step: Step, r: Run, w: World) {
    && (r.stillRunning ==> DeploymentOpen(w))
    && InPhase(r, Get(r.order.bag, PhaseParam))
    && PhaseFits(r.server)
    && Reached(step, Rank(r.order.bag), r.stillRunning)
  }

  lemma StepAdvances(step: Step, next: Step, r: Run, w: World, catalogue: Catalogue)
    requires step != SetupContext && Successor(step, r.server.newAccount) == Some(next)
    requires Arrives(step, r, w)
    ensures var (r', out) := Call(step, r, w, catalogue);
      && Rank(r.order.bag) <= Rank(r'.server.saved.bag)
      && PhaseFits(r'.server)
      && (out.Continue? ==> Arrives(next, r', w))
  {
    CallMoves(step, r, Get(r.order.bag, PhaseParam), w, catalogue);
    MoveAdvances(step, next, r, w, Call(step, r, w, catalogue));
  }

  /** How a step moves the phase, as ranks: on from its own to the next, or not at all. */
  predicate RankMoves(step: Step, k: nat, k': nat) {
    || k' == k
    || (HomePhase(step).Some? && k == PhaseRank(HomePhase(step).value)
        && NextPhase(step).Some? && k' == PhaseRank(NextPhase(step).value))
  }

  lemma MovedRanks(step: Step, r: Run, w: World, c: (Run, Outcome))
    requires InPhase(r, Get(r.order.bag, PhaseParam)) && Moved(step, r, w, c)
    ensures RankMoves(step, Rank(r.order.bag), Rank(c.0.server.saved.bag))
    ensures c.1.Continue? && HomePhase(step).Some? && NextPhase(step).Some?
            && Rank(r.order.bag) == PhaseRank(HomePhase(step).value)
            && Rank(c.0.server.saved.bag) == Rank(r.order.bag) ==>
              step == CheckOnboardStatus && c.0.stillRunning
  {
    if HomePhase(step).Some? {
      PhaseOfRank(r.order.bag, HomePhase(step).value);
    }
  }

  /** Different phases have different ranks. */
  lemma PhaseOfRank(bag: Bag, p: Phase)
    ensures Rank(bag) == PhaseRank(p) <==> IsAt(bag, p)
  {
    match Get(bag, PhaseParam)
    case AtPhase(q) => RankOfPhase(q, p);
    case _ =>
  }

  lemma RankOfPhase(p: Phase, q: Phase)
    ensures PhaseRank(p) == PhaseRank(q) <==> p == q
  {
  }

  /** The order of the pipeline is the order of the phases. */
  lemma RanksReach(step: Step, next: Step, newAccount: bool, k: nat, k': nat, still: bool, still': bool)
    requires step != SetupContext && Successor(step, newAccount) == Some(next)
    requires Reached(step, k, still) && (newAccount || k != 1) && k <= 12
    requires RankMoves(step, k, k')
    requires HomePhase(step).Some? && NextPhase(step).Some? && k == PhaseRank(HomePhase(step).value) && k' == k ==>
               step == CheckOnboardStatus && still'
    requires !(HomePhase(step).Some? && k == PhaseRank(HomePhase(step).value) && step == CheckOnboardStatus) ==>
               still' == still
    ensures Reached(next, k', still')
  {
    match step
    case ValidateOrder =>
    case TicketNewAccount =>
    case CreateNewAWSEnvironment =>
    case CreateBillingTransferInvitation =>
    case CheckBillingTransferInvitation =>
    case ConfigureAPNProgram =>
    case CreateChannelHandshake =>
    case CheckChannelHandshakeStatus =>
    case CheckCustomerRoles =>
    case TicketOrderFail =>
    case OnboardServicesStep =>
    case CheckOnboardStatus =>
    case CreateSubscriptionStep =>
    case ContractCard =>
    case SWOJob =>
    case TicketPLS =>
    case TicketOnboardServices =>
  }

  /** A step climbs at most to its next phase, and never to the one that only new accounts have. */
  lemma RanksClimb(step: Step, k: nat, k': nat)
    requires RankMoves(step, k, k')
    ensures k <= k' && (k' == 1 ==> k == 1)
  {
  }

  lemma MoveAdvances(step: Step, next: Step, r: Run, w: World, c: (Run, Outcome))
    requires step != SetupContext && Successor(step, r.server.newAccount) == Some(next)
    requires Arrives(step, r, w)
    requires Moved(step, r, w, c) && SameKind(r, c.0)
    ensures Rank(r.order.bag) <= Rank(c.0.server.saved.bag)
    ensures PhaseFits(c.0.server)
    ensures c.1.Continue? ==> Arrives(next, c.0, w)
  {
    var k, k' := Rank(r.order.bag), Rank(c.0.server.saved.bag);
    MovedRanks(step, r, w, c);
    RanksClimb(step, k, k');
    PhaseOfRank(c.0.server.saved.bag, CreateAccount);
    PhaseOfRank(r.server.saved.bag, CreateAccount);
    if c.1.Continue? {
      if HomePhase(step).Some? {
        PhaseOfRank(r.order.bag, HomePhase(step).value);
      }
      RanksReach(step, next, r.server.newAccount, k, k', r.stillRunning, c.0.stillRunning);
    }
  }

  /** A run that nothing stopped: the order is completed, or its deployment is still open. */
  ghost predicate Ended(r: Run, w: World) {
    r.server.status == Done || (IsAt(r.server.saved.bag, CheckOnboard) && DeploymentOpen(w))
  }

  lemma {:induction false} RunAdvances(steps: seq<Step>, r: Run, w: World, catalogue: Catalogue)
    requires Chain(steps, r.server.newAccount) && steps[0] != SetupContext
    requires Arrives(steps[0], r, w)
    ensures var (r', out) := RunSteps(steps, r, w, catalogue);
      && Rank(r.order.bag) <= Rank(r'.server.saved.bag)
      && PhaseFits(r'.server)
      && (out.Continue? ==> Ended(r', w))
    decreases |steps|
  {
    var (r1, out) := Call(steps[0], r, w, catalogue);
    if |steps| == 1 {
      LastStep(r, w, catalogue);
      assert RunSteps(steps[1..], r1, w, catalogue) == (r1, Continue);
    } else {
      StepAdvances(steps[0], steps[1], r, w, catalogue);
      if out.Continue? {
        RunAdvances(steps[1..], r1, w, catalogue);
      }
    }
  }

  lemma LastStep(r: Run, w: World, catalogue: Catalogue)
    requires Arrives(CompleteOrder, r, w)
    ensures var (r', out) := Call(CompleteOrder, r, w, catalogue);
      && Rank(r.order.bag) <= Rank(r'.server.saved.bag)
      && PhaseFits(r'.server)
      && (out.Continue? ==> Ended(r', w))
  {
  }

  /** One pipeline run moves the stored phase forward or not at all, and a run that was not
      stopped, queried, failed or broken off has completed the order or waits for its deployment. */
  lemma RunProgress(s: Server, w: World, catalogue: Catalogue)
    requires FlagsOnly(catalogue)
    requires HasAll(s.saved.bag) && PhaseFits(s)
    ensures var (r, out) := RunPipeline(s, w, catalogue);
      && Rank(s.saved.bag) <= Rank(r.server.saved.bag)
      && PhaseFits(r.server)
      && (out.Continue? ==> Ended(r, w))
  {
    var steps := Pipeline(s.newAccount);
    PipelineIsChain(s.newAccount);
    SetupMoves(Begin(s), w, catalogue);
    var (r1, out) := Call(SetupContext, Begin(s), w, catalogue);
    if out.Continue? {
      assert Arrives(ValidateOrder, r1, w);
      RunAdvances(steps[1..], r1, w, catalogue);
    }
  }

  lemma EventProgress(s: Server, e: Event, catalogue: Catalogue)
    requires FlagsOnly(catalogue)
    requires Sound(s) && PhaseFits(s)
    ensures Onward(s, Apply(s, e, catalogue))
  {
    match e
    case PipelineRun(w) =>
      if s.status == Processing {
        RunProgress(s, w, catalogue);
      }
    case QueryingPass(q) => PassProgress(s, q);
    case _ =>
  }

  /** The phase moves on or stays, and order kind and account type are as before. */
  predicate Onward(s: Server, t: Server) {
    Rank(s.saved.bag) <= Rank(t.saved.bag) && PhaseFits(t) && t.newAccount == s.newAccount && t.pls == s.pls
  }

  lemma PassProgress(s: Server, q: QueryWorld)
    requires HasAll(s.saved.bag) && PhaseFits(s)
    ensures Onward(s, QueryPass(s, q))
  {
    if s.status == Querying {
      if IsAt(s.saved.bag, CheckInvitation) {
      } else if IsAt(s.saved.bag, CheckHandshake) {
        JumpProgress(s, CheckRoles, q);
      } else if IsAt(s.saved.bag, CheckRoles) {
        RolesProgress(s, q);
      }
    }
  }

  lemma JumpProgress(s: Server, p: Phase, q: QueryWorld)
    requires HasAll(s.saved.bag) && PhaseFits(s)
    requires Rank(s.saved.bag) <= PhaseRank(p) && p != CreateAccount
    ensures Onward(s, JumpTo(s, p, q))
  {
    var s1 := s.saved.At(p);
    assert IsAt(s1.bag, p);
  }

  lemma RolesProgress(s: Server, q: QueryWorld)
    requires HasAll(s.saved.bag) && PhaseFits(s) && IsAt(s.saved.bag, CheckRoles)
    ensures Onward(s, PassRoles(s, q))
  {
    if q.roles == Good(false) {
      var reminded := RemindRoles(s, q);
      if reminded.Some? {
        RemindProgress(s, q);
        JumpProgress(reminded.value, CreateSubscription, q);
      }
    }
  }

  lemma RemindProgress(s: Server, q: QueryWorld)
    requires HasAll(s.saved.bag) && PhaseFits(s) && IsAt(s.saved.bag, CheckRoles) && RemindRoles(s, q).Some?
    ensures var t := RemindRoles(s, q).value;
      HasAll(t.saved.bag) && IsAt(t.saved.bag, CheckRoles) && PhaseFits(t)
      && t.newAccount == s.newAccount && t.pls == s.pls
  {
  }

  /** No phase comes back: along any history the rank only grows. */
  lemma {:induction false} RankNeverDecreases(s: Server, events: seq<Event>, i: nat, catalogue: Catalogue)
    requires FlagsOnly(catalogue)
    requires Sound(s) && PhaseFits(s)
    requires i <= |events|
    ensures Rank(ApplyAll(s, events[..i], catalogue).saved.bag) <= Rank(ApplyAll(s, events, catalogue).saved.bag)
    ensures PhaseFits(ApplyAll(s, events, catalogue))
    ensures ApplyAll(s, events, catalogue).newAccount == s.newAccount
    ensures ApplyAll(s, events, catalogue).pls == s.pls
  {
    if events != [] {
      var before := events[..|events| - 1];
      AllKeep(s, before, catalogue);
      RankNeverDecreases(s, before, if i < |events| then i else 0, catalogue);
      EventProgress(ApplyAll(s, before, catalogue), events[|events| - 1], catalogue);
      if i < |events| {
        assert before[..i] == events[..i];
      } else {
        assert events[..i] == events;
      }
    } else {
      assert events[..i] == events;
    }
  }

  /** Every outside call answers in the order's favour. */
  predicate Cooperative(w: World) {
    && w.pmAccount && w.catalogueRead && w.aws.Good? && w.apn.Good?
    && w.duplicate == Good(false)
    && w.invitation.Good? && w.transfer == Good(Accepted) && w.billingGroup.Good?
    && w.pmIdentifier == Good(true) && w.relationship.Good? && w.handshake.Good?
    && w.handshakeStatus.Good? && w.handshakeStatus.value.Some? && w.handshakeStatus.value != Some(Pending)
    && w.roles == Good(true)
    && w.onboard.Good? && w.onboard.value != ""
    && w.deployment == Good(Succeeded)
    && w.subscriptionLookup && w.subscriptionCreate
    && !w.contract.Raises? && !w.job.Raises?
    && w.agreement && w.mail.Good?
  }

  ghost predicate Answering(w: World) {
    && Cooperative(w)
    && (forall step :: w.ticket(step).Good?)
    && (forall step, slot :: w.save(step, slot))
  }

  /** What the order itself must hold to get from its phase to completion. */
  predicate Ready(bag: Bag, mpa: AccountId, pls: bool) {
    var refused := pls && Get(bag, RolesDeployed) == No;
    match Get(bag, PhaseParam)
    case AtPhase(CreateAccount) => mpa != NoAccount
    case AtPhase(CreateInvitation) => mpa != NoAccount || Get(bag, TransferId).Truthy()
    case AtPhase(CheckInvitation) => Get(bag, TransferId).Truthy()
    case AtPhase(CheckHandshake) => Get(bag, HandshakeId).Truthy()
    case AtPhase(OnboardServices) => !refused
    case AtPhase(CheckOnboard) => !refused && (Get(bag, ExecutionArn).Truthy() || !pls)
    case AtPhase(CreateSubscription) => !refused
    case _ => true
  }

  predicate ReadyRun(r: Run) {
    Ready(r.order.bag, r.order.mpa, r.server.pls)
  }

  /** Between two steps of a run that the outside favours. */
  ghost predicate Going(r: Run) {
    && InPhase(r, Get(r.order.bag, PhaseParam)) && Get(r.order.bag, PhaseParam).AtPhase?
    && r.server.status == Processing
    && !r.stillRunning
    && (r.roles.None? || r.roles == Some(true))
  }

  /** A step of a favoured run continues when the order is ready, and does not make it ready. */
  ghost predicate Fated(r: Run, c: (Run, Outcome)) {
    && (ReadyRun(r) ==> c.1.Continue?)
    && (c.1.Continue? ==> Going(c.0) && (ReadyRun(c.0) <==> ReadyRun(r)))
    && (!c.1.Continue? ==> c.0.server.status != Done)
  }

  lemma CoopStep(step: Step, r: Run, w: World, catalogue: Catalogue)
    requires step != SetupContext && step != CompleteOrder
    requires Answering(w) && Going(r)
    ensures Fated(r, Call(step, r, w, catalogue))
  {
    if PreStep(step, r, w).1.Skip? {
      SkipChangesNothing(step, r, w);
    } else {
      match step
      case ValidateOrder | TicketNewAccount | CreateNewAWSEnvironment | TicketOrderFail => CoopEntry(step, r, w, catalogue);
      case CreateBillingTransferInvitation | CheckBillingTransferInvitation => CoopTransfer(step, r, w, catalogue);
      case ConfigureAPNProgram | CreateChannelHandshake => CoopPartner(step, r, w, catalogue);
      case CheckChannelHandshakeStatus | CheckCustomerRoles => CoopChecks(step, r, w, catalogue);
      case OnboardServicesStep => CoopOnboard(r, w, catalogue);
      case CheckOnboardStatus => CoopDeployment(r, w, catalogue);
      case CreateSubscriptionStep | ContractCard => CoopContract(step, r, w, catalogue);
      case SWOJob => CoopJob(r, w, catalogue);
      case TicketPLS | TicketOnboardServices => CoopTickets(step, r, w, catalogue);
    }
  }

  lemma SkipChangesNothing(step: Step, r: Run, w: World)
    requires PreStep(step, r, w).1.Skip?
    ensures PreStep(step, r, w) == (r, Skip)
  {
  }

  lemma CoopEntry(step: Step, r: Run, w: World, catalogue: Catalogue)
    requires step in {ValidateOrder, TicketNewAccount, CreateNewAWSEnvironment, TicketOrderFail}
    requires Answering(w) && Going(r) && !PreStep(step, r, w).1.Skip?
    ensures Fated(r, Call(step, r, w, catalogue))
  {
    match step
    case ValidateOrder =>
    case TicketNewAccount =>
    case CreateNewAWSEnvironment =>
    case TicketOrderFail =>
  }

  lemma CoopTransfer(step: Step, r: Run, w: World, catalogue: Catalogue)
    requires step in {CreateBillingTransferInvitation, CheckBillingTransferInvitation}
    requires Answering(w) && Going(r) && !PreStep(step, r, w).1.Skip?
    ensures Fated(r, Call(step, r, w, catalogue))
  {
    match step
    case CreateBillingTransferInvitation =>
    case CheckBillingTransferInvitation =>
  }

  lemma CoopPartner(step: Step, r: Run, w: World, catalogue: Catalogue)
    requires step in {ConfigureAPNProgram, CreateChannelHandshake}
    requires Answering(w) && Going(r) && !PreStep(step, r, w).1.Skip?
    ensures Fated(r, Call(step, r, w, catalogue))
  {
    match step
    case ConfigureAPNProgram =>
    case CreateChannelHandshake =>
  }

  lemma CoopChecks(step: Step, r: Run, w: World, catalogue: Catalogue)
    requires step in {CheckChannelHandshakeStatus, CheckCustomerRoles}
    requires Answering(w) && Going(r) && !PreStep(step, r, w).1.Skip?
    ensures Fated(r, Call(step, r, w, catalogue))
  {
    match step
    case CheckChannelHandshakeStatus =>
    case CheckCustomerRoles =>
  }

  lemma CoopOnboard(r: Run, w: World, catalogue: Catalogue)
    requires Answering(w) && Going(r) && !PreStep(OnboardServicesStep, r, w).1.Skip?
    ensures Fated(r, Call(OnboardServicesStep, r, w, catalogue))
  {
  }

  lemma CoopDeployment(r: Run, w: World, catalogue: Catalogue)
    requires Answering(w) && Going(r) && !PreStep(CheckOnboardStatus, r, w).1.Skip?
    ensures Fated(r, Call(CheckOnboardStatus, r, w, catalogue))
  {
  }

  lemma CoopContract(step: Step, r: Run, w: World, catalogue: Catalogue)
    requires step in {CreateSubscriptionStep, ContractCard}
    requires Answering(w) && Going(r) && !PreStep(step, r, w).1.Skip?
    ensures Fated(r, Call(step, r, w, catalogue))
  {
    match step
    case CreateSubscriptionStep =>
    case ContractCard =>
  }

  lemma CoopJob(r: Run, w: World, catalogue: Catalogue)
    requires Answering(w) && Going(r) && !PreStep(SWOJob, r, w).1.Skip?
    ensures Fated(r, Call(SWOJob, r, w, catalogue))
  {
  }

  lemma CoopTickets(step: Step, r: Run, w: World, catalogue: Catalogue)
    requires step in {TicketPLS, TicketOnboardServices}
    requires Answering(w) && Going(r) && !PreStep(step, r, w).1.Skip?
    ensures Fated(r, Call(step, r, w, catalogue))
  {
    match step
    case TicketPLS =>
    case TicketOnboardServices =>
  }

  /** Completion takes the order exactly when it has come that far. */
  lemma CoopLast(r: Run, w: World, catalogue: Catalogue)
    requires Answering(w) && Going(r) && Arrives(CompleteOrder, r, w)
    ensures Call(CompleteOrder, r, w, catalogue).0.server.status == Done && ReadyRun(r)
  {
  }

  lemma {:induction false} CoopRun(steps: seq<Step>, r: Run, w: World, catalogue: Catalogue)
    requires Chain(steps, r.server.newAccount) && steps[0] != SetupContext
    requires Answering(w) && Going(r) && Arrives(steps[0], r, w)
    ensures RunSteps(steps, r, w, catalogue).0.server.status == Done <==> ReadyRun(r)
    decreases |steps|
  {
    var (r1, out) := Call(steps[0], r, w, catalogue);
    if |steps| == 1 {
      CoopLast(r, w, catalogue);
      assert RunSteps(steps[1..], r1, w, catalogue) == (r1, Continue);
    } else {
      StepAdvances(steps[0], steps[1], r, w, catalogue);
      CoopStep(steps[0], r, w, catalogue);
      if out.Continue? {
        CoopRun(steps[1..], r1, w, catalogue);
      }
    }
  }

  /** What an order must hold so that one favoured run completes it. */
  predicate Completable(s: Server) {
    var bag := if Rank(s.saved.bag) > 0 then s.saved.bag
               else Set(s.saved.bag, PhaseParam, AtPhase(if s.newAccount then CreateAccount else CreateInvitation));
    Ready(bag, Strip(s.saved.mpa), s.pls)
  }

  /** From any phase of its pipeline, one run with a cooperating outside completes the order
      if and only if the order holds what its phase needs. */
  lemma CooperativeRunCompletes(s: Server, w: World, catalogue: Catalogue)
    requires FlagsOnly(catalogue)
    requires HasAll(s.saved.bag) && PhaseFits(s) && s.status == Processing
    requires Answering(w)
    ensures RunPipeline(s, w, catalogue).0.server.status == Done <==> Completable(s)
  {
    var steps := Pipeline(s.newAccount);
    PipelineIsChain(s.newAccount);
    SetupMoves(Begin(s), w, catalogue);
    CoopSetup(s, w, catalogue);
    var (r1, out) := Call(SetupContext, Begin(s), w, catalogue);
    assert Arrives(ValidateOrder, r1, w);
    CoopRun(steps[1..], r1, w, catalogue);
  }

  lemma CoopSetup(s: Server, w: World, catalogue: Catalogue)
    requires FlagsOnly(catalogue)
    requires HasAll(s.saved.bag) && PhaseFits(s) && s.status == Processing
    requires Answering(w)
    ensures var (r1, out) := Call(SetupContext, Begin(s), w, catalogue);
      out.Continue? && Going(r1) && (ReadyRun(r1) <==> Completable(s))
  {
    DefaultsTouchFlagsOnly(s.saved.bag, catalogue, PhaseParam);
    DefaultsTouchFlagsOnly(s.saved.bag, catalogue, TransferId);
  }

  /** The approval flag that leaves the handshake check is "yes" exactly for an accepted handshake. */
  lemma ApprovalRecorded(r: Run, w: World, catalogue: Catalogue)
    requires InPhase(r, AtPhase(CheckHandshake))
    ensures var (r', out) := Call(CheckChannelHandshakeStatus, r, w, catalogue);
      out.Continue? ==>
        && IsAt(r'.server.saved.bag, CheckRoles)
        && Get(r'.server.saved.bag, HandshakeApproved) ==
             (if w.handshakeStatus == Good(Some(Approved)) then Yes else No)
  {
    var (r1, sig) := CheckShake(r, w);
    if Get(r.order.bag, HandshakeId).Truthy() && sig.Proceed? {
      SavePhase(r1.At(CheckRoles), AtPhase(CheckRoles), w.save(CheckChannelHandshakeStatus, AfterStep));
    }
  }

  /** Contract and job errors never stop a run: whatever these services report, the run goes on. */
  lemma ContractAndJobNeverBlock(step: Step, r: Run, w: World, catalogue: Catalogue)
    requires step == ContractCard || step == SWOJob
    requires InPhase(r, Get(r.order.bag, PhaseParam))
    requires !w.contract.Raises? && !w.job.Raises? && forall slot :: w.save(step, slot)
    ensures var (r', out) := Call(step, r, w, catalogue);
      && out.Continue?
      && (IsAt(r.order.bag, ProjectCreation) ==>
            IsAt(r'.server.saved.bag, if step == SWOJob then Completed else ProjectCreation))
  {
    CallMoves(step, r, Get(r.order.bag, PhaseParam), w, catalogue);
  }
}
