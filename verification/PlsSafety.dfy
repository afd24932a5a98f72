/** Partner-Led Support: the order is completed only after the customer's roles and the
    deployment were seen in place, whatever the timeouts do. */
module PlsSafety {
  import opened Orders
  import opened StepSpec
  import opened Ladder
  import opened Progress

  /** What a phase says about the roles flag of a Partner-Led order; strictly, when the flag
      started as "no", also about its deployment. */
  predicate Gate(strict: bool, k: nat, roles: Value, succeeded: bool) {
    && (8 <= k <= 9 ==> roles == Yes)
    && (k >= 11 ==> roles != No)
    && (strict && 1 <= k <= 7 ==> roles == No)
    && (strict && k == 10 ==> roles == No || (roles == Yes && succeeded))
    && (strict && k >= 11 ==> roles == Yes && succeeded)
  }

  function FailTickets(s: Server): nat {
    Count(s.hist.created, OrderFailedTicket)
  }

  /** Order-failed tickets exist only for refused Partner-Led orders, which stay where they are. */
  predicate Guarded(strict: bool, s: Server) {
    && (s.pls ==> Gate(strict, Rank(s.saved.bag), Get(s.saved.bag, RolesDeployed), s.hist.succeededSeen))
    && (FailTickets(s) > 0 ==>
          s.pls && IsAt(s.saved.bag, CreateSubscription) && Get(s.saved.bag, RolesDeployed) == No)
  }

  /** Phase, roles flag and number of order-failed tickets of a run between two steps. */
  ghost predicate Holds(r: Run, v: Value, f: Value, n: nat) {
    && InPhase(r, v)
    && Get(r.order.bag, RolesDeployed) == f
    && Get(r.server.saved.bag, RolesDeployed) == f
    && FailTickets(r.server) == n
  }

  predicate Quiet(step: Step) {
    step != SetupContext && step != CheckCustomerRoles && step != TicketOrderFail
  }

  /** Steps other than the role check and the ticket leave flag and tickets alone. */
  lemma ProcessHolds(step: Step, r: Run, v: Value, f: Value, n: nat, w: World, catalogue: Catalogue)
    requires Quiet(step) && Holds(r, v, f, n)
    ensures Holds(Process(step, r, w, catalogue).0, v, f, n)
    ensures r.Hist().succeededSeen ==> Process(step, r, w, catalogue).0.Hist().succeededSeen
  {
    match step
    case OnboardServicesStep => OnboardHolds(r, v, f, n, w);
    case CheckOnboardStatus => DeploymentHolds(r, v, f, n, w);
    case TicketNewAccount => TicketHolds(r, v, f, n, NewAccountTicket, w.ticket(step));
    case TicketPLS => TicketHolds(r, v, f, n, PlsTicket, w.ticket(step));
    case TicketOnboardServices => TicketHolds(r, v, f, n, OnboardTicket, w.ticket(step));
    case CompleteOrder => FinishHolds(r, v, f, n, w);
    case _ =>
      ProcessPhase(step, r, v, w, catalogue);
      PlainWorkHolds(step, r, f, n, w, catalogue);
  }

  lemma FinishHolds(r: Run, v: Value, f: Value, n: nat, w: World)
    requires Holds(r, v, f, n)
    ensures Holds(Finish(r, w).0, v, f, n)
    ensures Finish(r, w).0.Hist().succeededSeen == r.Hist().succeededSeen
  {
    SaveHolds(r, w.save(CompleteOrder, Switch));
  }

  predicate PlainQuiet(step: Step) {
    Quiet(step) && step != OnboardServicesStep && step != CheckOnboardStatus && step != CompleteOrder
    && step != TicketNewAccount && step != TicketPLS && step != TicketOnboardServices
  }

  /** The work that neither saves nor opens tickets. */
  lemma PlainWorkHolds(step: Step, r: Run, f: Value, n: nat, w: World, catalogue: Catalogue)
    requires PlainQuiet(step)
    requires Get(r.order.bag, RolesDeployed) == f && FailTickets(r.server) == n
    ensures var r' := Process(step, r, w, catalogue).0;
      && Get(r'.order.bag, RolesDeployed) == f && r'.server.saved == r.server.saved && FailTickets(r'.server) == n
      && r'.Hist().succeededSeen == r.Hist().succeededSeen
  {
    match step
    case ValidateOrder =>
    case CreateNewAWSEnvironment =>
    case CreateSubscriptionStep =>
    case ContractCard =>
    case SWOJob =>
    case _ => PartnerWorkHolds(step, r, w, catalogue);
  }

  /** The transfer, the programme and the handshake concern neither flag nor tickets. */
  lemma PartnerWorkHolds(step: Step, r: Run, w: World, catalogue: Catalogue)
    requires step == CreateBillingTransferInvitation || step == CheckBillingTransferInvitation
      || step == ConfigureAPNProgram || step == CreateChannelHandshake || step == CheckChannelHandshakeStatus
    ensures var r' := Process(step, r, w, catalogue).0;
      && Get(r'.order.bag, RolesDeployed) == Get(r.order.bag, RolesDeployed)
      && r'.server.saved == r.server.saved && FailTickets(r'.server) == FailTickets(r.server)
      && r'.Hist().succeededSeen == r.Hist().succeededSeen
  {
    match step
    case CreateBillingTransferInvitation =>
    case CheckBillingTransferInvitation =>
    case ConfigureAPNProgram =>
    case CreateChannelHandshake =>
    case CheckChannelHandshakeStatus =>
  }

  lemma HandleErrorHolds(r: Run, v: Value, f: Value, n: nat, step: Step, w: World)
    requires Holds(r, v, f, n)
    ensures Holds(HandleError(r, step, w).0, v, f, n)
    ensures HandleError(r, step, w).0.Hist().succeededSeen == r.Hist().succeededSeen
    ensures r.server.pls ==> !HandleError(r, step, w).1.Proceed?
  {
    if Get(r.order.bag, ErrorNotified) != Yes && !r.server.mailed {
      var r1 := r.With(ErrorNotified, Yes);
      assert Get(r1.order.bag, RolesDeployed) == f;
      SaveHolds(r1, w.save(step, InHandler));
    }
  }

  lemma OnboardHolds(r: Run, v: Value, f: Value, n: nat, w: World)
    requires Holds(r, v, f, n)
    ensures Holds(Onboard(r, w).0, v, f, n)
    ensures Onboard(r, w).0.Hist().succeededSeen == r.Hist().succeededSeen
  {
    if w.onboard.Good? && w.onboard.value != "" {
      SaveHolds(r.With(ExecutionArn, Text(w.onboard.value)), w.save(OnboardServicesStep, InStep));
    } else {
      HandleErrorHolds(r, v, f, n, OnboardServicesStep, w);
    }
  }

  /** An order under Partner-Led Support leaves the deployment check only after a success. */
  lemma DeploymentHolds(r: Run, v: Value, f: Value, n: nat, w: World)
    requires Holds(r, v, f, n)
    ensures var (r1, sig) := CheckDeployment(r, w);
      && Holds(r1, v, f, n)
      && (r.Hist().succeededSeen ==> r1.Hist().succeededSeen)
      && (r.server.pls && sig.Proceed? && !r1.stillRunning ==> r1.Hist().succeededSeen)
  {
    HandleErrorHolds(r.(stillRunning := false), v, f, n, CheckOnboardStatus, w);
  }

  lemma TicketHolds(r: Run, v: Value, f: Value, n: nat, p: Param, answer: Answer<string>)
    requires Holds(r, v, f, n) && p != PhaseParam && p != RolesDeployed && p != OrderFailedTicket
    ensures Holds(OpenTicket(r, p, answer).0, v, f, n)
    ensures OpenTicket(r, p, answer).0.Hist().succeededSeen == r.Hist().succeededSeen
  {
    match answer
    case Good(id) =>
      if id != "" {
      } else {
      }
    case _ =>
  }

  lemma SaveHolds(r: Run, ok: bool)
    ensures FailTickets(Save(r, ok).0.server) == FailTickets(r.server)
    ensures Save(r, ok).0.Hist().succeededSeen == r.Hist().succeededSeen
    ensures Get(Save(r, ok).0.server.saved.bag, RolesDeployed) ==
      Get(if ok then r.order.bag else r.server.saved.bag, RolesDeployed)
  {
  }

  lemma PostHolds(step: Step, r: Run, v: Value, f: Value, n: nat, w: World)
    requires step != SetupContext && Holds(r, v, f, n)
    ensures var (r', sig) := PostStep(step, r, w);
      && Get(r'.server.saved.bag, RolesDeployed) == f
      && FailTickets(r'.server) == n
      && r'.Hist().succeededSeen == r.Hist().succeededSeen
      && Get(r'.order.bag, RolesDeployed) == f
  {
    SaveHolds(if NextPhase(step).Some? then r.At(NextPhase(step).value) else r, w.save(step, AfterStep));
  }

  /** Flag and tickets after a call, and what it saw. */
  ghost predicate Steady(r: Run, f: Value, n: nat, c: (Run, Outcome)) {
    && Get(c.0.server.saved.bag, RolesDeployed) == f
    && FailTickets(c.0.server) == n
    && (r.Hist().succeededSeen ==> c.0.Hist().succeededSeen)
    && (c.1.Continue? ==> Get(c.0.order.bag, RolesDeployed) == f)
  }

  /** A quiet step keeps flag and tickets, whatever becomes of the run. */
  lemma CallHolds(step: Step, r: Run, v: Value, f: Value, n: nat, w: World, catalogue: Catalogue)
    requires Quiet(step) && Holds(r, v, f, n)
    ensures Steady(r, f, n, Call(step, r, w, catalogue))
  {
    var (r1, sig) := PreStep(step, r, w);
    if sig.Proceed? {
      WorkHolds(step, r, v, f, n, w, catalogue);
    } else if sig.AlreadyProcessed? {
      SaveHolds(r1, w.save(step, OnSkip));
    }
  }

  lemma WorkHolds(step: Step, r: Run, v: Value, f: Value, n: nat, w: World, catalogue: Catalogue)
    requires Quiet(step) && Holds(r, v, f, n) && PreStep(step, r, w).1.Proceed?
    ensures Steady(r, f, n, Call(step, r, w, catalogue))
  {
    PreProceeds(step, r, w);
    ProcessHolds(step, r, v, f, n, w, catalogue);
    var (r1, sig) := Process(step, r, w, catalogue);
    AfterHolds(step, r1, sig, v, f, n, w);
  }

  lemma AfterHolds(step: Step, r: Run, sig: Signal, v: Value, f: Value, n: nat, w: World)
    requires step != SetupContext && Holds(r, v, f, n)
    ensures Steady(r, f, n, AfterWork(step, r, sig, w))
  {
    if sig.Proceed? {
      PostHolds(step, r, v, f, n, w);
    } else if sig.QueryOrder? || sig.FailOrder? {
      SaveHolds(r, w.save(step, Switch));
    }
  }

  /** A guarded run between two steps. */
  ghost predicate Secure(strict: bool, r: Run) {
    && InPhase(r, Get(r.order.bag, PhaseParam))
    && Get(r.order.bag, RolesDeployed) == Get(r.server.saved.bag, RolesDeployed)
    && Guarded(strict, r.server)
  }

  ghost predicate Secured(strict: bool, c: (Run, Outcome)) {
    Guarded(strict, c.0.server) && (c.1.Continue? ==> Secure(strict, c.0))
  }

  lemma DeploymentCallSees(strict: bool, r: Run, w: World, catalogue: Catalogue)
    requires Secure(strict, r) && r.server.pls
    ensures var r' := Call(CheckOnboardStatus, r, w, catalogue).0;
      Get(r'.server.saved.bag, PhaseParam) != Get(r.server.saved.bag, PhaseParam) ==> r'.Hist().succeededSeen
  {
    var v, f, n := Get(r.order.bag, PhaseParam), Get(r.order.bag, RolesDeployed), FailTickets(r.server);
    if PreStep(CheckOnboardStatus, r, w).1.Proceed? {
      var (r1, sig) := CheckDeployment(r, w);
      DeploymentHolds(r, v, f, n, w);
      DeploymentSignals(r, w);
      if sig.Proceed? {
        PostHolds(CheckOnboardStatus, r1, v, f, n, w);
        PostMoves(CheckOnboardStatus, r1, v, w);
      }
    }
  }

  lemma DeploymentSignals(r: Run, w: World)
    ensures var sig := CheckDeployment(r, w).1;
      sig == Proceed || sig == UnexpectedStop || sig == Crash
  {
  }

  lemma SubscribeCallRefuses(strict: bool, r: Run, w: World, catalogue: Catalogue)
    requires Secure(strict, r) && RolesRefused(r)
    ensures var c := Call(CreateSubscriptionStep, r, w, catalogue);
      c.0 == r && (c.1.Continue? ==> !IsAt(r.order.bag, CreateSubscription))
  {
  }

  lemma QuietSecures(strict: bool, step: Step, r: Run, w: World, catalogue: Catalogue)
    requires Quiet(step) && Secure(strict, r)
    ensures Secured(strict, Call(step, r, w, catalogue))
  {
    var c := Call(step, r, w, catalogue);
    CallMoves(step, r, Get(r.order.bag, PhaseParam), w, catalogue);
    CallHolds(step, r, Get(r.order.bag, PhaseParam), Get(r.order.bag, RolesDeployed), FailTickets(r.server), w, catalogue);
    if step == CheckOnboardStatus && r.server.pls {
      DeploymentCallSees(strict, r, w, catalogue);
    }
    if step == CreateSubscriptionStep && RolesRefused(r) {
      SubscribeCallRefuses(strict, r, w, catalogue);
    }
    GateMoves(strict, step, r, w, c);
  }

  /** The gate in terms of ranks: what a quiet step may do to the phase keeps it. */
  lemma GateKept(strict: bool, step: Step, k: nat, k': nat, roles: Value, seen: bool, seen': bool)
    requires Quiet(step) && RankMoves(step, k, k') && Gate(strict, k, roles, seen) && (seen ==> seen')
    requires step == CheckOnboardStatus && k' != k ==> seen'
    requires step == CreateSubscriptionStep && roles == No ==> k' == k
    ensures Gate(strict, k', roles, seen')
  {
    match step
    case ValidateOrder =>
    case TicketNewAccount =>
    case CreateNewAWSEnvironment =>
    case CreateBillingTransferInvitation =>
    case CheckBillingTransferInvitation =>
    case ConfigureAPNProgram =>
    case CreateChannelHandshake =>
    case CheckChannelHandshakeStatus =>
    case OnboardServicesStep =>
    case CheckOnboardStatus =>
    case CreateSubscriptionStep =>
    case ContractCard =>
    case SWOJob =>
    case TicketPLS =>
    case TicketOnboardServices =>
    case CompleteOrder =>
  }

  lemma GateMoves(strict: bool, step: Step, r: Run, w: World, c: (Run, Outcome))
    requires Quiet(step) && Secure(strict, r) && SameKind(r, c.0)
    requires Moved(step, r, w, c)
    requires Steady(r, Get(r.order.bag, RolesDeployed), FailTickets(r.server), c)
    requires step == CheckOnboardStatus && r.server.pls ==>
      Get(c.0.server.saved.bag, PhaseParam) == Get(r.server.saved.bag, PhaseParam) || c.0.Hist().succeededSeen
    requires step == CreateSubscriptionStep && RolesRefused(r) ==> c.0 == r
    ensures Secured(strict, c)
  {
    var k, k' := Rank(r.order.bag), Rank(c.0.server.saved.bag);
    MovedRanks(step, r, w, c);
    RankOfSame(r.server.saved.bag, c.0.server.saved.bag);
    if r.server.pls {
      GateKept(strict, step, k, k', Get(r.order.bag, RolesDeployed), r.Hist().succeededSeen, c.0.Hist().succeededSeen);
    }
    if FailTickets(r.server) > 0 {
      PhaseOfRank(r.server.saved.bag, CreateSubscription);
      PhaseOfRank(c.0.server.saved.bag, CreateSubscription);
      TicketStays(step, k, k');
    }
  }

  lemma RankOfSame(bag: Bag, bag': Bag)
    ensures Get(bag, PhaseParam) == Get(bag', PhaseParam) ==> Rank(bag) == Rank(bag')
  {
  }

  /** Only the subscription step moves an order away from its phase. */
  lemma TicketStays(step: Step, k: nat, k': nat)
    requires Quiet(step) && RankMoves(step, k, k') && k == PhaseRank(CreateSubscription)
    ensures step != CreateSubscriptionStep ==> k' == k
  {
    match step
    case ValidateOrder =>
    case TicketNewAccount =>
    case CreateNewAWSEnvironment =>
    case CreateBillingTransferInvitation =>
    case CheckBillingTransferInvitation =>
    case ConfigureAPNProgram =>
    case CreateChannelHandshake =>
    case CheckChannelHandshakeStatus =>
    case OnboardServicesStep =>
    case CheckOnboardStatus =>
    case CreateSubscriptionStep =>
    case ContractCard =>
    case SWOJob =>
    case TicketPLS =>
    case TicketOnboardServices =>
    case CompleteOrder =>
  }

  /** The role check sets the flag with the phase, or sets it to "no". */
  lemma RolesSecure(strict: bool, r: Run, w: World, catalogue: Catalogue)
    requires Secure(strict, r)
    ensures Secured(strict, Call(CheckCustomerRoles, r, w, catalogue))
  {
    if PreStep(CheckCustomerRoles, r, w).1.Proceed? {
      var (r1, sig) := CheckDeployedRoles(r, w);
      if sig.Proceed? {
        RolesFound(strict, r, r1, w);
      } else if sig.QueryOrder? {
        RolesMissing(strict, r, r1, w);
      }
    }
  }

  lemma RolesFound(strict: bool, r: Run, r1: Run, w: World)
    requires Secure(strict, r) && IsAt(r.order.bag, CheckRoles)
    requires r1.server == r.server && r1.order == r.order.With(RolesDeployed, Yes)
    ensures var (r2, sig) := PostStep(CheckCustomerRoles, r1, w); Secured(strict, (r2, Leave(sig, Continue)))
  {
    var r2 := r1.At(OnboardServices);
    assert Get(r2.order.bag, RolesDeployed) == Yes && IsAt(r2.order.bag, OnboardServices);
    SaveHolds(r2, w.save(CheckCustomerRoles, AfterStep));
    SavePhase(r2, AtPhase(OnboardServices), w.save(CheckCustomerRoles, AfterStep));
    assert PostStep(CheckCustomerRoles, r1, w) == Save(r2, w.save(CheckCustomerRoles, AfterStep));
    if !w.save(CheckCustomerRoles, AfterStep) {
      assert Guarded(strict, Save(r2, false).0.server);
    }
  }

  lemma RolesMissing(strict: bool, r: Run, r1: Run, w: World)
    requires Secure(strict, r) && IsAt(r.order.bag, CheckRoles)
    requires r1.server == r.server && r1.order == r.order.With(RolesDeployed, No)
    ensures Guarded(strict, SwitchStatus(r1, Querying, w.save(CheckCustomerRoles, Switch)).0.server)
  {
    assert Get(r1.order.bag, RolesDeployed) == No && IsAt(r1.order.bag, CheckRoles);
    SaveHolds(r1, w.save(CheckCustomerRoles, Switch));
    SavePhase(r1, AtPhase(CheckRoles), w.save(CheckCustomerRoles, Switch));
  }

  /** An order-failed ticket is opened only where the role check has timed out. */
  lemma FailTicketSecures(strict: bool, r: Run, w: World, catalogue: Catalogue)
    requires Secure(strict, r) && Rank(r.order.bag) >= 8
    ensures Secured(strict, Call(TicketOrderFail, r, w, catalogue))
  {
    if PreStep(TicketOrderFail, r, w).1.Proceed? {
      assert IsAt(r.order.bag, CreateSubscription);
      var (r1, sig) := OpenTicket(r, OrderFailedTicket, w.ticket(TicketOrderFail));
      assert Get(r1.order.bag, RolesDeployed) == No && IsAt(r1.order.bag, CreateSubscription);
      if sig.Proceed? {
        SaveHolds(r1, w.save(TicketOrderFail, AfterStep));
        assert PostStep(TicketOrderFail, r1, w) == Save(r1, w.save(TicketOrderFail, AfterStep));
      }
    }
  }

  lemma StepSecures(strict: bool, step: Step, r: Run, w: World, catalogue: Catalogue)
    requires step != SetupContext
    requires Secure(strict, r) && Arrives(step, r, w)
    ensures Secured(strict, Call(step, r, w, catalogue))
  {
    match step
    case CheckCustomerRoles => RolesSecure(strict, r, w, catalogue);
    case TicketOrderFail => FailTicketSecures(strict, r, w, catalogue);
    case _ => QuietSecures(strict, step, r, w, catalogue);
  }

  lemma {:induction false} RunSecures(strict: bool, steps: seq<Step>, r: Run, w: World, catalogue: Catalogue)
    requires Chain(steps, r.server.newAccount) && steps[0] != SetupContext
    requires Secure(strict, r) && Arrives(steps[0], r, w)
    ensures Guarded(strict, RunSteps(steps, r, w, catalogue).0.server)
    decreases |steps|
  {
    StepSecures(strict, steps[0], r, w, catalogue);
    var (r1, out) := Call(steps[0], r, w, catalogue);
    if |steps| == 1 {
      assert RunSteps(steps[1..], r1, w, catalogue) == (r1, Continue);
    } else {
      StepAdvances(steps[0], steps[1], r, w, catalogue);
      if out.Continue? {
        RunSecures(strict, steps[1..], r1, w, catalogue);
      }
    }
  }

  /** The roles flag a run starts from: a new order takes the default of the catalogue. */
  function StartRoles(s: Server, catalogue: Catalogue): Value {
    Get(if Rank(s.saved.bag) == 0 then ApplyDefaults(s.saved.bag, catalogue) else s.saved.bag, RolesDeployed)
  }

  ghost predicate GuardedFrom(strict: bool, s: Server, catalogue: Catalogue) {
    && PhaseFits(s)
    && Guarded(strict, s)
    && (strict && s.pls && Rank(s.saved.bag) == 0 ==> StartRoles(s, catalogue) == No)
  }

  lemma SetupSecures(strict: bool, s: Server, w: World, catalogue: Catalogue)
    requires FlagsOnly(catalogue)
    requires HasAll(s.saved.bag) && GuardedFrom(strict, s, catalogue)
    ensures var (r, out) := Call(SetupContext, Begin(s), w, catalogue);
      && GuardedFrom(strict, r.server, catalogue)
      && (out.Continue? ==> Secure(strict, r) && Rank(r.order.bag) > 0)
  {
    var (r1, sig) := Setup(Begin(s), w, catalogue);
    SetupStores(s, w, catalogue);
    DefaultsTouchFlagsOnly(s.saved.bag, catalogue, PhaseParam);
    if sig.Proceed? {
      if Rank(s.saved.bag) == 0 {
        FirstPhaseSecures(strict, s, r1, w, catalogue);
      } else {
        assert PostStep(SetupContext, r1, w) == (r1, Proceed);
      }
    } else {
      StoredGuards(strict, s, r1.server, catalogue);
    }
  }

  /** The guard reads only the stored parameters, the tickets and the deployment seen. */
  lemma StoredGuards(strict: bool, s: Server, t: Server, catalogue: Catalogue)
    requires GuardedFrom(strict, s, catalogue)
    requires t.saved == s.saved && t.pls == s.pls && t.newAccount == s.newAccount
    requires t.hist.created == s.hist.created && t.hist.succeededSeen == s.hist.succeededSeen
    ensures GuardedFrom(strict, t, catalogue)
  {
  }

  /** What the setup leaves before its phase is stored: the platform's order is what it was. */
  lemma SetupStores(s: Server, w: World, catalogue: Catalogue)
    requires Get(s.saved.bag, PhaseParam) == Unset || Get(s.saved.bag, PhaseParam).AtPhase?
    ensures var (r1, sig) := Setup(Begin(s), w, catalogue);
      && r1.server.saved == s.saved && r1.server.pls == s.pls && r1.server.newAccount == s.newAccount
      && r1.Hist().created == s.hist.created && r1.Hist().succeededSeen == s.hist.succeededSeen
      && (sig == Proceed || sig == Crash || sig == UnexpectedStop)
      && (sig == Proceed ==>
            r1.server == s && !r1.stillRunning
            && r1.order.bag == if Rank(s.saved.bag) > 0 then s.saved.bag else ApplyDefaults(s.saved.bag, catalogue))
  {
  }

  lemma FirstPhaseSecures(strict: bool, s: Server, r: Run, w: World, catalogue: Catalogue)
    requires FlagsOnly(catalogue) && HasAll(s.saved.bag) && GuardedFrom(strict, s, catalogue)
    requires Rank(s.saved.bag) == 0 && r.server == s && r.order.bag == ApplyDefaults(s.saved.bag, catalogue)
    ensures var (r', sig) := PostStep(SetupContext, r, w);
      && GuardedFrom(strict, r'.server, catalogue)
      && (sig == Proceed ==> Secure(strict, r') && Rank(r'.order.bag) > 0)
  {
    DefaultsTouchFlagsOnly(s.saved.bag, catalogue, PhaseParam);
    var first := if s.newAccount then CreateAccount else CreateInvitation;
    var r1 := r.At(first);
    assert Get(r1.order.bag, RolesDeployed) == StartRoles(s, catalogue) && IsAt(r1.order.bag, first);
    SaveHolds(r1, w.save(SetupContext, AfterStep));
    SavePhase(r1, AtPhase(first), w.save(SetupContext, AfterStep));
  }

  lemma PipelineGuards(strict: bool, s: Server, w: World, catalogue: Catalogue)
    requires FlagsOnly(catalogue)
    requires HasAll(s.saved.bag) && GuardedFrom(strict, s, catalogue)
    ensures GuardedFrom(strict, RunPipeline(s, w, catalogue).0.server, catalogue)
  {
    var steps := Pipeline(s.newAccount);
    PipelineIsChain(s.newAccount);
    SetupMoves(Begin(s), w, catalogue);
    SetupSecures(strict, s, w, catalogue);
    var (r1, out) := Call(SetupContext, Begin(s), w, catalogue);
    if out.Continue? {
      assert Arrives(ValidateOrder, r1, w);
      RunSecures(strict, steps[1..], r1, w, catalogue);
      RunAdvances(steps[1..], r1, w, catalogue);
    }
  }

  lemma JumpGuards(strict: bool, s: Server, p: Phase, q: QueryWorld, catalogue: Catalogue)
    requires HasAll(s.saved.bag) && GuardedFrom(strict, s, catalogue)
    requires (p == CheckRoles && IsAt(s.saved.bag, CheckHandshake))
      || (p == CreateSubscription && IsAt(s.saved.bag, CheckRoles))
    ensures GuardedFrom(strict, JumpTo(s, p, q), catalogue)
  {
    if q.savePhase {
      var s1 := s.(saved := s.saved.At(p));
      assert Get(s1.saved.bag, RolesDeployed) == Get(s.saved.bag, RolesDeployed);
    }
  }

  lemma PassRolesGuards(strict: bool, s: Server, q: QueryWorld, catalogue: Catalogue)
    requires HasAll(s.saved.bag) && GuardedFrom(strict, s, catalogue) && IsAt(s.saved.bag, CheckRoles)
    ensures GuardedFrom(strict, PassRoles(s, q), catalogue)
  {
    var reminded := RemindRoles(s, q);
    if reminded.Some? {
      RemindGuards(strict, s, q, catalogue);
      JumpGuards(strict, reminded.value, CreateSubscription, q, catalogue);
    }
  }

  lemma RemindGuards(strict: bool, s: Server, q: QueryWorld, catalogue: Catalogue)
    requires HasAll(s.saved.bag) && GuardedFrom(strict, s, catalogue) && IsAt(s.saved.bag, CheckRoles)
    ensures RemindRoles(s, q).Some? ==>
      var s1 := RemindRoles(s, q).value;
      HasAll(s1.saved.bag) && GuardedFrom(strict, s1, catalogue) && IsAt(s1.saved.bag, CheckRoles)
  {
  }

  lemma PassGuards(strict: bool, s: Server, q: QueryWorld, catalogue: Catalogue)
    requires HasAll(s.saved.bag) && GuardedFrom(strict, s, catalogue)
    ensures GuardedFrom(strict, QueryPass(s, q), catalogue)
  {
    if s.status == Querying {
      if IsAt(s.saved.bag, CheckHandshake) {
        JumpGuards(strict, s, CheckRoles, q, catalogue);
      } else if IsAt(s.saved.bag, CheckRoles) {
        PassRolesGuards(strict, s, q, catalogue);
      }
    }
  }

  lemma ApplyGuards(strict: bool, s: Server, e: Event, catalogue: Catalogue)
    requires FlagsOnly(catalogue)
    requires HasAll(s.saved.bag) && GuardedFrom(strict, s, catalogue)
    ensures GuardedFrom(strict, Apply(s, e, catalogue), catalogue)
  {
    match e
    case PipelineRun(w) => PipelineGuards(strict, s, w, catalogue);
    case QueryingPass(q) => PassGuards(strict, s, q, catalogue);
    case _ =>
  }

  lemma {:induction false} AllGuarded(strict: bool, s: Server, events: seq<Event>, catalogue: Catalogue)
    requires FlagsOnly(catalogue)
    requires Sound(s) && GuardedFrom(strict, s, catalogue)
    ensures GuardedFrom(strict, ApplyAll(s, events, catalogue), catalogue)
  {
    if events != [] {
      var before := events[..|events| - 1];
      AllKeep(s, before, catalogue);
      AllGuarded(strict, s, before, catalogue);
      ApplyGuards(strict, ApplyAll(s, before, catalogue), events[|events| - 1], catalogue);
    }
  }

  /** A Partner-Led order beyond the subscription has its roles and saw its deployment succeed. */
  predicate SafeNow(s: Server) {
    IsAt(s.saved.bag, ProjectCreation) || IsAt(s.saved.bag, Completed) || s.status == Done ==>
      Get(s.saved.bag, RolesDeployed) == Yes && s.hist.succeededSeen
  }

  /** Safety over every history, for an order whose roles flag starts as "no". */
  lemma SafeFromNo(s: Server, events: seq<Event>, catalogue: Catalogue)
    requires FlagsOnly(catalogue)
    requires Fresh(s) && s.pls
    requires StartRoles(s, catalogue) == No
    ensures SafeNow(ApplyAll(s, events, catalogue))
  {
    FreshIsSound(s);
    FreshFits(s);
    AllGuarded(true, s, events, catalogue);
    AllKeep(s, events, catalogue);
    RankNeverDecreases(s, events, 0, catalogue);
    GuardedIsSafe(ApplyAll(s, events, catalogue), catalogue);
  }

  lemma GuardedIsSafe(t: Server, catalogue: Catalogue)
    requires Sound(t) && t.pls && GuardedFrom(true, t, catalogue)
    ensures SafeNow(t)
  {
  }

  lemma FreshFits(s: Server)
    requires Fresh(s)
    ensures PhaseFits(s) && Rank(s.saved.bag) == 0
  {
  }

  /** The order-failed ticket, over every history: only for a Partner-Led order whose role check
      timed out, and once, unless its own identifier was lost. With every write persisted the tickets
      are exactly the stored one and those that came back without an identifier. Such an order
      never leaves its phase. */
  lemma FailTicketOnlyAfterTimeout(s: Server, events: seq<Event>, catalogue: Catalogue)
    requires FlagsOnly(catalogue)
    requires Fresh(s)
    ensures var t := ApplyAll(s, events, catalogue);
      && (FailTickets(t) > 0 ==> t.pls && IsAt(t.saved.bag, CreateSubscription)
                                 && Get(t.saved.bag, RolesDeployed) == No && t.status != Done)
      && FailTickets(t) <= 1 + t.hist.failedSaves + Count(t.hist.anonymous, OrderFailedTicket)
      && (t.hist.failedSaves == 0 ==>
            FailTickets(t) == OnRecord(t.saved.bag, OrderFailedTicket) + Count(t.hist.anonymous, OrderFailedTicket))
  {
    FreshIsSound(s);
    FreshFits(s);
    assert FailTickets(s) == 0;
    AllGuarded(false, s, events, catalogue);
    CreateOnce(s, events, catalogue, OrderFailedTicket);
  }
}
