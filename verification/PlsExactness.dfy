/** The start value "no" of the roles flag is not only enough for Partner-Led safety: with any
    other start value there is a history that completes the order without a deployment. */
module PlsExactness {
  import opened Orders
  import opened StepSpec
  import opened Ladder
  import opened Progress
  import opened PlsSafety

  /** Everything answers, except that no deployment is ever seen to succeed. */
  const UNDEPLOYED := World(
    true, false, true, Good(()), Good(()), Good(false), Good("rt"), Good(Accepted), Good("arn"),
    Good(true), Good("rel"), Good("hs"), Good(Some(Approved)), Good(true), Good("exec"),
    ServiceError, true, true, Good(None), ServiceError, (step: Step) => Good("ticket"), true, Good(true),
    (step: Step, slot: Slot) => true)

  /** The same, with the channel handshake left pending. */
  const PENDING := UNDEPLOYED.(handshakeStatus := Good(Some(Pending)))

  const DEPLOYED := UNDEPLOYED.(deployment := Good(Succeeded))

  /** The handshake times out, but the order cannot be switched back to processing. */
  const STUCK := QueryWorld(
    true, true, Good(Requested), Good(Some(Pending)), Good(false), false, true, Good(false),
    Good("ticket"), true, true, false)

  /** Then the role check times out as well, although it never ran. */
  const RELEASED := STUCK.(switch := true)

  const BYPASS: seq<Event> := [
    PipelineRun(PENDING), QueryingPass(STUCK), QueryingPass(RELEASED), PipelineRun(UNDEPLOYED)]

  /** Only the handshake check reads the handshake status. */
  lemma SameHandshakeCall(step: Step, r: Run, catalogue: Catalogue)
    requires step != CheckChannelHandshakeStatus
    ensures Call(step, r, PENDING, catalogue) == Call(step, r, UNDEPLOYED, catalogue)
  {
    SameWork(step, r, UNDEPLOYED, PENDING, catalogue);
  }

  /** Only the onboarding check reads the deployment. */
  lemma SameDeploymentCall(step: Step, r: Run, catalogue: Catalogue)
    requires step != CheckOnboardStatus || !IsAt(r.order.bag, CheckOnboard)
    ensures Call(step, r, UNDEPLOYED, catalogue) == Call(step, r, DEPLOYED, catalogue)
  {
    if step != CheckOnboardStatus {
      SameWork(step, r, UNDEPLOYED, DEPLOYED, catalogue);
    }
  }

  lemma SameWork(step: Step, r: Run, w: World, w': World, catalogue: Catalogue)
    requires w == UNDEPLOYED && (w' == PENDING || w' == DEPLOYED)
    requires w' == PENDING ==> step != CheckChannelHandshakeStatus
    requires w' == DEPLOYED ==> step != CheckOnboardStatus
    ensures Call(step, r, w, catalogue) == Call(step, r, w', catalogue)
  {
    SamePre(step, r, w, w');
    var r1 := PreStep(step, r, w).0;
    SameProcess(step, r1, w, w', catalogue);
    var (r2, sig) := Process(step, r1, w, catalogue);
    SameAfter(step, r2, sig, w, w');
  }

  lemma SamePre(step: Step, r: Run, w: World, w': World)
    requires w.pmAccount == w'.pmAccount
    ensures PreStep(step, r, w) == PreStep(step, r, w')
  {
  }

  lemma SameAfter(step: Step, r: Run, sig: Signal, w: World, w': World)
    requires w.save == w'.save
    ensures AfterWork(step, r, sig, w) == AfterWork(step, r, sig, w')
  {
  }

  lemma SameProcess(step: Step, r: Run, w: World, w': World, catalogue: Catalogue)
    requires w == UNDEPLOYED && (w' == PENDING || w' == DEPLOYED)
    requires w' == PENDING ==> step != CheckChannelHandshakeStatus
    requires w' == DEPLOYED ==> step != CheckOnboardStatus
    ensures Process(step, r, w, catalogue) == Process(step, r, w', catalogue)
  {
    match step
    case SetupContext =>
    case ValidateOrder =>
    case TicketNewAccount =>
    case CreateNewAWSEnvironment =>
    case CreateBillingTransferInvitation =>
    case CheckBillingTransferInvitation =>
    case ConfigureAPNProgram =>
    case CreateChannelHandshake =>
    case CheckChannelHandshakeStatus =>
    case CheckCustomerRoles =>
    case TicketOrderFail =>
    case OnboardServicesStep =>
    case CheckOnboardStatus =>
    case CreateSubscriptionStep =>
    case ContractCard =>
    case SWOJob =>
    case TicketPLS =>
    case TicketOnboardServices =>
    case CompleteOrder =>
  }

  lemma Unseen(step: Step, r: Run, w: World, catalogue: Catalogue)
    requires step != SetupContext && (w == UNDEPLOYED || w == PENDING)
    ensures Call(step, r, w, catalogue).0.Hist().succeededSeen == r.Hist().succeededSeen
  {
    var (r1, pre) := PreStep(step, r, w);
    PreUnseen(step, r, w);
    if pre.AlreadyProcessed? {
      SaveUnseen(r1, w.save(step, OnSkip));
    } else if pre.Proceed? {
      WorkUnseen(step, r1, w, catalogue);
      var (r2, sig) := Process(step, r1, w, catalogue);
      AfterUnseen(step, r2, sig, w);
    }
  }

  lemma AfterUnseen(step: Step, r: Run, sig: Signal, w: World)
    requires step != SetupContext
    ensures AfterWork(step, r, sig, w).0.Hist().succeededSeen == r.Hist().succeededSeen
  {
    if sig.Proceed? {
      PostUnseen(step, r, w);
    } else if sig.QueryOrder? || sig.FailOrder? {
      SaveUnseen(r, w.save(step, Switch));
    }
  }

  lemma PreUnseen(step: Step, r: Run, w: World)
    ensures PreStep(step, r, w).0.Hist() == r.Hist()
  {
    match step
    case SetupContext =>
    case ValidateOrder =>
    case TicketNewAccount =>
    case CreateNewAWSEnvironment =>
    case CreateBillingTransferInvitation =>
    case CheckBillingTransferInvitation =>
    case ConfigureAPNProgram =>
    case CreateChannelHandshake =>
    case CheckChannelHandshakeStatus =>
    case CheckCustomerRoles =>
    case TicketOrderFail =>
    case OnboardServicesStep =>
    case CheckOnboardStatus =>
    case CreateSubscriptionStep =>
    case ContractCard =>
    case SWOJob =>
    case TicketPLS =>
    case TicketOnboardServices =>
    case CompleteOrder =>
  }

  lemma PostUnseen(step: Step, r: Run, w: World)
    requires step != SetupContext
    ensures PostStep(step, r, w).0.Hist().succeededSeen == r.Hist().succeededSeen
  {
    SaveUnseen(if NextPhase(step).Some? then r.At(NextPhase(step).value) else r, w.save(step, AfterStep));
  }

  lemma SaveUnseen(r: Run, ok: bool)
    ensures Save(r, ok).0.Hist().succeededSeen == r.Hist().succeededSeen
  {
  }

  lemma WorkUnseen(step: Step, r: Run, w: World, catalogue: Catalogue)
    requires step != SetupContext && (w == UNDEPLOYED || w == PENDING)
    ensures Process(step, r, w, catalogue).0.Hist().succeededSeen == r.Hist().succeededSeen
  {
    if PlainQuiet(step) {
      PlainWorkHolds(step, r, Get(r.order.bag, RolesDeployed), FailTickets(r.server), w, catalogue);
    } else {
      match step
      case TicketNewAccount => TicketUnseen(r, NewAccountTicket, w.ticket(step));
      case TicketOrderFail => TicketUnseen(r, OrderFailedTicket, w.ticket(step));
      case TicketPLS => TicketUnseen(r, PlsTicket, w.ticket(step));
      case TicketOnboardServices => TicketUnseen(r, OnboardTicket, w.ticket(step));
      case CheckCustomerRoles =>
      case OnboardServicesStep =>
      case CheckOnboardStatus =>
      case CompleteOrder =>
    }
  }

  lemma TicketUnseen(r: Run, p: Param, answer: Answer<string>)
    ensures OpenTicket(r, p, answer).0.Hist().succeededSeen == r.Hist().succeededSeen
  {
    assert r.Made(p).Hist().succeededSeen == r.Hist().succeededSeen;
    match answer
    case ServiceError =>
    case Raises =>
    case Good(id) =>
      if id != "" {
        assert r.Made(p).With(p, Text(id)).Hist() == r.Made(p).Hist();
      } else {
        var h := r.Made(p).Hist();
        assert h.(lost := Bump(h.lost, p), anonymous := Bump(h.anonymous, p)).succeededSeen == h.succeededSeen;
      }
  }

  predicate Early(step: Step) {
    step == ValidateOrder || step == TicketNewAccount || step == CreateNewAWSEnvironment
    || step == CreateBillingTransferInvitation || step == CheckBillingTransferInvitation
    || step == ConfigureAPNProgram || step == CreateChannelHandshake
  }

  /** A run on its way to the channel handshake, without any deployment seen. */
  ghost predicate OnTheWay(r: Run, f: Value) {
    && Going(r) && ReadyRun(r)
    && Rank(r.order.bag) <= PhaseRank(CheckHandshake)
    && Get(r.order.bag, RolesDeployed) == f && Get(r.server.saved.bag, RolesDeployed) == f
    && !r.Hist().succeededSeen
  }

  /** An order stored in `phase`, with the roles flag `f` and no deployment seen. */
  ghost predicate Stored(t: Server, status: Status, phase: Phase, f: Value) {
    && HasAll(t.saved.bag)
    && IsAt(t.saved.bag, phase)
    && t.status == status
    && Get(t.saved.bag, RolesDeployed) == f
    && !t.hist.succeededSeen
  }

  lemma EarlyStep(step: Step, next: Step, r: Run, f: Value, catalogue: Catalogue)
    requires Early(step) && Successor(step, r.server.newAccount) == Some(next)
    requires OnTheWay(r, f) && Arrives(step, r, PENDING)
    ensures var (r1, out) := Call(step, r, PENDING, catalogue);
      out.Continue? && OnTheWay(r1, f) && Arrives(next, r1, PENDING)
  {
    EarlyContinues(step, r, f, catalogue);
    StepAdvances(step, next, r, PENDING, catalogue);
    CallMoves(step, r, Get(r.order.bag, PhaseParam), PENDING, catalogue);
    CallHolds(step, r, Get(r.order.bag, PhaseParam), f, FailTickets(r.server), PENDING, catalogue);
    Unseen(step, r, PENDING, catalogue);
    EarlyStays(step, r, f, Call(step, r, PENDING, catalogue));
  }

  lemma EarlyContinues(step: Step, r: Run, f: Value, catalogue: Catalogue)
    requires Early(step) && OnTheWay(r, f)
    ensures var (r1, out) := Call(step, r, PENDING, catalogue);
      out.Continue? && Going(r1) && ReadyRun(r1)
  {
    SameHandshakeCall(step, r, catalogue);
    SameDeploymentCall(step, r, catalogue);
    CoopStep(step, r, DEPLOYED, catalogue);
  }

  lemma EarlyStays(step: Step, r: Run, f: Value, c: (Run, Outcome))
    requires Early(step) && OnTheWay(r, f) && c.1.Continue? && Going(c.0) && ReadyRun(c.0)
    requires Moved(step, r, PENDING, c) && Steady(r, f, FailTickets(r.server), c)
    requires c.0.Hist().succeededSeen == r.Hist().succeededSeen
    ensures OnTheWay(c.0, f)
  {
  }

  lemma PendingQueries(r: Run, f: Value, catalogue: Catalogue)
    requires OnTheWay(r, f) && Arrives(CheckChannelHandshakeStatus, r, PENDING)
    ensures var (r1, out) := Call(CheckChannelHandshakeStatus, r, PENDING, catalogue);
      out == Halt && Stored(r1.server, Querying, CheckHandshake, f)
  {
    assert IsAt(r.order.bag, CheckHandshake);
  }

  lemma {:induction false} WalkToHandshake(steps: seq<Step>, r: Run, f: Value, catalogue: Catalogue)
    requires Chain(steps, r.server.newAccount)
    requires Early(steps[0]) || steps[0] == CheckChannelHandshakeStatus
    requires OnTheWay(r, f) && Arrives(steps[0], r, PENDING)
    ensures Stored(RunSteps(steps, r, PENDING, catalogue).0.server, Querying, CheckHandshake, f)
    decreases |steps|
  {
    if steps[0] == CheckChannelHandshakeStatus {
      PendingQueries(r, f, catalogue);
    } else {
      EarlyStep(steps[0], steps[1], r, f, catalogue);
      WalkToHandshake(steps[1..], Call(steps[0], r, PENDING, catalogue).0, f, catalogue);
    }
  }

  /** The flag a run works with is the start value. */
  lemma SetupRoles(s: Server, w: World, catalogue: Catalogue)
    requires FlagsOnly(catalogue) && HasAll(s.saved.bag) && PhaseFits(s)
    ensures var (r, out) := Call(SetupContext, Begin(s), w, catalogue);
      && r.Hist().succeededSeen == s.hist.succeededSeen
      && (out.Continue? ==>
            && Get(r.order.bag, RolesDeployed) == StartRoles(s, catalogue)
            && Get(r.server.saved.bag, RolesDeployed) == StartRoles(s, catalogue)
            && Get(r.order.bag, TransferId) == Get(s.saved.bag, TransferId)
            && r.order.mpa == Strip(s.saved.mpa))
  {
    DefaultsTouchFlagsOnly(s.saved.bag, catalogue, PhaseParam);
    DefaultsTouchFlagsOnly(s.saved.bag, catalogue, TransferId);
  }

  /** An order near its start, with an account, from which no role check has been made. */
  ghost predicate Startable(s: Server, catalogue: Catalogue) {
    && HasAll(s.saved.bag) && PhaseFits(s)
    && s.pls && s.status == Processing
    && Rank(s.saved.bag) <= PhaseRank(CreateInvitation)
    && !s.hist.succeededSeen
    && StartRoles(s, catalogue) != No
  }

  lemma FirstRun(s: Server, catalogue: Catalogue)
    requires FlagsOnly(catalogue) && Startable(s, catalogue) && Strip(s.saved.mpa) != NoAccount
    ensures Stored(RunPipeline(s, PENDING, catalogue).0.server, Querying, CheckHandshake, StartRoles(s, catalogue))
  {
    var steps := Pipeline(s.newAccount);
    PipelineIsChain(s.newAccount);
    FirstSetup(s, catalogue);
    WalkToHandshake(steps[1..], Call(SetupContext, Begin(s), PENDING, catalogue).0, StartRoles(s, catalogue), catalogue);
  }

  lemma FirstSetup(s: Server, catalogue: Catalogue)
    requires FlagsOnly(catalogue) && Startable(s, catalogue) && Strip(s.saved.mpa) != NoAccount
    ensures var (r1, out) := Call(SetupContext, Begin(s), PENDING, catalogue);
      out.Continue? && OnTheWay(r1, StartRoles(s, catalogue)) && Arrives(ValidateOrder, r1, PENDING)
  {
    SameHandshakeCall(SetupContext, Begin(s), catalogue);
    SameDeploymentCall(SetupContext, Begin(s), catalogue);
    SetupMoves(Begin(s), PENDING, catalogue);
    CoopSetup(s, DEPLOYED, catalogue);
    SetupRoles(s, PENDING, catalogue);
  }

  lemma LateStep(step: Step, r: Run, catalogue: Catalogue)
    requires step != SetupContext && Rank(r.order.bag) >= PhaseRank(CreateSubscription)
    ensures Call(step, r, UNDEPLOYED, catalogue) == Call(step, r, DEPLOYED, catalogue)
    ensures Call(step, r, UNDEPLOYED, catalogue).0.Hist().succeededSeen == r.Hist().succeededSeen
  {
    SameDeploymentCall(step, r, catalogue);
    Unseen(step, r, UNDEPLOYED, catalogue);
  }

  /** Beyond the onboarding nobody asks for the deployment any more. */
  lemma {:induction false} SameRun(steps: seq<Step>, r: Run, catalogue: Catalogue)
    requires Chain(steps, r.server.newAccount) && steps[0] != SetupContext
    requires Arrives(steps[0], r, DEPLOYED) && Rank(r.order.bag) >= PhaseRank(CreateSubscription)
    ensures RunSteps(steps, r, UNDEPLOYED, catalogue) == RunSteps(steps, r, DEPLOYED, catalogue)
    ensures RunSteps(steps, r, UNDEPLOYED, catalogue).0.Hist().succeededSeen == r.Hist().succeededSeen
    decreases |steps|
  {
    var (r1, out) := Call(steps[0], r, UNDEPLOYED, catalogue);
    LateStep(steps[0], r, catalogue);
    if |steps| == 1 {
      assert RunSteps(steps[1..], r1, UNDEPLOYED, catalogue) == (r1, Continue);
      assert RunSteps(steps[1..], r1, DEPLOYED, catalogue) == (r1, Continue);
    } else {
      StepAdvances(steps[0], steps[1], r, DEPLOYED, catalogue);
      if out.Continue? {
        SameRun(steps[1..], r1, catalogue);
      }
    }
  }

  lemma LastRun(s: Server, f: Value, catalogue: Catalogue)
    requires FlagsOnly(catalogue)
    requires Stored(s, Processing, CreateSubscription, f) && f != No
    ensures var t := RunPipeline(s, UNDEPLOYED, catalogue).0.server;
      t.status == Done && !t.hist.succeededSeen
  {
    CooperativeRunCompletes(s, DEPLOYED, catalogue);
    SameLastRun(s, f, catalogue);
  }

  lemma SameLastRun(s: Server, f: Value, catalogue: Catalogue)
    requires FlagsOnly(catalogue)
    requires Stored(s, Processing, CreateSubscription, f)
    ensures RunPipeline(s, UNDEPLOYED, catalogue) == RunPipeline(s, DEPLOYED, catalogue)
    ensures !RunPipeline(s, UNDEPLOYED, catalogue).0.server.hist.succeededSeen
  {
    var steps := Pipeline(s.newAccount);
    PipelineIsChain(s.newAccount);
    SameDeploymentCall(SetupContext, Begin(s), catalogue);
    SetupMoves(Begin(s), DEPLOYED, catalogue);
    SetupRoles(s, DEPLOYED, catalogue);
    var (r1, out) := Call(SetupContext, Begin(s), DEPLOYED, catalogue);
    if out.Continue? {
      assert Arrives(ValidateOrder, r1, DEPLOYED);
      SameRun(steps[1..], r1, catalogue);
    }
  }

  /** Two timeouts in a row carry the order over the role check that never ran. */
  lemma Timeouts(s: Server, f: Value)
    requires Stored(s, Querying, CheckHandshake, f)
    ensures var s1 := QueryPass(s, STUCK); Stored(QueryPass(s1, RELEASED), Processing, CreateSubscription, f)
  {
    var s1 := QueryPass(s, STUCK);
    assert Stored(s1, Querying, CheckRoles, f);
    assert Stored(s1.(saved := s1.saved.At(CreateSubscription)), Querying, CreateSubscription, f);
  }

  lemma BypassCompletes(s: Server, catalogue: Catalogue)
    requires FlagsOnly(catalogue) && Startable(s, catalogue) && Strip(s.saved.mpa) != NoAccount
    ensures !SafeNow(ApplyAll(s, BYPASS, catalogue))
  {
    var f := StartRoles(s, catalogue);
    FirstRun(s, catalogue);
    var s1 := RunPipeline(s, PENDING, catalogue).0.server;
    Timeouts(s1, f);
    var s2 := QueryPass(s1, STUCK);
    var s3 := QueryPass(s2, RELEASED);
    LastRun(s3, f, catalogue);
    assert BYPASS[..3][..2][..1][..0] == [];
    assert BYPASS[..3][..2][..1] == [PipelineRun(PENDING)];
    assert ApplyAll(s, BYPASS[..3][..2][..1], catalogue) == s1;
    assert ApplyAll(s, BYPASS[..3][..2], catalogue) == s2;
    assert ApplyAll(s, BYPASS[..3], catalogue) == s3;
  }

  /** A run of an order without account id: it ends in Querying before anything is invited. */
  ghost predicate Accountless(r: Run, f: Value) {
    && Going(r)
    && r.order.mpa == NoAccount && !Get(r.order.bag, TransferId).Truthy()
    && 1 <= Rank(r.order.bag) <= PhaseRank(CreateInvitation)
    && Get(r.order.bag, RolesDeployed) == f && Get(r.server.saved.bag, RolesDeployed) == f
    && !r.Hist().succeededSeen
  }

  lemma AccountlessStep(step: Step, r: Run, f: Value, catalogue: Catalogue)
    requires step == ValidateOrder || step == TicketNewAccount || step == CreateNewAWSEnvironment
      || step == CreateBillingTransferInvitation
    requires Accountless(r, f) && Arrives(step, r, UNDEPLOYED)
    ensures var (r1, out) := Call(step, r, UNDEPLOYED, catalogue);
      if out.Continue? then step != CreateBillingTransferInvitation && Accountless(r1, f)
      else Stored(r1.server, Querying, if IsAt(r.order.bag, CreateAccount) then CreateAccount else CreateInvitation, f)
  {
  }

  lemma {:induction false} WalkToAccount(steps: seq<Step>, r: Run, f: Value, catalogue: Catalogue)
    requires Chain(steps, r.server.newAccount)
    requires steps[0] == ValidateOrder || steps[0] == TicketNewAccount || steps[0] == CreateNewAWSEnvironment
      || steps[0] == CreateBillingTransferInvitation
    requires Accountless(r, f) && Arrives(steps[0], r, UNDEPLOYED)
    ensures var t := RunSteps(steps, r, UNDEPLOYED, catalogue).0.server;
      && PhaseFits(t)
      && (Stored(t, Querying, CreateAccount, f) || Stored(t, Querying, CreateInvitation, f))
    decreases |steps|
  {
    AccountlessStep(steps[0], r, f, catalogue);
    StepAdvances(steps[0], steps[1], r, UNDEPLOYED, catalogue);
    var (r1, out) := Call(steps[0], r, UNDEPLOYED, catalogue);
    if out.Continue? {
      WalkToAccount(steps[1..], r1, f, catalogue);
    }
  }

  const ACCOUNT_LATER: seq<Event> :=
    [PipelineRun(UNDEPLOYED), EditAccount(Account("1", false)), ResumeByHand]

  lemma AccountlessRun(s: Server, catalogue: Catalogue)
    requires FlagsOnly(catalogue) && Startable(s, catalogue) && Fresh(s)
    requires Strip(s.saved.mpa) == NoAccount
    ensures var t := RunPipeline(s, UNDEPLOYED, catalogue).0.server;
      && PhaseFits(t)
      && (Stored(t, Querying, CreateAccount, StartRoles(s, catalogue))
          || Stored(t, Querying, CreateInvitation, StartRoles(s, catalogue)))
  {
    var steps := Pipeline(s.newAccount);
    PipelineIsChain(s.newAccount);
    AccountlessSetup(s, catalogue);
    WalkToAccount(steps[1..], Call(SetupContext, Begin(s), UNDEPLOYED, catalogue).0, StartRoles(s, catalogue), catalogue);
  }

  lemma AccountlessSetup(s: Server, catalogue: Catalogue)
    requires FlagsOnly(catalogue) && Startable(s, catalogue) && Fresh(s)
    requires Strip(s.saved.mpa) == NoAccount
    ensures var (r1, out) := Call(SetupContext, Begin(s), UNDEPLOYED, catalogue);
      out.Continue? && Accountless(r1, StartRoles(s, catalogue)) && Arrives(ValidateOrder, r1, UNDEPLOYED)
      && r1.server.newAccount == s.newAccount
  {
    SameDeploymentCall(SetupContext, Begin(s), catalogue);
    SetupMoves(Begin(s), UNDEPLOYED, catalogue);
    CoopSetup(s, DEPLOYED, catalogue);
    SetupRoles(s, UNDEPLOYED, catalogue);
    assert Tracked(TransferId);
  }

  /** The customer adds the missing account while the order is queried. */
  lemma AccountAdded(s: Server, catalogue: Catalogue)
    requires FlagsOnly(catalogue) && Startable(s, catalogue) && Fresh(s)
    requires Strip(s.saved.mpa) == NoAccount
    ensures var t := ApplyAll(s, ACCOUNT_LATER, catalogue);
      Startable(t, catalogue) && Strip(t.saved.mpa) != NoAccount
  {
    var t := RunPipeline(s, UNDEPLOYED, catalogue).0.server;
    AccountlessRun(s, catalogue);
    ThreeEvents(s, ACCOUNT_LATER, catalogue);
    assert Apply(s, ACCOUNT_LATER[0], catalogue) == t;
    var u := t.(saved := t.saved.(mpa := Account("1", false)), status := Processing);
    assert ApplyAll(s, ACCOUNT_LATER, catalogue) == u;
  }

  lemma ThreeEvents(s: Server, events: seq<Event>, catalogue: Catalogue)
    requires |events| == 3
    ensures ApplyAll(s, events, catalogue)
         == Apply(Apply(Apply(s, events[0], catalogue), events[1], catalogue), events[2], catalogue)
  {
    var two := events[..2];
    assert two[..1][..0] == [];
    assert two[..1][0] == events[0] && two[1] == events[1];
    assert ApplyAll(s, two[..1], catalogue) == Apply(s, events[0], catalogue);
    assert ApplyAll(s, two, catalogue) == Apply(Apply(s, events[0], catalogue), events[1], catalogue);
  }

  lemma {:induction false} ApplyInTurn(s: Server, first: seq<Event>, second: seq<Event>, catalogue: Catalogue)
    ensures ApplyAll(s, first + second, catalogue) == ApplyAll(ApplyAll(s, first, catalogue), second, catalogue)
  {
    if second == [] {
      assert first + second == first;
    } else {
      var events := first + second;
      assert events[..|events| - 1] == first + second[..|second| - 1];
      ApplyInTurn(s, first, second[..|second| - 1], catalogue);
    }
  }

  /** A new Partner-Led order is safe in every history exactly when its roles flag starts as "no". */
  lemma PlsSafetyExact(s: Server, catalogue: Catalogue)
    requires FlagsOnly(catalogue)
    requires Fresh(s) && s.pls
    ensures (forall events :: SafeNow(ApplyAll(s, events, catalogue))) <==> StartRoles(s, catalogue) == No
  {
    if StartRoles(s, catalogue) == No {
      forall events
        ensures SafeNow(ApplyAll(s, events, catalogue))
      {
        SafeFromNo(s, events, catalogue);
      }
    } else if Strip(s.saved.mpa) != NoAccount {
      FreshFits(s);
      BypassCompletes(s, catalogue);
    } else {
      FreshFits(s);
      AccountAdded(s, catalogue);
      BypassCompletes(ApplyAll(s, ACCOUNT_LATER, catalogue), catalogue);
      ApplyInTurn(s, ACCOUNT_LATER, BYPASS, catalogue);
    }
  }
}
