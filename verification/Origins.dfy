/** Every identifier on an order is one that its own service gave out. */
module Origins {
  import opened Orders
  import opened StepSpec
  import opened Ladder
  import opened RunFate

  /** The parameters that hold the identifier of something outside. */
  predicate Identifier(p: Param) {
    p !in {PhaseParam, HandshakeApproved, RolesDeployed, ErrorNotified}
  }

  /** The service behind the parameter answered with this value during the run. */
  predicate Given(p: Param, w: World, v: Value) {
    match p
    case TransferId => w.invitation.Good? && v == Text(w.invitation.value)
    case BillingGroupArn => w.billingGroup.Good? && v == Text(w.billingGroup.value)
    case RelationshipId => w.relationship.Good? && v == Text(w.relationship.value)
    case HandshakeId => w.handshake.Good? && v == Text(w.handshake.value)
    case ExecutionArn => w.onboard.Good? && v == Text(w.onboard.value)
    case NewAccountTicket => w.ticket(TicketNewAccount).Good? && v == Text(w.ticket(TicketNewAccount).value)
    case OrderFailedTicket => w.ticket(TicketOrderFail).Good? && v == Text(w.ticket(TicketOrderFail).value)
    case PlsTicket => w.ticket(TicketPLS).Good? && v == Text(w.ticket(TicketPLS).value)
    case OnboardTicket => w.ticket(TicketOnboardServices).Good? && v == Text(w.ticket(TicketOnboardServices).value)
    case ContractNumber => w.contract.Good? && w.contract.value.Some? && v == Text(w.contract.value.value)
    case ErpProjectNo => w.job.Good? && v == Text(w.job.value)
    case _ => false
  }

  predicate Fits(p: Param, w: World, v0: Value, bag: Bag) {
    Get(bag, p) == v0 || Given(p, w, Get(bag, p))
  }

  /** In memory and on the platform the parameter is as at the start, or given. */
  predicate Traced(p: Param, w: World, v0: Value, r: Run) {
    Fits(p, w, v0, r.order.bag) && Fits(p, w, v0, r.server.saved.bag)
  }

  lemma SetTraced(p: Param, w: World, v0: Value, r: Run, q: Param, v: Value)
    requires Traced(p, w, v0, r) && (q == p ==> Given(p, w, v))
    ensures Traced(p, w, v0, r.With(q, v))
  {
  }

  lemma SaveTraced(p: Param, w: World, v0: Value, r: Run, ok: bool)
    requires Traced(p, w, v0, r)
    ensures Traced(p, w, v0, Save(r, ok).0)
  {
  }

  lemma HandlerTraced(p: Param, w: World, v0: Value, r: Run, step: Step)
    requires Identifier(p) && Traced(p, w, v0, r)
    ensures Traced(p, w, v0, HandleError(r, step, w).0)
  {
    SetTraced(p, w, v0, r, ErrorNotified, Yes);
    SaveTraced(p, w, v0, r.With(ErrorNotified, Yes), w.save(step, InHandler));
  }

  lemma TicketTraced(p: Param, w: World, v0: Value, r: Run, q: Param, a: Answer<string>)
    requires Traced(p, w, v0, r) && (q == p && a.Good? ==> Given(p, w, Text(a.value)))
    ensures Traced(p, w, v0, OpenTicket(r, q, a).0)
  {
    if a.Good? && a.value != "" {
      assert r.Made(q).order == r.order && r.Made(q).server.saved == r.server.saved;
      SetTraced(p, w, v0, r.Made(q), q, Text(a.value));
    }
  }

  lemma MadeTraced(p: Param, w: World, v0: Value, r: Run, q: Param, id: string)
    requires Traced(p, w, v0, r) && (q == p ==> Given(p, w, Text(id)))
    ensures Traced(p, w, v0, r.Made(q).With(q, Text(id)))
  {
    SetTraced(p, w, v0, r.Made(q), q, Text(id));
  }

  lemma OnboardTraced(p: Param, w: World, v0: Value, r: Run)
    requires Identifier(p) && Traced(p, w, v0, r)
    ensures Traced(p, w, v0, Onboard(r, w).0)
  {
    if w.onboard.Good? && w.onboard.value != "" {
      SetTraced(p, w, v0, r, ExecutionArn, Text(w.onboard.value));
      SaveTraced(p, w, v0, r.With(ExecutionArn, Text(w.onboard.value)), w.save(OnboardServicesStep, InStep));
    } else {
      HandlerTraced(p, w, v0, r, OnboardServicesStep);
    }
  }

  lemma CreatesTraced(step: Step, p: Param, w: World, v0: Value, r: Run, catalogue: Catalogue)
    requires Identifier(p) && Traced(p, w, v0, r)
    requires step in {CreateBillingTransferInvitation, CheckBillingTransferInvitation, ConfigureAPNProgram, CreateChannelHandshake}
    ensures Traced(p, w, v0, Process(step, r, w, catalogue).0)
  {
    match step
    case CreateBillingTransferInvitation =>
      if w.invitation.Good? { MadeTraced(p, w, v0, r, TransferId, w.invitation.value); }
    case CheckBillingTransferInvitation =>
      if w.billingGroup.Good? {
        MadeTraced(p, w, v0, r.WithHist(r.Hist().(acceptedSeen := true)), BillingGroupArn, w.billingGroup.value);
      }
    case ConfigureAPNProgram =>
      if w.relationship.Good? { MadeTraced(p, w, v0, r, RelationshipId, w.relationship.value); }
    case CreateChannelHandshake =>
      if w.handshake.Good? { MadeTraced(p, w, v0, r, HandshakeId, w.handshake.value); }
  }

  lemma WorkTraced(step: Step, p: Param, w: World, v0: Value, r: Run, catalogue: Catalogue)
    requires step != SetupContext && Identifier(p) && Traced(p, w, v0, r)
    ensures Traced(p, w, v0, Process(step, r, w, catalogue).0)
  {
    match step
    case TicketNewAccount => TicketTraced(p, w, v0, r, NewAccountTicket, w.ticket(step));
    case TicketOrderFail => TicketTraced(p, w, v0, r, OrderFailedTicket, w.ticket(step));
    case TicketPLS => TicketTraced(p, w, v0, r, PlsTicket, w.ticket(step));
    case TicketOnboardServices => TicketTraced(p, w, v0, r, OnboardTicket, w.ticket(step));
    case OnboardServicesStep => OnboardTraced(p, w, v0, r);
    case CheckOnboardStatus => HandlerTraced(p, w, v0, r.(stillRunning := false), step);
    case CompleteOrder => SaveTraced(p, w, v0, r, w.save(step, Switch));
    case CreateBillingTransferInvitation | CheckBillingTransferInvitation | ConfigureAPNProgram | CreateChannelHandshake =>
      CreatesTraced(step, p, w, v0, r, catalogue);
    case _ => PlainTraced(step, p, w, v0, r, catalogue);
  }

  lemma PlainTraced(step: Step, p: Param, w: World, v0: Value, r: Run, catalogue: Catalogue)
    requires step in {ValidateOrder, CreateNewAWSEnvironment, CheckChannelHandshakeStatus, CheckCustomerRoles,
                      CreateSubscriptionStep, ContractCard, SWOJob}
    requires Identifier(p) && Traced(p, w, v0, r)
    ensures Traced(p, w, v0, Process(step, r, w, catalogue).0)
  {
    match step
    case ContractCard => ContractTraced(p, w, v0, r);
    case SWOJob => JobTraced(p, w, v0, r);
    case CheckChannelHandshakeStatus => FlagsTraced(p, w, v0, r);
    case CheckCustomerRoles => FlagsTraced(p, w, v0, r);
    case _ =>
  }

  lemma ContractTraced(p: Param, w: World, v0: Value, r: Run)
    requires Traced(p, w, v0, r)
    ensures Traced(p, w, v0, FindContract(r, w).0)
  {
    if w.contract.Good? && w.contract.value.Some? {
      SetTraced(p, w, v0, r, ContractNumber, Text(w.contract.value.value));
    }
  }

  lemma JobTraced(p: Param, w: World, v0: Value, r: Run)
    requires Traced(p, w, v0, r)
    ensures Traced(p, w, v0, CreateJob(r, w).0)
  {
    if w.job.Good? {
      SetTraced(p, w, v0, r, ErpProjectNo, Text(w.job.value));
    }
  }

  lemma FlagsTraced(p: Param, w: World, v0: Value, r: Run)
    requires Identifier(p) && Traced(p, w, v0, r)
    ensures Traced(p, w, v0, CheckShake(r, w).0) && Traced(p, w, v0, CheckDeployedRoles(r, w).0)
  {
    SetTraced(p, w, v0, r, HandshakeApproved, No);
    SetTraced(p, w, v0, r.With(HandshakeApproved, No), HandshakeApproved, Yes);
    SetTraced(p, w, v0, r, RolesDeployed, Yes);
    SetTraced(p, w, v0, r, RolesDeployed, No);
  }

  lemma PostTraced(step: Step, p: Param, w: World, v0: Value, r: Run)
    requires step != SetupContext && Identifier(p) && Traced(p, w, v0, r)
    ensures Traced(p, w, v0, PostStep(step, r, w).0)
  {
    var r1 := if NextPhase(step).Some? then r.At(NextPhase(step).value) else r;
    SetTraced(p, w, v0, r, PhaseParam, if NextPhase(step).Some? then AtPhase(NextPhase(step).value) else Unset);
    SaveTraced(p, w, v0, r1, w.save(step, AfterStep));
  }

  lemma AfterTraced(step: Step, p: Param, w: World, v0: Value, r: Run, sig: Signal)
    requires step != SetupContext && Identifier(p) && Traced(p, w, v0, r)
    ensures Traced(p, w, v0, AfterWork(step, r, sig, w).0)
  {
    match sig
    case Proceed => PostTraced(step, p, w, v0, r);
    case QueryOrder => SaveTraced(p, w, v0, r, w.save(step, Switch));
    case FailOrder => SaveTraced(p, w, v0, r, w.save(step, Switch));
    case _ =>
  }

  lemma CallTraced(step: Step, p: Param, w: World, v0: Value, r: Run, catalogue: Catalogue)
    requires step != SetupContext && Identifier(p) && Traced(p, w, v0, r)
    ensures Traced(p, w, v0, Call(step, r, w, catalogue).0)
  {
    var (r1, pre) := PreStep(step, r, w);
    PreTraced(step, p, w, v0, r);
    if pre.AlreadyProcessed? {
      SaveTraced(p, w, v0, r1, w.save(step, OnSkip));
    } else if pre.Proceed? {
      WorkTraced(step, p, w, v0, r1, catalogue);
      var (r2, sig) := Process(step, r1, w, catalogue);
      AfterTraced(step, p, w, v0, r2, sig);
    }
  }

  lemma PreTraced(step: Step, p: Param, w: World, v0: Value, r: Run)
    requires step != SetupContext && Identifier(p) && Traced(p, w, v0, r)
    ensures Traced(p, w, v0, PreStep(step, r, w).0)
  {
    match step
    case CreateBillingTransferInvitation => SetTraced(p, w, v0, r, PhaseParam, AtPhase(CheckInvitation));
    case ConfigureAPNProgram => SetTraced(p, w, v0, r, PhaseParam, AtPhase(CreateHandshake));
    case CreateChannelHandshake => SetTraced(p, w, v0, r, PhaseParam, AtPhase(CheckHandshake));
    case SWOJob => SetTraced(p, w, v0, r, PhaseParam, AtPhase(Completed));
    case _ =>
  }

  lemma {:induction false} StepsTraced(steps: seq<Step>, p: Param, w: World, v0: Value, r: Run, catalogue: Catalogue)
    requires Identifier(p) && Traced(p, w, v0, r) && forall i :: 0 <= i < |steps| ==> steps[i] != SetupContext
    ensures Traced(p, w, v0, RunSteps(steps, r, w, catalogue).0)
  {
    if steps != [] {
      CallTraced(steps[0], p, w, v0, r, catalogue);
      var (r1, out) := Call(steps[0], r, w, catalogue);
      if out.Continue? {
        StepsTraced(steps[1..], p, w, v0, r1, catalogue);
      }
    }
  }

  lemma SetupTraced(s: Server, p: Param, w: World, catalogue: Catalogue)
    requires FlagsOnly(catalogue) && Identifier(p)
    ensures Traced(p, w, Get(s.saved.bag, p), Call(SetupContext, Begin(s), w, catalogue).0)
  {
    var (r1, sig) := Setup(Begin(s), w, catalogue);
    SetupWorkTraced(s, p, w, catalogue);
    if w.pmAccount {
      CallWorks(SetupContext, Begin(s), w, catalogue);
      if sig.Proceed? {
        SetupPostTraced(p, w, Get(s.saved.bag, p), r1);
      }
    }
  }

  lemma SetupWorkTraced(s: Server, p: Param, w: World, catalogue: Catalogue)
    requires FlagsOnly(catalogue) && Identifier(p)
    ensures var (r1, sig) := Setup(Begin(s), w, catalogue);
      Traced(p, w, Get(s.saved.bag, p), r1) && sig in {Proceed, UnexpectedStop, Crash}
  {
    DefaultsTouchFlagsOnly(s.saved.bag, catalogue, p);
    SaveTraced(p, w, Get(s.saved.bag, p), Begin(s), w.save(SetupContext, InStep));
  }

  lemma SetupPostTraced(p: Param, w: World, v0: Value, r: Run)
    requires Identifier(p) && Traced(p, w, v0, r)
    ensures Traced(p, w, v0, PostStep(SetupContext, r, w).0)
  {
    var first := if r.server.newAccount then CreateAccount else CreateInvitation;
    SetTraced(p, w, v0, r, PhaseParam, AtPhase(first));
    SaveTraced(p, w, v0, r.At(first), w.save(SetupContext, AfterStep));
  }

  /** What a run leaves in a parameter was there, or is what its own service answered in this run. */
  lemma RunTraced(s: Server, p: Param, w: World, catalogue: Catalogue)
    requires FlagsOnly(catalogue) && Identifier(p)
    ensures Fits(p, w, Get(s.saved.bag, p), RunPipeline(s, w, catalogue).0.server.saved.bag)
  {
    var steps := Pipeline(s.newAccount);
    SetupTraced(s, p, w, catalogue);
    var (r1, out) := Call(SetupContext, Begin(s), w, catalogue);
    if out.Continue? {
      StepsTraced(steps[1..], p, w, Get(s.saved.bag, p), r1, catalogue);
    }
  }

  /** The event gave the parameter this value: a run by its service, a querying pass by its new ticket. */
  predicate GivenIn(p: Param, e: Event, v: Value) {
    match e
    case PipelineRun(w) => Given(p, w, v)
    case QueryingPass(q) => p == RolesTicket && q.newTicket.Good? && v == Text(q.newTicket.value)
    case _ => false
  }

  lemma EventTraced(s: Server, p: Param, e: Event, catalogue: Catalogue)
    requires FlagsOnly(catalogue) && Identifier(p)
    ensures var v := Get(Apply(s, e, catalogue).saved.bag, p);
      v == Get(s.saved.bag, p) || GivenIn(p, e, v)
  {
    match e
    case PipelineRun(w) => RunTraced(s, p, w, catalogue);
    case QueryingPass(q) => PassTraced(s, p, q);
    case _ =>
  }

  lemma PassTraced(s: Server, p: Param, q: QueryWorld)
    requires Identifier(p)
    ensures var v := Get(QueryPass(s, q).saved.bag, p);
      v == Get(s.saved.bag, p) || (p == RolesTicket && q.newTicket.Good? && v == Text(q.newTicket.value))
  {
    if s.status == Querying && IsAt(s.saved.bag, CheckRoles) {
      if RemindRoles(s, q).Some? {
        RemindTraced(s, p, q);
        JumpTraced(RemindRoles(s, q).value, p, CreateSubscription, q);
      }
    } else if s.status == Querying && IsAt(s.saved.bag, CheckHandshake) {
      JumpTraced(s, p, CheckRoles, q);
    }
  }

  lemma JumpTraced(s: Server, p: Param, phase: Phase, q: QueryWorld)
    requires Identifier(p)
    ensures Get(JumpTo(s, phase, q).saved.bag, p) == Get(s.saved.bag, p)
  {
  }

  lemma RemindTraced(s: Server, p: Param, q: QueryWorld)
    requires Identifier(p) && RemindRoles(s, q).Some?
    ensures var v := Get(RemindRoles(s, q).value.saved.bag, p);
      v == Get(s.saved.bag, p) || (p == RolesTicket && q.newTicket.Good? && v == Text(q.newTicket.value))
  {
  }

  /** Over every history, an identifier on the order was there from the start, or some event gave it:
      the answer of its own service, and of no other. */
  lemma {:induction false} IdsHaveOrigin(s: Server, events: seq<Event>, p: Param, catalogue: Catalogue)
    requires FlagsOnly(catalogue) && Identifier(p)
    ensures var v := Get(ApplyAll(s, events, catalogue).saved.bag, p);
      v == Get(s.saved.bag, p) || exists i :: 0 <= i < |events| && GivenIn(p, events[i], v)
  {
    if events != [] {
      var before, e := events[..|events| - 1], events[|events| - 1];
      var t := ApplyAll(s, before, catalogue);
      IdsHaveOrigin(s, before, p, catalogue);
      EventTraced(t, p, e, catalogue);
      var v := Get(t.saved.bag, p);
      if Get(Apply(t, e, catalogue).saved.bag, p) == v && v != Get(s.saved.bag, p) {
        var i :| 0 <= i < |before| && GivenIn(p, before[i], v);
        assert events[i] == before[i];
      }
    }
  }
}
