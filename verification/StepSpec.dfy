/** What every fulfilment step, pipeline run and querying pass does to an order, as
    functions on values. `Fulfilment.dfy` proves the state-changing code against them. */
module StepSpec {
  import opened Orders

  datatype Step =
    | SetupContext
    | ValidateOrder
    | TicketNewAccount
    | CreateNewAWSEnvironment
    | CreateBillingTransferInvitation
    | CheckBillingTransferInvitation
    | ConfigureAPNProgram
    | CreateChannelHandshake
    | CheckChannelHandshakeStatus
    | CheckCustomerRoles
    | TicketOrderFail
    | OnboardServicesStep
    | CheckOnboardStatus
    | CreateSubscriptionStep
    | ContractCard
    | SWOJob
    | TicketPLS
    | TicketOnboardServices
    | CompleteOrder

  const EXISTING_ENVIRONMENT: seq<Step> := [
    SetupContext, ValidateOrder] + SHARED_STEPS

  const NEW_ENVIRONMENT: seq<Step> := [
    SetupContext, ValidateOrder, TicketNewAccount, CreateNewAWSEnvironment] + SHARED_STEPS

  const SHARED_STEPS: seq<Step> := [
    CreateBillingTransferInvitation, CheckBillingTransferInvitation, ConfigureAPNProgram,
    CreateChannelHandshake, CheckChannelHandshakeStatus, CheckCustomerRoles, TicketOrderFail,
    OnboardServicesStep, CheckOnboardStatus, CreateSubscriptionStep, ContractCard, SWOJob,
    TicketPLS, TicketOnboardServices, CompleteOrder]

  function Pipeline(newAccount: bool): seq<Step> {
    if newAccount then NEW_ENVIRONMENT else EXISTING_ENVIRONMENT
  }

  /** How a hook ends: normally, or with one of the step errors, or with any other exception. */
  datatype Signal =
    | Proceed
    | AlreadyProcessed
    | Skip
    | ConfigurationError
    | UnexpectedStop
    | QueryOrder
    | FailOrder
    | Crash

  /** How a step leaves the run: on to the next step, quietly stopped, or by exception. */
  datatype Outcome = Continue | Halt | Crashed

  /** Answer of an outside call: a value, the wrapped error of that service, any other exception. */
  datatype Answer<+T> = Good(value: T) | ServiceError | Raises

  type Ident = s: string | s != "" witness "id"

  datatype TransferStatus = Requested | Accepted | Declined | Canceled | Expired | Withdrawn
  datatype HandshakeStatus = Pending | Approved | OtherStatus
  datatype Deployment = Running | Succeeded | FailedDeployment | UnknownDeployment

  /** The places at which a step writes to the platform. */
  datatype Slot = InHandler | InStep | AfterStep | OnSkip | Switch

  /** Everything the outside answers during one pipeline run. No step runs twice in a run. */
  datatype World = World(
    pmAccount: bool,
    newTemplate: bool,
    catalogueRead: bool,
    aws: Answer<()>,
    apn: Answer<()>,
    duplicate: Answer<bool>,
    invitation: Answer<Ident>,
    transfer: Answer<TransferStatus>,
    billingGroup: Answer<Ident>,
    pmIdentifier: Answer<bool>,
    relationship: Answer<Ident>,
    handshake: Answer<Ident>,
    handshakeStatus: Answer<Option<HandshakeStatus>>,
    roles: Answer<bool>,
    onboard: Answer<string>,
    deployment: Answer<Deployment>,
    subscriptionLookup: bool,
    subscriptionCreate: bool,
    contract: Answer<Option<string>>,
    job: Answer<string>,
    ticket: Step -> Answer<string>,
    agreement: bool,
    mail: Answer<bool>,
    save: (Step, Slot) -> bool)

  type Catalogue = seq<(Param, Value)>

  /** A run in progress: the order in memory, the platform, the cached role check, and the
      `_onboard_still_running` field of the onboarding check. */
  datatype Run = Run(order: Order, server: Server, roles: Option<bool>, stillRunning: bool) {
    function With(p: Param, v: Value): Run {
      this.(order := order.With(p, v))
    }
    function At(p: Phase): Run {
      this.(order := order.At(p))
    }
    function Hist(): History {
      server.hist
    }
    function WithHist(h: History): Run {
      this.(server := server.(hist := h))
    }
    /** An outside system made the thing that parameter `p` is to identify. */
    function Made(p: Param): Run {
      WithHist(Hist().(created := Bump(Hist().created, p)))
    }
  }

  /** Support and account type are fixed for the order. */
  predicate SameKind(r: Run, r': Run) {
    r'.server.pls == r.server.pls && r'.server.newAccount == r.server.newAccount
  }

  /** Identifiers held in memory but not on the platform are lost when the run dies. */
  function Dropped(r: Run): (m: map<Param, nat>)
    ensures forall p :: p in r.order.bag ==>
      Count(m, p) == Count(r.Hist().lost, p)
        + (if Get(r.order.bag, p).Truthy() && !Get(r.server.saved.bag, p).Truthy() then 1 else 0)
  {
    map p | p in r.order.bag.Keys + r.Hist().lost.Keys ::
      Count(r.Hist().lost, p)
        + (if Get(r.order.bag, p).Truthy() && !Get(r.server.saved.bag, p).Truthy() then 1 else 0)
  }

  /** `update_order`: the stored parameters become those in memory, or the call raises. */
  function Save(r: Run, ok: bool): (c: (Run, Signal))
    ensures SameKind(r, c.0)
  {
    if ok then (r.(server := r.server.(saved := r.order)), Proceed)
    else (r.WithHist(r.Hist().(lost := Dropped(r), failedSaves := r.Hist().failedSaves + 1)), Crash)
  }

  /** `switch_order_status_to_*`: the write that also changes the status. */
  function SwitchStatus(r: Run, status: Status, ok: bool): (c: (Run, Signal))
    ensures SameKind(r, c.0)
  {
    var (r', sig) := Save(r, ok);
    if sig.Proceed? then (r'.(server := r'.server.(status := status)), Proceed) else (r', sig)
  }

  function ApplyDefaults(bag: Bag, catalogue: Catalogue): (r: Bag)
    ensures forall q :: q in r <==> q in bag
    decreases |catalogue|
  {
    if catalogue == [] then bag
    else ApplyDefaults(Set(bag, catalogue[0].0, catalogue[0].1), catalogue[1..])
  }

  /** `handle_error`: one mail per order, and a stop only for Partner-Led Support. A mail that
      could not be sent changes nothing; an error while it is made leaves as an exception. */
  function HandleError(r: Run, step: Step, w: World): (c: (Run, Signal))
    ensures SameKind(r, c.0)
  {
    if Get(r.order.bag, ErrorNotified) != Yes && !r.server.mailed then
      var (r1, sig) := Save(r.With(ErrorNotified, Yes), w.save(step, InHandler));
      if !sig.Proceed? then (r1, sig)
      else
        var r2 := r1.(server := r1.server.(mailed := true));
        match w.mail
        case Good(sent) =>
          (if sent then r2.WithHist(r2.Hist().(emails := r2.Hist().emails + 1)) else r2,
           if r.server.pls then UnexpectedStop else Proceed)
        case _ => (r2, Crash)
    else (r, if r.server.pls then UnexpectedStop else Proceed)
  }

  /** `BaseCRMTicketStep.process`: a ticket without an id is made but cannot be recorded. */
  function OpenTicket(r: Run, p: Param, answer: Answer<string>): (c: (Run, Signal))
    ensures SameKind(r, c.0)
  {
    match answer
    case ServiceError => (r, UnexpectedStop)
    case Raises => (r, Crash)
    case Good(id) =>
      if id != "" then (r.Made(p).With(p, Text(id)), Proceed)
      else
        var h := r.Made(p).Hist();
        (r.WithHist(h.(lost := Bump(h.lost, p), anonymous := Bump(h.anonymous, p))), Proceed)
  }

  /** The phase a step works in; the remaining steps are not gated by the phase. */
  function HomePhase(step: Step): Option<Phase> {
    match step
    case ValidateOrder => Some(CreateInvitation)
    case TicketNewAccount => Some(CreateAccount)
    case CreateNewAWSEnvironment => Some(CreateAccount)
    case CreateBillingTransferInvitation => Some(CreateInvitation)
    case CheckBillingTransferInvitation => Some(CheckInvitation)
    case ConfigureAPNProgram => Some(ConfigureApn)
    case CreateChannelHandshake => Some(CreateHandshake)
    case CheckChannelHandshakeStatus => Some(CheckHandshake)
    case CheckCustomerRoles => Some(CheckRoles)
    case OnboardServicesStep => Some(OnboardServices)
    case CheckOnboardStatus => Some(CheckOnboard)
    case CreateSubscriptionStep => Some(CreateSubscription)
    case ContractCard => Some(ProjectCreation)
    case SWOJob => Some(ProjectCreation)
    case TicketOnboardServices => Some(Completed)
    case CompleteOrder => Some(Completed)
    case SetupContext => None
    case TicketOrderFail => None
    case TicketPLS => None
  }

  /** The gate of a creating step: an order that carries the id already only moves on. */
  function DoneBefore(r: Run, p: Param, next: Phase): (c: (Run, Signal))
    ensures SameKind(r, c.0)
  {
    if Get(r.order.bag, p).Truthy() then (r.At(next), AlreadyProcessed) else (r, Proceed)
  }

  predicate RolesRefused(r: Run) {
    Get(r.order.bag, RolesDeployed) == No && r.server.pls
  }

  function PreStep(step: Step, r: Run, w: World): (c: (Run, Signal))
    ensures SameKind(r, c.0)
  {
    if HomePhase(step).Some? && !IsAt(r.order.bag, HomePhase(step).value) then (r, Skip)
    else
      match step
      case SetupContext => (r, if w.pmAccount then Proceed else ConfigurationError)
      case TicketNewAccount => (r, if Get(r.order.bag, NewAccountTicket).Truthy() then Skip else Proceed)
      case CreateBillingTransferInvitation => DoneBefore(r, TransferId, CheckInvitation)
      case CheckBillingTransferInvitation =>
        (r, if Get(r.order.bag, TransferId).Truthy() then Proceed else ConfigurationError)
      case ConfigureAPNProgram => DoneBefore(r, RelationshipId, CreateHandshake)
      case CreateChannelHandshake => DoneBefore(r, HandshakeId, CheckHandshake)
      case CheckChannelHandshakeStatus =>
        (r, if Get(r.order.bag, HandshakeId).Truthy() then Proceed else ConfigurationError)
      case TicketOrderFail =>
        (r, if !RolesRefused(r) || Get(r.order.bag, OrderFailedTicket).Truthy() then Skip else Proceed)
      case CreateSubscriptionStep => (r, if RolesRefused(r) then ConfigurationError else Proceed)
      case ContractCard => (r, if Get(r.order.bag, ContractNumber).Truthy() then Skip else Proceed)
      case SWOJob => DoneBefore(r, ErpProjectNo, Completed)
      case TicketPLS =>
        (r, if !r.server.pls || Get(r.order.bag, PlsTicket).Truthy() then Skip else Proceed)
      case TicketOnboardServices =>
        (r, if Get(r.order.bag, OnboardTicket).Truthy() then Skip else Proceed)
      case _ => (r, Proceed)
  }

  function Setup(r: Run, w: World, catalogue: Catalogue): (c: (Run, Signal))
    ensures SameKind(r, c.0)
  {
    var (r1, sig) := if w.newTemplate then Save(r, w.save(SetupContext, InStep)) else (r, Proceed);
    if !sig.Proceed? then (r1, sig)
    else if !Get(r1.order.bag, PhaseParam).Truthy() && !w.catalogueRead then (r1, Crash)
    else
      var bag := if Get(r1.order.bag, PhaseParam).Truthy() then r1.order.bag
                 else ApplyDefaults(r1.order.bag, catalogue);
      var r2 := r1.(order := Order(bag, Strip(r1.order.mpa)));
      match w.aws
      case ServiceError => (r2, UnexpectedStop)
      case Raises => (r2, Crash)
      case Good(_) =>
        match w.apn
        case ServiceError => (r2, UnexpectedStop)
        case Raises => (r2, Crash)
        case Good(_) => (r2, Proceed)
  }

  function Invite(r: Run, w: World): (c: (Run, Signal))
    ensures SameKind(r, c.0)
  {
    if r.order.mpa == NoAccount then (r, QueryOrder)
    else
      match w.invitation
      case ServiceError => (r, QueryOrder)
      case Raises => (r, Crash)
      case Good(id) => (r.Made(TransferId).With(TransferId, Text(id)), Proceed)
  }

  function CheckTransfer(r: Run, w: World): (c: (Run, Signal))
    ensures SameKind(r, c.0)
  {
    match w.transfer
    case Good(Accepted) =>
      var r1 := r.WithHist(r.Hist().(acceptedSeen := true));
      (match w.billingGroup
       case Good(arn) => (r1.Made(BillingGroupArn).With(BillingGroupArn, Text(arn)), Proceed)
       case _ => (r1, Crash))
    case Good(status) =>
      (r, if status == Declined || status == Canceled || status == Expired then FailOrder else QueryOrder)
    case _ => (r, Crash)
  }

  function Relate(r: Run, w: World): (c: (Run, Signal))
    ensures SameKind(r, c.0)
  {
    match w.pmIdentifier
    case Good(found) =>
      if !found then (r, ConfigurationError)
      else
        (match w.relationship
         case ServiceError => (r, UnexpectedStop)
         case Raises => (r, Crash)
         case Good(id) => (r.Made(RelationshipId).With(RelationshipId, Text(id)), Proceed))
    case _ => (r, Crash)
  }

  function Shake(r: Run, w: World): (c: (Run, Signal))
    ensures SameKind(r, c.0)
  {
    match w.pmIdentifier
    case Good(_) =>
      (match w.handshake
       case ServiceError => (r, UnexpectedStop)
       case Raises => (r, Crash)
       case Good(id) => (r.Made(HandshakeId).With(HandshakeId, Text(id)), Proceed))
    case _ => (r, Crash)
  }

  function CheckShake(r: Run, w: World): (c: (Run, Signal))
    ensures SameKind(r, c.0)
  {
    var r1 := r.With(HandshakeApproved, No);
    match w.handshakeStatus
    case Good(None) => (r1, UnexpectedStop)
    case Good(Some(Approved)) => (r1.With(HandshakeApproved, Yes), Proceed)
    case Good(Some(Pending)) => (r1, QueryOrder)
    case Good(Some(OtherStatus)) => (r1, Proceed)
    case _ => (r1, Crash)
  }

  function CheckDeployedRoles(r: Run, w: World): (c: (Run, Signal))
    ensures SameKind(r, c.0)
  {
    var (r1, sig) :=
      if r.roles.Some? then (r, Proceed)
      else
        match w.roles
        case ServiceError => (r, UnexpectedStop)
        case Raises => (r, Crash)
        case Good(deployed) => (r.(roles := Some(deployed)), Proceed);
    if !sig.Proceed? || r1.roles.None? then (r1, sig)
    else if r1.roles.value then (r1.With(RolesDeployed, Yes), Proceed)
    else (r1.With(RolesDeployed, No), QueryOrder)
  }

  function Onboard(r: Run, w: World): (c: (Run, Signal))
    ensures SameKind(r, c.0)
  {
    match w.onboard
    case ServiceError => HandleError(r, OnboardServicesStep, w)
    case Raises => (r, Crash)
    case Good(arn) =>
      if arn == "" then HandleError(r, OnboardServicesStep, w)
      else Save(r.With(ExecutionArn, Text(arn)), w.save(OnboardServicesStep, InStep))
  }

  function CheckDeployment(r: Run, w: World): (c: (Run, Signal))
    ensures SameKind(r, c.0)
  {
    var r1 := r.(stillRunning := false);
    if !Get(r1.order.bag, ExecutionArn).Truthy() then HandleError(r1, CheckOnboardStatus, w)
    else
      match w.deployment
      case ServiceError => HandleError(r1, CheckOnboardStatus, w)
      case Raises => (r1, Crash)
      case Good(Running) => (r1.(stillRunning := true), Proceed)
      case Good(FailedDeployment) => HandleError(r1, CheckOnboardStatus, w)
      case Good(UnknownDeployment) => (r1.(stillRunning := true), Proceed)
      case Good(Succeeded) => (r1.WithHist(r1.Hist().(succeededSeen := true)), Proceed)
  }

  function Subscribe(r: Run, w: World): (c: (Run, Signal))
    ensures SameKind(r, c.0)
  {
    if !w.subscriptionLookup then (r, Crash)
    else if r.order.mpa in r.Hist().subscriptions then (r, Proceed)
    else if !w.subscriptionCreate then (r, Crash)
    else (r.WithHist(r.Hist().(subscriptions := r.Hist().subscriptions + [r.order.mpa])), Proceed)
  }

  function FindContract(r: Run, w: World): (c: (Run, Signal))
    ensures SameKind(r, c.0)
  {
    match w.contract
    case Good(Some(number)) => (r.With(ContractNumber, Text(number)), Proceed)
    case Raises => (r, Crash)
    case _ => (r, Proceed)
  }

  function CreateJob(r: Run, w: World): (c: (Run, Signal))
    ensures SameKind(r, c.0)
  {
    if !Get(r.order.bag, ContractNumber).Truthy() then (r, Proceed)
    else
      match w.job
      case Good(number) => (r.With(ErpProjectNo, Text(number)), Proceed)
      case ServiceError => (r, Proceed)
      case Raises => (r, Crash)
  }

  function Finish(r: Run, w: World): (c: (Run, Signal))
    ensures SameKind(r, c.0)
  {
    if !w.agreement || r.server.status == Done then (r, Crash)
    else SwitchStatus(r, Done, w.save(CompleteOrder, Switch))
  }

  function Process(step: Step, r: Run, w: World, catalogue: Catalogue): (c: (Run, Signal))
    ensures SameKind(r, c.0)
  {
    match step
    case SetupContext => Setup(r, w, catalogue)
    case ValidateOrder =>
      (r, match w.duplicate case Good(found) => (if found then FailOrder else Proceed) case _ => Crash)
    case TicketNewAccount => OpenTicket(r, NewAccountTicket, w.ticket(step))
    case CreateNewAWSEnvironment => (r, if r.order.mpa == NoAccount then QueryOrder else Proceed)
    case CreateBillingTransferInvitation => Invite(r, w)
    case CheckBillingTransferInvitation => CheckTransfer(r, w)
    case ConfigureAPNProgram => Relate(r, w)
    case CreateChannelHandshake => Shake(r, w)
    case CheckChannelHandshakeStatus => CheckShake(r, w)
    case CheckCustomerRoles => CheckDeployedRoles(r, w)
    case TicketOrderFail => OpenTicket(r, OrderFailedTicket, w.ticket(step))
    case OnboardServicesStep => Onboard(r, w)
    case CheckOnboardStatus => CheckDeployment(r, w)
    case CreateSubscriptionStep => Subscribe(r, w)
    case ContractCard => FindContract(r, w)
    case SWOJob => CreateJob(r, w)
    case TicketPLS => OpenTicket(r, PlsTicket, w.ticket(step))
    case TicketOnboardServices => OpenTicket(r, OnboardTicket, w.ticket(step))
    case CompleteOrder => Finish(r, w)
  }

  /** The phase a step hands over to, when its own work ends. */
  function NextPhase(step: Step): Option<Phase> {
    match step
    case CreateNewAWSEnvironment => Some(CreateInvitation)
    case CreateBillingTransferInvitation => Some(CheckInvitation)
    case CheckBillingTransferInvitation => Some(ConfigureApn)
    case ConfigureAPNProgram => Some(CreateHandshake)
    case CreateChannelHandshake => Some(CheckHandshake)
    case CheckChannelHandshakeStatus => Some(CheckRoles)
    case CheckCustomerRoles => Some(OnboardServices)
    case OnboardServicesStep => Some(CheckOnboard)
    case CheckOnboardStatus => Some(CreateSubscription)
    case CreateSubscriptionStep => Some(ProjectCreation)
    case SWOJob => Some(Completed)
    case _ => None
  }

  function PostStep(step: Step, r: Run, w: World): (c: (Run, Signal))
    ensures SameKind(r, c.0)
  {
    match step
    case SetupContext =>
      if Get(r.order.bag, PhaseParam).Truthy() then (r, Proceed)
      else
        Save(r.At(if r.server.newAccount then CreateAccount else CreateInvitation), w.save(step, AfterStep))
    case ValidateOrder => (r, Proceed)
    case CompleteOrder => (r, Proceed)
    case CheckOnboardStatus =>
      if r.stillRunning then (r, Proceed) else Save(r.At(CreateSubscription), w.save(step, AfterStep))
    case _ =>
      Save(if NextPhase(step).Some? then r.At(NextPhase(step).value) else r, w.save(step, AfterStep))
  }

  function Leave(sig: Signal, quiet: Outcome): Outcome {
    if sig.Proceed? then quiet else Crashed
  }

  /** How a call ends once the step's work has ended with `sig`. */
  function AfterWork(step: Step, r: Run, sig: Signal, w: World): (c: (Run, Outcome))
    ensures SameKind(r, c.0)
  {
    match sig
    case UnexpectedStop => (r, Halt)
    case QueryOrder =>
      var (r1, sw) := SwitchStatus(r, Querying, w.save(step, Switch));
      (r1, Leave(sw, Halt))
    case FailOrder =>
      var (r1, sw) := SwitchStatus(r, Failed, w.save(step, Switch));
      (r1, Leave(sw, Halt))
    case Proceed =>
      var (r1, post) := PostStep(step, r, w);
      (r1, Leave(post, Continue))
    case _ => (r, Crashed)
  }

  /** `BasePhaseStep.__call__`, up to the call of the next step. An error that its hook does
      not catch leaves the run as an exception. */
  function Call(step: Step, r: Run, w: World, catalogue: Catalogue): (c: (Run, Outcome))
    ensures SameKind(r, c.0)
  {
    var (r1, pre) := PreStep(step, r, w);
    match pre
    case AlreadyProcessed =>
      var (r2, sig) := Save(r1, w.save(step, OnSkip));
      (r2, Leave(sig, Continue))
    case Skip => (r1, Continue)
    case ConfigurationError => (r1, Halt)
    case Proceed =>
      var (r2, sig) := Process(step, r1, w, catalogue);
      AfterWork(step, r2, sig, w)
    case _ => (r1, Crashed)
  }

  /** A run from some step on: each step calls the next one only when it continues. */
  function RunSteps(steps: seq<Step>, r: Run, w: World, catalogue: Catalogue): (c: (Run, Outcome))
    ensures SameKind(r, c.0)
  {
    if steps == [] then (r, Continue)
    else
      var (r1, out) := Call(steps[0], r, w, catalogue);
      if out.Continue? then RunSteps(steps[1..], r1, w, catalogue) else (r1, out)
  }

  /** The context of a new run holds the stored order. */
  function Begin(s: Server): Run {
    Run(s.saved, s, None, false)
  }

  function RunPipeline(s: Server, w: World, catalogue: Catalogue): (Run, Outcome) {
    RunSteps(Pipeline(s.newAccount), Begin(s), w, catalogue)
  }

  /** Everything the outside answers during one querying pass over one order. */
  datatype QueryWorld = QueryWorld(
    pmAccount: bool,
    client: bool,
    transfer: Answer<TransferStatus>,
    handshakeStatus: Answer<Option<HandshakeStatus>>,
    roles: Answer<bool>,
    rolesTimeout: bool,
    timeout: bool,
    openTicket: Answer<bool>,
    newTicket: Answer<string>,
    saveTicket: bool,
    savePhase: bool,
    switch: bool)

  /** `switch_order_status_to_process`: a failing call is logged and forgotten. */
  function Resume(s: Server, ok: bool): Server {
    if ok then s.(status := Processing) else s
  }

  /** The timeout branch: the new phase is stored first, the status follows when it can. */
  function JumpTo(s: Server, p: Phase, q: QueryWorld): Server {
    if !q.savePhase then s else Resume(s.(saved := s.saved.At(p)), q.switch)
  }

  function PassInvitation(s: Server, q: QueryWorld): Server {
    if !Get(s.saved.bag, TransferId).Truthy() || !q.pmAccount || !q.client then s
    else
      match q.transfer
      case Good(status) => if status != Requested then Resume(s, q.switch) else s
      case _ => s
  }

  function PassHandshake(s: Server, q: QueryWorld): Server {
    if !q.client then s
    else
      match q.handshakeStatus
      case Good(None) => Resume(s, q.switch)
      case Good(Some(status)) =>
        if status != Pending then Resume(s, q.switch)
        else if q.timeout then JumpTo(s, CheckRoles, q)
        else s
      case _ => s
  }

  /** The role ticket of a stalled order: None when the pass died on the way. */
  function RemindRoles(s: Server, q: QueryWorld): Option<Server> {
    if !q.rolesTimeout then Some(s)
    else
      var open := if Get(s.saved.bag, RolesTicket).Truthy() then q.openTicket else Good(false);
      match open
      case Good(true) => Some(s)
      case Good(false) =>
        (match q.newTicket
         case Good(id) =>
           if q.saveTicket then Some(s.(saved := s.saved.With(RolesTicket, Text(id)))) else None
         case _ => None)
      case _ => None
  }

  function PassRoles(s: Server, q: QueryWorld): Server {
    match q.roles
    case Good(true) => Resume(s, q.switch)
    case Good(false) =>
      (match RemindRoles(s, q)
       case None => s
       case Some(s1) => if q.timeout then JumpTo(s1, CreateSubscription, q) else s1)
    case _ => s
  }

  /** The processor chain: the first processor that takes the phase of a Querying order. */
  function QueryPass(s: Server, q: QueryWorld): Server {
    if s.status != Querying then s
    else if IsAt(s.saved.bag, CheckInvitation) then PassInvitation(s, q)
    else if IsAt(s.saved.bag, CheckHandshake) then PassHandshake(s, q)
    else if IsAt(s.saved.bag, CheckRoles) then PassRoles(s, q)
    else s
  }

  /** What can happen to an order: a pipeline run, a querying pass, and what people and the
      process manager do around them. */
  datatype Event =
    | PipelineRun(w: World)
    | QueryingPass(q: QueryWorld)
    | ResumeByHand
    | EditAccount(mpa: AccountId)
    | FailByHand
    | RestartProcess

  function Apply(s: Server, e: Event, catalogue: Catalogue): Server {
    match e
    case PipelineRun(w) => if s.status == Processing then RunPipeline(s, w, catalogue).0.server else s
    case QueryingPass(q) => QueryPass(s, q)
    case ResumeByHand => if s.status == Querying then s.(status := Processing) else s
    case EditAccount(mpa) =>
      if s.status == Querying then s.(saved := s.saved.(mpa := mpa)) else s
    case FailByHand => if s.status == Done then s else s.(status := Failed)
    case RestartProcess => s.(mailed := false)
  }

  function ApplyAll(s: Server, events: seq<Event>, catalogue: Catalogue): Server {
    if events == [] then s
    else Apply(ApplyAll(s, events[..|events| - 1], catalogue), events[|events| - 1], catalogue)
  }
}
