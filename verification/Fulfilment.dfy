/** The fulfilment code itself: a purchase context whose steps change the order in memory and
    the stored order, and the processors that move a Querying order. Every method is tied to
    its function in `StepSpec`. */
module Fulfilment {
  import opened Orders
  import S = StepSpec
  import opened StepSpec

  class PurchaseContext {
    var order: Order
    var server: Server
    var roles: Option<bool>
    var stillRunning: bool

    /** A run starts on the stored order. */
    constructor (s: Server)
      ensures State() == Begin(s)
    {
      order, server, roles, stillRunning := s.saved, s, None, false;
    }

    ghost function State(): Run
      reads this
    {
      Run(order, server, roles, stillRunning)
    }

    method SetParam(p: Param, v: Value)
      modifies this`order
      ensures State() == old(State()).With(p, v)
    {
      if p in order.bag {
        order := Order(order.bag[p := v], order.mpa);
      }
    }

    method CountCreated(p: Param)
      modifies this`server
      ensures State() == old(State()).Made(p)
    {
      server := server.(hist := server.hist.(created := Bump(server.hist.created, p)));
    }

    method Save(ok: bool) returns (sig: Signal)
      modifies this`server
      ensures (State(), sig) == S.Save(old(State()), ok)
    {
      if ok {
        server := server.(saved := order);
        return Proceed;
      }
      var lost := Dropped(Run(order, server, roles, stillRunning));
      server := server.(hist := server.hist.(lost := lost, failedSaves := server.hist.failedSaves + 1));
      return Crash;
    }

    method SwitchStatus(status: Status, ok: bool) returns (sig: Signal)
      modifies this`server
      ensures (State(), sig) == S.SwitchStatus(old(State()), status, ok)
    {
      sig := Save(ok);
      if sig.Proceed? {
        server := server.(status := status);
      }
    }

    method HandleError(step: Step, w: World) returns (sig: Signal)
      modifies this
      ensures (State(), sig) == S.HandleError(old(State()), step, w)
    {
      if Get(order.bag, ErrorNotified) != Yes && !server.mailed {
        SetParam(ErrorNotified, Yes);
        sig := Save(w.save(step, InHandler));
        if !sig.Proceed? {
          return;
        }
        server := server.(mailed := true);
        sig := SendMail(w.mail);
        if !sig.Proceed? {
          return;
        }
      }
      sig := if server.pls then UnexpectedStop else Proceed;
    }

    /** `send_services_email`: a mail that could not be sent is not even logged. */
    method SendMail(mail: Answer<bool>) returns (sig: Signal)
      modifies this`server
      ensures (State(), sig) ==
        match mail
        case Good(true) => (old(State()).WithHist(old(State()).Hist().(emails := old(State()).Hist().emails + 1)), Proceed)
        case Good(false) => (old(State()), Proceed)
        case _ => (old(State()), Crash)
    {
      match mail {
        case Good(sent) =>
          if sent {
            server := server.(hist := server.hist.(emails := server.hist.emails + 1));
          }
          return Proceed;
        case _ => return Crash;
      }
    }

    method OpenTicket(p: Param, answer: Answer<string>) returns (sig: Signal)
      modifies this
      ensures (State(), sig) == S.OpenTicket(old(State()), p, answer)
    {
      match answer {
        case ServiceError => return UnexpectedStop;
        case Raises => return Crash;
        case Good(id) =>
          CountCreated(p);
          if id != "" {
            SetParam(p, Text(id));
          } else {
            var h := server.hist;
            server := server.(hist := h.(lost := Bump(h.lost, p), anonymous := Bump(h.anonymous, p)));
          }
          return Proceed;
      }
    }

    method PreStep(step: Step, w: World) returns (sig: Signal)
      modifies this`order
      ensures (State(), sig) == S.PreStep(step, old(State()), w)
    {
      var home := HomePhase(step);
      if home.Some? && !IsAt(order.bag, home.value) {
        return Skip;
      }
      var refused := Get(order.bag, RolesDeployed) == No && server.pls;
      match step {
        case SetupContext =>
          if !w.pmAccount { return ConfigurationError; }
        case TicketNewAccount =>
          if Get(order.bag, NewAccountTicket).Truthy() { return Skip; }
        case CreateBillingTransferInvitation =>
          sig := MoveOnIfDone(TransferId, CheckInvitation);
          return;
        case CheckBillingTransferInvitation =>
          if !Get(order.bag, TransferId).Truthy() { return ConfigurationError; }
        case ConfigureAPNProgram =>
          sig := MoveOnIfDone(RelationshipId, CreateHandshake);
          return;
        case CreateChannelHandshake =>
          sig := MoveOnIfDone(HandshakeId, CheckHandshake);
          return;
        case CheckChannelHandshakeStatus =>
          if !Get(order.bag, HandshakeId).Truthy() { return ConfigurationError; }
        case TicketOrderFail =>
          if !refused || Get(order.bag, OrderFailedTicket).Truthy() { return Skip; }
        case CreateSubscriptionStep =>
          if refused { return ConfigurationError; }
        case ContractCard =>
          if Get(order.bag, ContractNumber).Truthy() { return Skip; }
        case SWOJob =>
          sig := MoveOnIfDone(ErpProjectNo, Completed);
          return;
        case TicketPLS =>
          if !server.pls || Get(order.bag, PlsTicket).Truthy() { return Skip; }
        case TicketOnboardServices =>
          if Get(order.bag, OnboardTicket).Truthy() { return Skip; }
        case _ =>
      }
      return Proceed;
    }

    method MoveOnIfDone(p: Param, next: Phase) returns (sig: Signal)
      modifies this`order
      ensures (State(), sig) == DoneBefore(old(State()), p, next)
    {
      if Get(order.bag, p).Truthy() {
        SetParam(PhaseParam, AtPhase(next));
        return AlreadyProcessed;
      }
      return Proceed;
    }

    method Setup(w: World, catalogue: Catalogue) returns (sig: Signal)
      modifies this
      ensures (State(), sig) == S.Setup(old(State()), w, catalogue)
    {
      if w.newTemplate {
        sig := Save(w.save(SetupContext, InStep));
        if !sig.Proceed? {
          return;
        }
      }
      if !Get(order.bag, PhaseParam).Truthy() {
        if !w.catalogueRead {
          return Crash;
        }
        FillDefaults(catalogue);
      }
      order := order.(mpa := Strip(order.mpa));
      if w.aws.ServiceError? || (w.aws.Good? && w.apn.ServiceError?) {
        return UnexpectedStop;
      }
      sig := if w.aws.Raises? || w.apn.Raises? then Crash else Proceed;
    }

    /** `_init_parameter_default_values`: each default overwrites the parameter in turn. */
    method FillDefaults(catalogue: Catalogue)
      modifies this`order
      ensures order == old(order).(bag := ApplyDefaults(old(order.bag), catalogue))
    {
      for i := 0 to |catalogue|
        invariant order.mpa == old(order.mpa)
        invariant ApplyDefaults(order.bag, catalogue[i..]) == ApplyDefaults(old(order.bag), catalogue)
      {
        SetParam(catalogue[i].0, catalogue[i].1);
      }
    }

    method InviteOrganization(w: World) returns (sig: Signal)
      modifies this
      ensures (State(), sig) == Invite(old(State()), w)
    {
      if order.mpa == NoAccount || w.invitation.ServiceError? {
        return QueryOrder;
      }
      if w.invitation.Raises? {
        return Crash;
      }
      CountCreated(TransferId);
      SetParam(TransferId, Text(w.invitation.value));
      return Proceed;
    }

    method CheckTransferStatus(w: World) returns (sig: Signal)
      modifies this
      ensures (State(), sig) == CheckTransfer(old(State()), w)
    {
      if !w.transfer.Good? {
        return Crash;
      }
      match w.transfer.value {
        case Accepted =>
          server := server.(hist := server.hist.(acceptedSeen := true));
          if !w.billingGroup.Good? {
            return Crash;
          }
          CountCreated(BillingGroupArn);
          SetParam(BillingGroupArn, Text(w.billingGroup.value));
          return Proceed;
        case Declined => return FailOrder;
        case Canceled => return FailOrder;
        case Expired => return FailOrder;
        case _ => return QueryOrder;
      }
    }

    method ConfigureProgram(w: World) returns (sig: Signal)
      modifies this
      ensures (State(), sig) == Relate(old(State()), w)
    {
      if !w.pmIdentifier.Good? {
        return Crash;
      }
      if !w.pmIdentifier.value {
        return ConfigurationError;
      }
      match w.relationship {
        case ServiceError => return UnexpectedStop;
        case Raises => return Crash;
        case Good(id) =>
          CountCreated(RelationshipId);
          SetParam(RelationshipId, Text(id));
          return Proceed;
      }
    }

    method StartHandshake(w: World) returns (sig: Signal)
      modifies this
      ensures (State(), sig) == Shake(old(State()), w)
    {
      if !w.pmIdentifier.Good? || w.handshake.Raises? {
        return Crash;
      }
      if w.handshake.ServiceError? {
        return UnexpectedStop;
      }
      CountCreated(HandshakeId);
      SetParam(HandshakeId, Text(w.handshake.value));
      return Proceed;
    }

    method CheckHandshakeStatus(w: World) returns (sig: Signal)
      modifies this
      ensures (State(), sig) == CheckShake(old(State()), w)
    {
      SetParam(HandshakeApproved, No);
      if !w.handshakeStatus.Good? {
        return Crash;
      }
      if w.handshakeStatus.value.None? {
        return UnexpectedStop;
      }
      match w.handshakeStatus.value.value {
        case Approved =>
          SetParam(HandshakeApproved, Yes);
          return Proceed;
        case Pending => return QueryOrder;
        case OtherStatus => return Proceed;
      }
    }

    method CheckBootstrapRoles(w: World) returns (sig: Signal)
      modifies this
      ensures (State(), sig) == CheckDeployedRoles(old(State()), w)
    {
      if roles.None? {
        match w.roles {
          case ServiceError => return UnexpectedStop;
          case Raises => return Crash;
          case Good(deployed) => roles := Some(deployed);
        }
      }
      if roles.value {
        SetParam(RolesDeployed, Yes);
        return Proceed;
      }
      SetParam(RolesDeployed, No);
      return QueryOrder;
    }

    method DeployServices(w: World) returns (sig: Signal)
      modifies this
      ensures (State(), sig) == Onboard(old(State()), w)
    {
      var isErrorOccurred := false;
      match w.onboard {
        case ServiceError => isErrorOccurred := true;
        case Raises => return Crash;
        case Good(arn) =>
          if arn != "" {
            SetParam(ExecutionArn, Text(arn));
          } else {
            isErrorOccurred := true;
          }
      }
      if isErrorOccurred {
        sig := HandleError(OnboardServicesStep, w);
      } else {
        sig := Save(w.save(OnboardServicesStep, InStep));
      }
    }

    method CheckDeploymentStatus(w: World) returns (sig: Signal)
      modifies this
      ensures (State(), sig) == CheckDeployment(old(State()), w)
    {
      stillRunning := false;
      if !Get(order.bag, ExecutionArn).Truthy() || w.deployment.ServiceError?
        || w.deployment == Good(FailedDeployment)
      {
        sig := HandleError(CheckOnboardStatus, w);
        return;
      }
      if w.deployment.Raises? {
        return Crash;
      }
      if w.deployment.value == Succeeded {
        server := server.(hist := server.hist.(succeededSeen := true));
      } else {
        stillRunning := true;
      }
      return Proceed;
    }

    method EnsureSubscription(w: World) returns (sig: Signal)
      modifies this
      ensures (State(), sig) == Subscribe(old(State()), w)
    {
      if !w.subscriptionLookup {
        return Crash;
      }
      if order.mpa !in server.hist.subscriptions {
        if !w.subscriptionCreate {
          return Crash;
        }
        server := server.(hist := server.hist.(subscriptions := server.hist.subscriptions + [order.mpa]));
      }
      return Proceed;
    }

    method FindOrCreateContract(w: World) returns (sig: Signal)
      modifies this
      ensures (State(), sig) == FindContract(old(State()), w)
    {
      if w.contract.Good? && w.contract.value.Some? {
        SetParam(ContractNumber, Text(w.contract.value.value));
      }
      return if w.contract.Raises? then Crash else Proceed;
    }

    method CreateProjectJob(w: World) returns (sig: Signal)
      modifies this
      ensures (State(), sig) == CreateJob(old(State()), w)
    {
      if Get(order.bag, ContractNumber).Truthy() {
        match w.job {
          case Good(number) => SetParam(ErpProjectNo, Text(number));
          case ServiceError =>
          case Raises => return Crash;
        }
      }
      return Proceed;
    }

    method Complete(w: World) returns (sig: Signal)
      modifies this
      ensures (State(), sig) == Finish(old(State()), w)
    {
      if !w.agreement || server.status == Done {
        return Crash;
      }
      sig := SwitchStatus(Done, w.save(CompleteOrder, Switch));
    }

    method Process(step: Step, w: World, catalogue: Catalogue) returns (sig: Signal)
      modifies this
      ensures (State(), sig) == S.Process(step, old(State()), w, catalogue)
    {
      match step {
        case SetupContext => sig := Setup(w, catalogue);
        case ValidateOrder =>
          sig := if !w.duplicate.Good? then Crash else if w.duplicate.value then FailOrder else Proceed;
        case TicketNewAccount => sig := OpenTicket(NewAccountTicket, w.ticket(step));
        case CreateNewAWSEnvironment => sig := if order.mpa == NoAccount then QueryOrder else Proceed;
        case CreateBillingTransferInvitation => sig := InviteOrganization(w);
        case CheckBillingTransferInvitation => sig := CheckTransferStatus(w);
        case ConfigureAPNProgram => sig := ConfigureProgram(w);
        case CreateChannelHandshake => sig := StartHandshake(w);
        case CheckChannelHandshakeStatus => sig := CheckHandshakeStatus(w);
        case CheckCustomerRoles => sig := CheckBootstrapRoles(w);
        case TicketOrderFail => sig := OpenTicket(OrderFailedTicket, w.ticket(step));
        case OnboardServicesStep => sig := DeployServices(w);
        case CheckOnboardStatus => sig := CheckDeploymentStatus(w);
        case CreateSubscriptionStep => sig := EnsureSubscription(w);
        case ContractCard => sig := FindOrCreateContract(w);
        case SWOJob => sig := CreateProjectJob(w);
        case TicketPLS => sig := OpenTicket(PlsTicket, w.ticket(step));
        case TicketOnboardServices => sig := OpenTicket(OnboardTicket, w.ticket(step));
        case CompleteOrder => sig := Complete(w);
      }
    }

    method PostStep(step: Step, w: World) returns (sig: Signal)
      modifies this
      ensures (State(), sig) == S.PostStep(step, old(State()), w)
    {
      if step == ValidateOrder || step == CompleteOrder || (step == CheckOnboardStatus && stillRunning)
        || (step == SetupContext && Get(order.bag, PhaseParam).Truthy())
      {
        return Proceed;
      }
      ghost var r := State();
      if step == SetupContext {
        SetParam(PhaseParam, AtPhase(if server.newAccount then CreateAccount else CreateInvitation));
      } else if NextPhase(step).Some? {
        SetParam(PhaseParam, AtPhase(NextPhase(step).value));
      }
      assert S.PostStep(step, r, w) == S.Save(State(), w.save(step, AfterStep));
      sig := Save(w.save(step, AfterStep));
    }

    /** `BasePhaseStep.__call__`, with the next step left to the pipeline. */
    method Call(step: Step, w: World, catalogue: Catalogue) returns (out: Outcome)
      modifies this
      ensures (State(), out) == S.Call(step, old(State()), w, catalogue)
    {
      var sig := PreStep(step, w);
      match sig {
        case AlreadyProcessed =>
          sig := Save(w.save(step, OnSkip));
          return Leave(sig, Continue);
        case Skip => return Continue;
        case ConfigurationError => return Halt;
        case Proceed =>
        case _ => return Crashed;
      }
      sig := Process(step, w, catalogue);
      match sig {
        case UnexpectedStop => return Halt;
        case QueryOrder =>
          sig := SwitchStatus(Querying, w.save(step, Switch));
          return Leave(sig, Halt);
        case FailOrder =>
          sig := SwitchStatus(Failed, w.save(step, Switch));
          return Leave(sig, Halt);
        case Proceed =>
        case _ => return Crashed;
      }
      sig := PostStep(step, w);
      return Leave(sig, Continue);
    }

    /** One pipeline run: the steps in order, until one of them does not continue. */
    method RunPipeline(w: World, catalogue: Catalogue) returns (out: Outcome)
      modifies this
      ensures (State(), out) == RunSteps(Pipeline(old(server.newAccount)), old(State()), w, catalogue)
    {
      var steps := Pipeline(server.newAccount);
      out := Continue;
      var i := 0;
      while i < |steps| && out.Continue?
        invariant 0 <= i <= |steps|
        invariant RunSteps(steps, old(State()), w, catalogue) ==
          (if out.Continue? then RunSteps(steps[i..], State(), w, catalogue) else (State(), out))
        decreases |steps| - i
      {
        out := Call(steps[i], w, catalogue);
        i := i + 1;
      }
    }
  }

  /** A Querying order and the processors that look at it between runs. */
  class QueryingOrder {
    var server: Server

    constructor (s: Server)
      ensures server == s
    {
      server := s;
    }

    method SwitchToProcess(ok: bool)
      modifies this
      ensures server == Resume(old(server), ok)
    {
      if ok {
        server := server.(status := Processing);
      }
    }

    method ManageTimeout(p: Phase, q: QueryWorld)
      modifies this
      ensures server == JumpTo(old(server), p, q)
    {
      if !q.savePhase {
        return;
      }
      server := server.(saved := server.saved.At(p));
      SwitchToProcess(q.switch);
    }

    method ProcessInvitation(q: QueryWorld)
      modifies this
      ensures server == PassInvitation(old(server), q)
    {
      if !Get(server.saved.bag, TransferId).Truthy() || !q.pmAccount || !q.client {
        return;
      }
      if q.transfer.Good? && q.transfer.value != Requested {
        SwitchToProcess(q.switch);
      }
    }

    method ProcessHandshake(q: QueryWorld)
      modifies this
      ensures server == PassHandshake(old(server), q)
    {
      if !q.client || !q.handshakeStatus.Good? {
        return;
      }
      if q.handshakeStatus.value != Some(Pending) {
        SwitchToProcess(q.switch);
      } else if q.timeout {
        ManageTimeout(CheckRoles, q);
      }
    }

    /** `died` when an exception ends the pass. */
    method ManageRolesTicket(q: QueryWorld) returns (died: bool)
      modifies this
      ensures RemindRoles(old(server), q) == (if died then None else Some(server))
      ensures died ==> server == old(server)
    {
      if !q.rolesTimeout {
        return false;
      }
      if Get(server.saved.bag, RolesTicket).Truthy() {
        if !q.openTicket.Good? {
          return true;
        }
        if q.openTicket.value {
          return false;
        }
      }
      if !q.newTicket.Good? || !q.saveTicket {
        return true;
      }
      server := server.(saved := server.saved.With(RolesTicket, Text(q.newTicket.value)));
      return false;
    }

    method ProcessRoles(q: QueryWorld)
      modifies this
      ensures server == PassRoles(old(server), q)
    {
      if !q.roles.Good? {
        return;
      }
      if q.roles.value {
        SwitchToProcess(q.switch);
        return;
      }
      var died := ManageRolesTicket(q);
      if !died && q.timeout {
        ManageTimeout(CreateSubscription, q);
      }
    }

    /** `ProcessorChain.process`, on the orders that the job selects. */
    method Pass(q: QueryWorld)
      modifies this
      ensures server == QueryPass(old(server), q)
    {
      if server.status != Querying {
        return;
      }
      match Get(server.saved.bag, PhaseParam) {
        case AtPhase(CheckInvitation) => ProcessInvitation(q);
        case AtPhase(CheckHandshake) => ProcessHandshake(q);
        case AtPhase(CheckRoles) => ProcessRoles(q);
        case _ =>
      }
    }
  }
}
