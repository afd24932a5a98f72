/** The data a purchase order carries through fulfilment, as the platform stores it:
    the fulfilment parameters, the Master Payer Account id, the status, and a history of
    what has been created outside. */
module Orders {
  datatype Option<+T> = None | Some(value: T)

  /** The fulfilment phases, in the order the purchase pipelines walk them. */
  datatype Phase =
    | CreateAccount
    | CreateInvitation
    | CheckInvitation
    | ConfigureApn
    | CreateHandshake
    | CheckHandshake
    | CheckRoles
    | OnboardServices
    | CheckOnboard
    | CreateSubscription
    | ProjectCreation
    | Completed

  /** Position of a phase; 0 is kept for an order that has no phase yet. */
  function PhaseRank(p: Phase): (r: nat)
    ensures 1 <= r <= 12
  {
    match p
    case CreateAccount => 1
    case CreateInvitation => 2
    case CheckInvitation => 3
    case ConfigureApn => 4
    case CreateHandshake => 5
    case CheckHandshake => 6
    case CheckRoles => 7
    case OnboardServices => 8
    case CheckOnboard => 9
    case CreateSubscription => 10
    case ProjectCreation => 11
    case Completed => 12
  }

  /** The fulfilment parameters the purchase flow reads or writes. */
  datatype Param =
    | PhaseParam
    | TransferId
    | BillingGroupArn
    | RelationshipId
    | HandshakeId
    | HandshakeApproved
    | RolesDeployed
    | ExecutionArn
    | ErrorNotified
    | NewAccountTicket
    | OrderFailedTicket
    | PlsTicket
    | OnboardTicket
    | RolesTicket
    | ContractNumber
    | ErpProjectNo

  datatype Value = Unset | AtPhase(phase: Phase) | Yes | No | Text(text: string) {
    /** Python truthiness of the stored value. */
    predicate Truthy() {
      match this
      case Unset => false
      case Text(t) => t != ""
      case _ => true
    }
  }

  type Bag = map<Param, Value>

  /** A lookup that finds nothing reads as an unset value. */
  function Get(bag: Bag, p: Param): Value {
    if p in bag then bag[p] else Unset
  }

  /** Writing a parameter that the order does not have changes nothing: the setter then
      fills a dictionary that nobody keeps. */
  function Set(bag: Bag, p: Param, v: Value): Bag {
    if p in bag then bag[p := v] else bag
  }

  function Rank(bag: Bag): nat {
    match Get(bag, PhaseParam)
    case AtPhase(p) => PhaseRank(p)
    case _ => 0
  }

  predicate IsAt(bag: Bag, p: Phase) {
    Get(bag, PhaseParam) == AtPhase(p)
  }

  /** The Master Payer Account id as typed by the customer. */
  datatype AccountId = NoAccount | Blank | Account(id: string, padded: bool)

  /** The part of an order that an update writes back: `context.order["parameters"]`. */
  datatype Order = Order(bag: Bag, mpa: AccountId) {
    function With(p: Param, v: Value): Order {
      this.(bag := Set(bag, p, v))
    }
    function At(p: Phase): Order {
      With(PhaseParam, AtPhase(p))
    }
  }

  datatype Status = Processing | Querying | Failed | Done

  /** History of one order. `created` counts what an outside system made for a parameter,
      `lost` those whose identifier never reached the stored order, and `anonymous` those of them
      that were tickets without an identifier. */
  datatype History = History(
    created: map<Param, nat>,
    lost: map<Param, nat>,
    subscriptions: seq<AccountId>,
    failedSaves: nat,
    anonymous: map<Param, nat>,
    emails: nat,
    acceptedSeen: bool,
    succeededSeen: bool)

  function Count(m: map<Param, nat>, p: Param): nat {
    if p in m then m[p] else 0
  }

  function Bump(m: map<Param, nat>, p: Param): map<Param, nat> {
    m[p := Count(m, p) + 1]
  }

  /** What the platform keeps for the order. `mailed` is the in-process guard
      `notified_order_ids`. Support and account type never change. */
  datatype Server = Server(
    pls: bool,
    newAccount: bool,
    saved: Order,
    status: Status,
    mailed: bool,
    hist: History)

  /** The account id up to surrounding whitespace; a blank one strips to no account at all. */
  function Strip(a: AccountId): (r: AccountId)
    ensures !r.Blank? && (r.Account? ==> !r.padded)
  {
    match a
    case Account(id, _) => Account(id, false)
    case _ => NoAccount
  }
}
