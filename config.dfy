/** The delay classes of the trace generator: `delays` in create_dataset.py, in seconds. */
module Delays {
  datatype DelayClass = Fast | Medium | Slow | VerySlow

  /** The inclusive (lo, hi) range `processing_time` samples from. Every delay is at least one
      second, which is what keeps the clock strictly increasing. */
  function Range(d: DelayClass): (r: (int, int))
    ensures 1 <= r.0 <= r.1
  {
    match d
    case Fast => (1, 3)
    case Medium => (4, 8)
    case Slow => (9, 18)
    case VerySlow => (19, 30)
  }
}

/** The branch probabilities: `probabilities` in create_dataset.py, in whole percent. */
module Probabilities {
  /** `random.random()` is modelled at a resolution of 1/Scale. */
  const Scale: nat := 100

  datatype Key =
    | Discount | GiftWrap | DiscountGiftWrap | ExternalInvent | SecondHand | BundleOffer
    | UserHistory | Visa | AExpress | Mastercard | LimitCheckVisa | FraudCheckVisa
    | LimitCheckAExpress | FraudCheckAExpress | LimitCheckMc | FraudCheckMc | Insurance
    | Express | SupplierNotif | Adjustments | ReviewVerific | ReviewAnalysis | AutoResponse
    | HistoryAccess | PremiumCustomer | AiChatbot

  /** A probability table, each entry in units of 1/Scale. */
  type Table = Key -> nat

  /** The table the source ships with. */
  function Source(k: Key): (p: nat)
    ensures 0 < p < Scale
  {
    match k
    case Discount => 30
    case GiftWrap => 20
    case DiscountGiftWrap => 30
    case ExternalInvent => 15
    case SecondHand => 60
    case BundleOffer => 70
    case UserHistory => 50
    case Visa => 60
    case AExpress => 30
    case Mastercard => 10
    case LimitCheckVisa => 80
    case FraudCheckVisa => 60
    case LimitCheckAExpress => 80
    case FraudCheckAExpress => 60
    case LimitCheckMc => 80
    case FraudCheckMc => 60
    case Insurance => 15
    case Express => 50
    case SupplierNotif => 40
    case Adjustments => 30
    case ReviewVerific => 80
    case ReviewAnalysis => 60
    case AutoResponse => 20
    case HistoryAccess => 10
    case PremiumCustomer => 10
    case AiChatbot => 15
  }

  /** The keys that guard an optional call; the card keys choose among mandatory branches. */
  predicate IsOptional(k: Key) {
    !(k.Visa? || k.AExpress? || k.Mastercard?)
  }

  /** Every optional call has probability zero. */
  predicate NoOptionalCalls(t: Table) {
    forall k :: IsOptional(k) ==> t(k) == 0
  }
}

/** The replica counts: `num_servers` in create_dataset.py. */
module NumServers {
  datatype Key =
    | Ui | PurchaseBook | Discount | GiftWrap | BookAvailability | ExternalInvent | SecondHand
    | BundleOffer | UserCredentials | UserHistory | CardCheck | Visa | AExpress | Mastercard
    | LimitCheckVisa | FraudCheckVisa | LimitCheckAExpress | FraudCheckAExpress | LimitCheckMc
    | FraudCheckMc | CurrencyConversion | ShippingOptions | Insurance | Express | InventoryUpdate
    | SupplierNotif | Adjustments | Review | ReviewVerific | ReviewAnalysis | AutoResponse | Ad
    | CustomerSupport | HistoryAccess | PremiumCustomer | AiChatbot

  /** Every server type has at least one replica, so `randint(1, n)` never raises. */
  function Count(k: Key): (n: nat)
    ensures n >= 1
  {
    match k
    case Ui => 20
    case PurchaseBook => 10
    case Discount => 4
    case GiftWrap => 1
    case BookAvailability => 8
    case ExternalInvent => 2
    case SecondHand => 2
    case BundleOffer => 2
    case UserCredentials => 8
    case UserHistory => 5
    case CardCheck => 10
    case Visa => 5
    case AExpress => 5
    case Mastercard => 5
    case LimitCheckVisa => 20
    case FraudCheckVisa => 5
    case LimitCheckAExpress => 20
    case FraudCheckAExpress => 5
    case LimitCheckMc => 20
    case FraudCheckMc => 5
    case CurrencyConversion => 3
    case ShippingOptions => 2
    case Insurance => 1
    case Express => 1
    case InventoryUpdate => 20
    case SupplierNotif => 3
    case Adjustments => 2
    case Review => 4
    case ReviewVerific => 2
    case ReviewAnalysis => 4
    case AutoResponse => 6
    case Ad => 8
    case CustomerSupport => 10
    case HistoryAccess => 2
    case PremiumCustomer => 1
    case AiChatbot => 8
  }
}
