/** The service topology walked by `simulate_process`: one constructor per nested node handler,
    the arguments each handler passes to `server_process`, its optional calls in order and its
    mandatory call. */
module Topology {
  import opened Text
  import opened Wrappers
  import Delays
  import Probabilities
  import NumServers

  datatype Server =
    | Ui | PurchaseBook | Discount | GiftWrap
    | BookAvailability | ExternalInventory | SecondHandMarket | BundleOffer
    | UserCredentials | UserHistory
    | CardCheck | Visa | LimitCheckVisa | FraudCheckVisa
    | AmericanExpress | LimitCheckAmericanExpress | FraudCheckAmericanExpress
    | Mastercard | LimitCheckMastercard | FraudCheckMastercard
    | CurrencyConversion
    | ShippingOptions | ShippingInsurance | ExpressDelivery
    | InventoryUpdate | SupplierNotification | SeasonalAdjustments
    | Review | ReviewVerification | ReviewAnalysis | AutomaticResponse
    | Ad
    | CustomerSupport | CustomerHistoryAccess | PremiumCustomerCheck | AiChatbot

  /** A server name as it appears in the log: non-empty and free of commas, so that the
      comma-separated fields of a log entry can be read back. */
  type Name = s: string | |s| > 0 && CommaFree(s) witness "user"

  // The names the handlers pass to `server_process`, each checked against `Name` on its own.
  const UiServer: Name := "ui_server"
  const PurchaseBookServer: Name := "purchase_book_server"
  const DiscountServer: Name := "discount_server"
  const BookAvailabilityServer: Name := "book_availability_server"
  const ExternalInventoryServer: Name := "external_inventory_server"
  const SecondHandMarketServer: Name := "second_hand_market_server"
  const BundleOfferServer: Name := "bundle_offer_server"
  const UserCredentialsServer: Name := "user_credentials_server"
  const UserHistoryServer: Name := "user_history_server"
  const CardCheckServer: Name := "card_check_server"
  const VisaServer: Name := "visa_server"
  const LimitCheckVisaServer: Name := "limit_check_visa_server"
  const FraudCheckVisaServer: Name := "fraud_check_visa_server"
  const AmericanExpressServer: Name := "american_express_server"
  const LimitCheckAmericanExpressServer: Name := "limit_check_american_express_server"
  const FraudCheckAmericanExpressServer: Name := "fraud_check_american_express_server"
  const MastercardServer: Name := "mastercard_server"
  const LimitCheckMastercardServer: Name := "limit_check_mastercard_server"
  const FraudCheckMastercardServer: Name := "fraud_check_mastercard_server"
  const CurrencyConversionServer: Name := "currency_conversion_server"
  const ShippingOptionsServer: Name := "shipping_options_server"
  const ShippingInsuranceServer: Name := "shipping_insurance_server"
  const ExpressDeliveryServer: Name := "express_delivery_server"
  const InventoryUpdateServer: Name := "inventory_update_server"
  const SupplierNotificationServer: Name := "supplier_notification_server"
  const SeasonalAdjustmentsServer: Name := "seasonal_adjustments_server"
  const ReviewServer: Name := "review_server"
  const ReviewVerificationServer: Name := "review_verification_server"
  const ReviewAnalysisServer: Name := "review_analysis_server"
  const AutomaticResponseServer: Name := "automatic_response_server"
  const AdServer: Name := "ad_server"
  const CustomerSupportServer: Name := "customer_support_server"
  const CustomerHistoryAccessServer: Name := "customer_history_access_server"
  const PremiumCustomerCheckServer: Name := "premium_customer_check_server"
  const AiChatbotServer: Name := "ai_chatbot_server"

  /** The name a handler logs itself under. The gift-wrap handler logs as "discount_server". */
  function LogName(s: Server): Name {
    match s
    case Ui => UiServer
    case PurchaseBook => PurchaseBookServer
    case Discount => DiscountServer
    case GiftWrap => DiscountServer
    case BookAvailability => BookAvailabilityServer
    case ExternalInventory => ExternalInventoryServer
    case SecondHandMarket => SecondHandMarketServer
    case BundleOffer => BundleOfferServer
    case UserCredentials => UserCredentialsServer
    case UserHistory => UserHistoryServer
    case CardCheck => CardCheckServer
    case Visa => VisaServer
    case LimitCheckVisa => LimitCheckVisaServer
    case FraudCheckVisa => FraudCheckVisaServer
    case AmericanExpress => AmericanExpressServer
    case LimitCheckAmericanExpress => LimitCheckAmericanExpressServer
    case FraudCheckAmericanExpress => FraudCheckAmericanExpressServer
    case Mastercard => MastercardServer
    case LimitCheckMastercard => LimitCheckMastercardServer
    case FraudCheckMastercard => FraudCheckMastercardServer
    case CurrencyConversion => CurrencyConversionServer
    case ShippingOptions => ShippingOptionsServer
    case ShippingInsurance => ShippingInsuranceServer
    case ExpressDelivery => ExpressDeliveryServer
    case InventoryUpdate => InventoryUpdateServer
    case SupplierNotification => SupplierNotificationServer
    case SeasonalAdjustments => SeasonalAdjustmentsServer
    case Review => ReviewServer
    case ReviewVerification => ReviewVerificationServer
    case ReviewAnalysis => ReviewAnalysisServer
    case AutomaticResponse => AutomaticResponseServer
    case Ad => AdServer
    case CustomerSupport => CustomerSupportServer
    case CustomerHistoryAccess => CustomerHistoryAccessServer
    case PremiumCustomerCheck => PremiumCustomerCheckServer
    case AiChatbot => AiChatbotServer
  }

  /** The delay class a handler passes to `server_process`. */
  function DelayOf(s: Server): Delays.DelayClass {
    match s
    case Ui => Delays.Fast
    case PurchaseBook => Delays.Medium
    case Discount => Delays.Medium
    case GiftWrap => Delays.Fast
    case BookAvailability => Delays.Slow
    case ExternalInventory => Delays.Medium
    case SecondHandMarket => Delays.VerySlow
    case BundleOffer => Delays.Medium
    case UserCredentials => Delays.Fast
    case UserHistory => Delays.Medium
    case CardCheck => Delays.Medium
    case Visa => Delays.Slow
    case LimitCheckVisa => Delays.VerySlow
    case FraudCheckVisa => Delays.Slow
    case AmericanExpress => Delays.Medium
    case LimitCheckAmericanExpress => Delays.VerySlow
    case FraudCheckAmericanExpress => Delays.Medium
    case Mastercard => Delays.Slow
    case LimitCheckMastercard => Delays.VerySlow
    case FraudCheckMastercard => Delays.Medium
    case CurrencyConversion => Delays.Fast
    case ShippingOptions => Delays.Medium
    case ShippingInsurance => Delays.Medium
    case ExpressDelivery => Delays.Medium
    case InventoryUpdate => Delays.VerySlow
    case SupplierNotification => Delays.Slow
    case SeasonalAdjustments => Delays.VerySlow
    case Review => Delays.VerySlow
    case ReviewVerification => Delays.Slow
    case ReviewAnalysis => Delays.Slow
    case AutomaticResponse => Delays.Medium
    case Ad => Delays.Slow
    case CustomerSupport => Delays.Slow
    case CustomerHistoryAccess => Delays.Slow
    case PremiumCustomerCheck => Delays.Slow
    case AiChatbot => Delays.Medium
  }

  /** The `num_servers` entry a handler passes to `server_process`. The American Express fraud
      check reads the entry of the American Express limit check. */
  function ReplicaKey(s: Server): NumServers.Key {
    match s
    case Ui => NumServers.Ui
    case PurchaseBook => NumServers.PurchaseBook
    case Discount => NumServers.Discount
    case GiftWrap => NumServers.GiftWrap
    case BookAvailability => NumServers.BookAvailability
    case ExternalInventory => NumServers.ExternalInvent
    case SecondHandMarket => NumServers.SecondHand
    case BundleOffer => NumServers.BundleOffer
    case UserCredentials => NumServers.UserCredentials
    case UserHistory => NumServers.UserHistory
    case CardCheck => NumServers.CardCheck
    case Visa => NumServers.Visa
    case LimitCheckVisa => NumServers.LimitCheckVisa
    case FraudCheckVisa => NumServers.FraudCheckVisa
    case AmericanExpress => NumServers.AExpress
    case LimitCheckAmericanExpress => NumServers.LimitCheckAExpress
    case FraudCheckAmericanExpress => NumServers.LimitCheckAExpress
    case Mastercard => NumServers.Mastercard
    case LimitCheckMastercard => NumServers.LimitCheckMc
    case FraudCheckMastercard => NumServers.FraudCheckMc
    case CurrencyConversion => NumServers.CurrencyConversion
    case ShippingOptions => NumServers.ShippingOptions
    case ShippingInsurance => NumServers.Insurance
    case ExpressDelivery => NumServers.Express
    case InventoryUpdate => NumServers.InventoryUpdate
    case SupplierNotification => NumServers.SupplierNotif
    case SeasonalAdjustments => NumServers.Adjustments
    case Review => NumServers.Review
    case ReviewVerification => NumServers.ReviewVerific
    case ReviewAnalysis => NumServers.ReviewAnalysis
    case AutomaticResponse => NumServers.AutoResponse
    case Ad => NumServers.Ad
    case CustomerSupport => NumServers.CustomerSupport
    case CustomerHistoryAccess => NumServers.HistoryAccess
    case PremiumCustomerCheck => NumServers.PremiumCustomer
    case AiChatbot => NumServers.AiChatbot
  }

  function Replicas(s: Server): (n: nat)
    ensures n >= 1
  {
    NumServers.Count(ReplicaKey(s))
  }

  /** Two arguments kept as the source passes them: the gift-wrap handler logs itself as the
      discount server, and the American Express fraud check takes the replica count of the
      American Express limit check. */
  lemma Quirks()
    ensures LogName(GiftWrap) == LogName(Discount) == "discount_server"
    ensures Replicas(FraudCheckAmericanExpress) == Replicas(LimitCheckAmericanExpress) == 20
  {
  }

  /** The twelve mandatory-spine stops, the card network being one of three. */
  predicate IsCard(s: Server) {
    s.Visa? || s.AmericanExpress? || s.Mastercard?
  }

  predicate OnSpine(s: Server) {
    match s
    case Ui | PurchaseBook | BookAvailability | UserCredentials | CardCheck => true
    case Visa | AmericanExpress | Mastercard => true
    case CurrencyConversion | ShippingOptions | InventoryUpdate | Review | Ad | CustomerSupport => true
    case _ => false
  }

  function Spine(card: Server): seq<Server> {
    [Ui, PurchaseBook, BookAvailability, UserCredentials, CardCheck, card,
     CurrencyConversion, ShippingOptions, InventoryUpdate, Review, Ad, CustomerSupport]
  }

  /** Where a spine server stands on the spine. */
  function SpinePos(s: Server): (p: nat)
    requires OnSpine(s)
    ensures p < 12 && (p == 5 <==> IsCard(s))
  {
    match s
    case Ui => 0
    case PurchaseBook => 1
    case BookAvailability => 2
    case UserCredentials => 3
    case CardCheck => 4
    case Visa => 5
    case AmericanExpress => 5
    case Mastercard => 5
    case CurrencyConversion => 6
    case ShippingOptions => 7
    case InventoryUpdate => 8
    case Review => 9
    case Ad => 10
    case CustomerSupport => 11
  }

  /** The height of a handler in the call graph; every call except the guarded
      discount/gift-wrap pair goes to a lower rank. */
  function Rank(s: Server): nat {
    match s
    case Ui => 13
    case PurchaseBook => 12
    case Discount => 0
    case GiftWrap => 0
    case BookAvailability => 11
    case ExternalInventory => 1
    case SecondHandMarket => 0
    case BundleOffer => 0
    case UserCredentials => 10
    case UserHistory => 0
    case CardCheck => 9
    case Visa => 8
    case LimitCheckVisa => 0
    case FraudCheckVisa => 0
    case AmericanExpress => 8
    case LimitCheckAmericanExpress => 0
    case FraudCheckAmericanExpress => 0
    case Mastercard => 8
    case LimitCheckMastercard => 0
    case FraudCheckMastercard => 0
    case CurrencyConversion => 7
    case ShippingOptions => 6
    case ShippingInsurance => 0
    case ExpressDelivery => 0
    case InventoryUpdate => 5
    case SupplierNotification => 0
    case SeasonalAdjustments => 0
    case Review => 4
    case ReviewVerification => 0
    case ReviewAnalysis => 0
    case AutomaticResponse => 0
    case Ad => 3
    case CustomerSupport => 2
    case CustomerHistoryAccess => 0
    case PremiumCustomerCheck => 1
    case AiChatbot => 0
  }

  /** An optional call: `if random.random() < probabilities[chance]: target(state)`. */
  datatype Optional = Optional(chance: Probabilities.Key, target: Server)

  /** Servers that are called only as the first optional of one parent. */
  predicate FirstChildOnly(s: Server) {
    s.SecondHandMarket? || s.AiChatbot?
  }

  /** The parent of a FirstChildOnly server. */
  predicate ParentOf(p: Server, s: Server) {
    (s.SecondHandMarket? ==> p.ExternalInventory?) && (s.AiChatbot? ==> p.PremiumCustomerCheck?)
  }

  /** The optional calls of the handlers that follow the common shape, in source order. The
      purchase, discount, gift-wrap and card-check handlers are special and have none here. */
  function Optionals(s: Server): seq<Optional> {
    match s
    case BookAvailability =>
      [Optional(Probabilities.ExternalInvent, ExternalInventory),
       Optional(Probabilities.BundleOffer, BundleOffer)]
    case ExternalInventory => [Optional(Probabilities.SecondHand, SecondHandMarket)]
    case UserCredentials => [Optional(Probabilities.UserHistory, UserHistory)]
    case Visa =>
      [Optional(Probabilities.LimitCheckVisa, LimitCheckVisa),
       Optional(Probabilities.FraudCheckVisa, FraudCheckVisa)]
    case AmericanExpress =>
      [Optional(Probabilities.LimitCheckAExpress, LimitCheckAmericanExpress),
       Optional(Probabilities.FraudCheckAExpress, FraudCheckAmericanExpress)]
    case Mastercard =>
      [Optional(Probabilities.LimitCheckMc, LimitCheckMastercard),
       Optional(Probabilities.FraudCheckMc, FraudCheckMastercard)]
    case ShippingOptions =>
      [Optional(Probabilities.Insurance, ShippingInsurance),
       Optional(Probabilities.Express, ExpressDelivery)]
    case InventoryUpdate =>
      [Optional(Probabilities.SupplierNotif, SupplierNotification),
       Optional(Probabilities.Adjustments, SeasonalAdjustments)]
    case Review =>
      [Optional(Probabilities.ReviewVerific, ReviewVerification),
       Optional(Probabilities.ReviewAnalysis, ReviewAnalysis),
       Optional(Probabilities.AutoResponse, AutomaticResponse)]
    case CustomerSupport =>
      [Optional(Probabilities.HistoryAccess, CustomerHistoryAccess),
       Optional(Probabilities.PremiumCustomer, PremiumCustomerCheck)]
    case PremiumCustomerCheck => [Optional(Probabilities.AiChatbot, AiChatbot)]
    case _ => []
  }

  /** The mandatory call a handler makes last, if any. The card check chooses its mandatory
      call among the three card networks, and the discount and gift-wrap handlers have none. */
  function Next(s: Server): Option<Server> {
    match s
    case Ui => Some(PurchaseBook)
    case PurchaseBook => Some(BookAvailability)
    case BookAvailability => Some(UserCredentials)
    case UserCredentials => Some(CardCheck)
    case Visa => Some(CurrencyConversion)
    case AmericanExpress => Some(CurrencyConversion)
    case Mastercard => Some(CurrencyConversion)
    case CurrencyConversion => Some(ShippingOptions)
    case ShippingOptions => Some(InventoryUpdate)
    case InventoryUpdate => Some(Review)
    case Review => Some(Ad)
    case Ad => Some(CustomerSupport)
    case _ => None
  }

  // The facts below are the topology's well-formedness conditions.

  /** A spine position names the spine server that stands there. */
  lemma SpinePosFacts(s: Server)
    requires OnSpine(s)
    ensures SpinePos(s) < 12 && (IsCard(s) <==> SpinePos(s) == 5)
    ensures forall card :: IsCard(card) && (IsCard(s) ==> card == s) ==> Spine(card)[SpinePos(s)] == s
  {
  }

  /** The optional calls of the `Optionals` table go down in rank. The discount/gift-wrap pair,
      handled outside the table, ends through the flag instead (`Traversal.Flag`). */
  lemma OptionalsRank(s: Server)
    ensures forall i :: 0 <= i < |Optionals(s)| ==> Rank(Optionals(s)[i].target) < Rank(s)
  {
  }

  /** The optional calls of the `Optionals` table never reach the spine. */
  lemma OptionalsOffSpine(s: Server)
    ensures forall i :: 0 <= i < |Optionals(s)| ==> !OnSpine(Optionals(s)[i].target)
  {
  }

  /** The optional calls of the `Optionals` table are guarded by optional-call probabilities
      and never reach the discount/gift-wrap pair; the purchase, discount, gift-wrap and
      card-check handlers make their calls outside the table and have no entries in it. */
  lemma OptionalsGuarded(s: Server)
    ensures forall i :: 0 <= i < |Optionals(s)| ==> Probabilities.IsOptional(Optionals(s)[i].chance)
    ensures forall i :: 0 <= i < |Optionals(s)| ==>
      !Optionals(s)[i].target.Discount? && !Optionals(s)[i].target.GiftWrap?
    ensures s.PurchaseBook? || s.Discount? || s.GiftWrap? || s.CardCheck? ==> Optionals(s) == []
  {
  }

  /** A server that is only ever a first optional call is called by its one parent. */
  lemma OptionalsParents(s: Server)
    ensures forall i :: 0 <= i < |Optionals(s)| ==> ParentOf(s, Optionals(s)[i].target)
    ensures forall i :: 1 <= i < |Optionals(s)| ==> !FirstChildOnly(Optionals(s)[i].target)
  {
  }

  /** The mandatory call of the `Next` table goes down in rank, and only spine servers other than
      the card check (whose call is the card choice) and customer support have one. */
  lemma NextRank(s: Server)
    ensures Next(s).Some? <==> OnSpine(s) && !s.CardCheck? && !s.CustomerSupport?
    ensures Next(s).Some? ==> Rank(Next(s).value) < Rank(s)
  {
  }

  /** The mandatory call of the `Next` table goes one step along the spine. */
  lemma NextSpine(s: Server)
    ensures Next(s).Some? ==> OnSpine(Next(s).value) && !IsCard(Next(s).value)
    ensures Next(s).Some? ==> SpinePos(Next(s).value) == SpinePos(s) + 1
    ensures Next(s).Some? ==> !Next(s).value.Ui? && !FirstChildOnly(Next(s).value)
    ensures Next(s).Some? ==> (Next(s).value.PurchaseBook? <==> s.Ui?)
  {
  }
}
