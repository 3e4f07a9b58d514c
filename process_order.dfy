/** The order intake handler (`POST /api/process-order`): request validation, pricing,
    user upsert, order creation or payment update, payment and voucher recording,
    shipping address recording and the confirmation e-mails, over an abstract database. */
module ProcessOrder {
  import opened Common

  // ---------------------------------------------------------------------------
  // Request body

  datatype CardConfig = CardConfig(
    firstName: Option<string>,
    lastName: Option<string>,
    quantity: Option<real>,
    isDigitalOnly: bool,          // truthiness of `cardConfig.isDigitalOnly`
    baseMaterial: Option<string>)

  datatype CheckoutData = CheckoutData(
    email: Option<string>,
    fullName: Option<string>,
    phoneNumber: Option<string>,
    addressLine1: Option<string>,
    addressLine2: Option<string>,
    city: Option<string>,
    state: Option<string>,
    country: Option<string>,
    postalCode: Option<string>)

  /** `voucherAmount` is None when it is `undefined` or `null`. */
  datatype PaymentData = PaymentData(
    paymentMethod: Option<string>,
    paymentId: Option<string>,
    voucherCode: Option<string>,
    voucherDiscount: Option<real>,
    voucherAmount: Option<real>)

  datatype PricingInput = PricingInput(
    subtotal: Option<real>, shipping: Option<real>, tax: Option<real>, total: Option<real>)

  datatype OrderRequest = OrderRequest(
    cardConfig: Option<CardConfig>,
    checkoutData: Option<CheckoutData>,
    paymentData: Option<PaymentData>,
    orderId: Option<string>,
    pricing: Option<PricingInput>)

  // ---------------------------------------------------------------------------
  // Records of the database

  datatype Pricing = Pricing(subtotal: real, shipping: real, tax: real, total: real)

  datatype OrderStatus = Pending | Confirmed

  datatype PlanType = DigitalOnly | DigitalProfileApp | NfcCardFull

  datatype Shipping = Shipping(
    fullName: Option<string>,
    addressLine1: Option<string>,
    addressLine2: Option<string>,
    city: Option<string>,
    state: Option<string>,
    country: Option<string>,
    postalCode: Option<string>,
    phoneNumber: Option<string>)

  datatype AuditEntry = AuditEntry(sent: bool, timestamp: int, messageId: Option<string>)
  datatype EmailAudit = EmailAudit(confirmation: AuditEntry, receipt: AuditEntry)

  datatype OrderRow = OrderRow(
    id: string,
    orderNumber: string,
    userId: string,
    status: OrderStatus,
    customerName: Option<string>,
    email: Option<string>,
    phoneNumber: string,
    cardConfig: CardConfig,
    pricing: Pricing,
    shipping: Shipping,
    paymentMethod: Option<string>,
    paymentId: Option<string>,
    voucherCode: Option<string>,
    voucherDiscount: real,
    emailsSent: Option<EmailAudit>)

  datatype UserRow = UserRow(
    id: string,
    email: string,
    firstName: Option<string>,
    lastName: Option<string>,
    phoneNumber: Option<string>,
    emailVerified: bool,
    mobileVerified: bool)

  datatype Currency = USD | INR

  datatype PaymentRow = PaymentRow(
    orderId: string,
    paymentIntentId: string,
    amount: int,
    currency: Currency,
    paymentMethod: string,
    voucherCode: Option<string>,
    voucherDiscount: Option<real>)

  datatype VoucherRow = VoucherRow(id: string, usedCount: int)

  datatype VoucherUsageRow = VoucherUsageRow(
    voucherId: string, userId: string, userEmail: Option<string>, orderId: string, discount: real)

  datatype AddressRow = AddressRow(userId: string, orderId: string, address: Shipping, isDefault: bool)

  datatype EmailKind = ConfirmationEmail | ReceiptEmail

  // ---------------------------------------------------------------------------
  // What the handler receives from its collaborators

  datatype SendResult = SendResult(success: bool, messageId: Option<string>)
  datatype EmailResults = EmailResults(confirmation: SendResult, receipt: SendResult)

  /** Which database writes fail by returning null or an error value. A store or sender that
      throws is not modelled. */
  datatype Faults = Faults(
    userUpsert: bool, orderWrite: bool, payment: bool, voucher: VoucherFaults, address: bool, emailAudit: bool)

  /** The three voucher calls fail on their own: the lookup, the usage insert and the count
      update. Their errors are not checked, so a failed write does not stop the next one. */
  datatype VoucherFaults = VoucherFaults(lookup: bool, usageInsert: bool, countUpdate: bool)

  /** Results of the collaborators and of the clock, which the model takes as inputs. */
  datatype Environment = Environment(
    newUserId: string,
    newOrderId: string,
    orderNumberFor: PlanType -> string,
    now: nat,
    emailResults: EmailResults,
    faults: Faults)

  datatype Response =
    | Failed(status: nat, error: string)
    | Succeeded(order: OrderRow, emailResults: Option<EmailResults>)

  /** The order once it is created or updated, or the answer given instead. */
  datatype Placement = Placed(order: OrderRow) | NotPlaced(answer: Response)

  // ---------------------------------------------------------------------------
  // Pure decision rules

  predicate HasRequiredData(req: OrderRequest) {
    req.cardConfig.Some? && req.checkoutData.Some?
  }

  /** `x || 0` on a number. */
  function NumOrZero(x: Option<real>): real {
    if x.Some? && x.value != 0.0 then x.value else 0.0
  }

  /** Supplied pricing is copied field by field; otherwise a flat unit price of 29.99,
      a 5.00 shipping fee and a 5.75% tax on the subtotal. */
  function Prices(cfg: CardConfig, pricing: Option<PricingInput>): (r: Pricing)
    ensures pricing.Some? ==>
      r == Pricing(pricing.value.subtotal.GetOr(0.0), pricing.value.shipping.GetOr(0.0),
                   pricing.value.tax.GetOr(0.0), pricing.value.total.GetOr(0.0))
    ensures pricing.None? ==> r.total == r.subtotal + r.shipping + r.tax
    ensures pricing.None? ==> r.shipping == 5.0 && r.tax == r.subtotal * 0.0575
  {
    match pricing
    case Some(p) =>
      Pricing(NumOrZero(p.subtotal), NumOrZero(p.shipping), NumOrZero(p.tax), NumOrZero(p.total))
    case None =>
      var quantity := if cfg.quantity.Some? && cfg.quantity.value != 0.0 then cfg.quantity.value else 1.0;
      var subtotal := 29.99 * quantity;
      var tax := subtotal * 0.0575;
      Pricing(subtotal, 5.0, tax, subtotal + 5.0 + tax)
  }

  function StatusFor(payment: Option<PaymentData>): (s: OrderStatus)
    ensures s == Confirmed <==> payment.Some?
  {
    if payment.Some? then Confirmed else Pending
  }

  /** First matching rule wins: the three tags are told apart by these conditions. */
  function PlanTypeOf(cfg: CardConfig, total: real): (t: PlanType)
    ensures t == DigitalOnly <==> cfg.isDigitalOnly && total == 0.0
    ensures t == DigitalProfileApp <==>
      !(cfg.isDigitalOnly && total == 0.0) && cfg.baseMaterial == Some("digital") && (cfg.isDigitalOnly || total > 0.0)
    ensures t == NfcCardFull <==>
      !(cfg.isDigitalOnly && total == 0.0) && !(cfg.baseMaterial == Some("digital") && (cfg.isDigitalOnly || total > 0.0))
  {
    if cfg.isDigitalOnly && total == 0.0 then DigitalOnly
    else if cfg.baseMaterial == Some("digital") && (cfg.isDigitalOnly || total > 0.0) then DigitalProfileApp
    else NfcCardFull
  }

  /** A free order of digital material without the digital-only flag is a full NFC card order. */
  lemma FreeDigitalWithoutFlagIsNfcCard(cfg: CardConfig)
    requires !cfg.isDigitalOnly && cfg.baseMaterial == Some("digital")
    ensures PlanTypeOf(cfg, 0.0) == NfcCardFull
  {
  }

  // --- order id format sniff ---

  predicate IsHex(c: char) {
    IsDigit(c) || 'a' <= c <= 'f' || 'A' <= c <= 'F'
  }

  predicate AllHex(s: string) {
    forall i :: 0 <= i < |s| ==> IsHex(s[i])
  }

  /** Groups of hex digits of the given lengths, separated by single '-'. */
  predicate HexGroups(s: string, lengths: seq<nat>)
    decreases |lengths|
  {
    if |lengths| == 0 then false
    else if |lengths| == 1 then |s| == lengths[0] && AllHex(s)
    else |s| > lengths[0] && AllHex(s[..lengths[0]]) && s[lengths[0]] == '-'
         && HexGroups(s[lengths[0] + 1..], lengths[1..])
  }

  /** `/^[0-9a-f]{8}-[0-9a-f]{4}-[0-9a-f]{4}-[0-9a-f]{4}-[0-9a-f]{12}$/i`. */
  predicate IsUuid(s: string) {
    HexGroups(s, [8, 4, 4, 4, 12])
  }

  predicate IsDashPosition(i: int) {
    i == 8 || i == 13 || i == 18 || i == 23
  }

  /** The same pattern stated position by position. */
  predicate UuidByPosition(s: string) {
    |s| == 36 && forall i :: 0 <= i < 36 ==> if IsDashPosition(i) then s[i] == '-' else IsHex(s[i])
  }

  lemma HexGroupsLast(s: string, n: nat)
    ensures HexGroups(s, [n]) <==> |s| == n && AllHex(s)
  {
  }

  lemma HexGroupsStep(s: string, n: nat, rest: seq<nat>)
    requires |rest| >= 1
    ensures HexGroups(s, [n] + rest) <==>
      |s| > n && AllHex(s[..n]) && s[n] == '-' && HexGroups(s[n + 1..], rest)
  {
    assert ([n] + rest)[1..] == rest;
  }

  lemma UuidPositions(s: string)
    ensures IsUuid(s) <==> UuidByPosition(s)
  {
    HexGroupsStep(s, 8, [4, 4, 4, 12]);
    if |s| > 8 {
      var s1 := s[9..];
      HexGroupsStep(s1, 4, [4, 4, 12]);
      if |s1| > 4 {
        var s2 := s1[5..];
        HexGroupsStep(s2, 4, [4, 12]);
        if |s2| > 4 {
          var s3 := s2[5..];
          HexGroupsStep(s3, 4, [12]);
          if |s3| > 4 {
            HexGroupsLast(s3[5..], 12);
            assert s3[5..] == s[24..];
            if |s| == 36 {
              assert s1[..4] == s[9..13] && s2[..4] == s[14..18] && s3[..4] == s[19..23];
              assert UuidByPosition(s) ==>
                (AllHex(s[..8]) && AllHex(s[9..13]) && AllHex(s[14..18]) && AllHex(s[19..23]) && AllHex(s[24..]));
              assert IsUuid(s) ==> UuidByPosition(s) by {
                if IsUuid(s) {
                  forall i | 0 <= i < 36 && !IsDashPosition(i) ensures IsHex(s[i]) {
                    if i < 8 { assert s[i] == s[..8][i]; }
                    else if i < 13 { assert s[i] == s[9..13][i - 9]; }
                    else if i < 18 { assert s[i] == s[14..18][i - 14]; }
                    else if i < 23 { assert s[i] == s[19..23][i - 19]; }
                    else { assert s[i] == s[24..][i - 24]; }
                  }
                }
              }
            }
          }
        }
      }
    }
  }

  datatype OrderKey = ById(id: string) | ByNumber(number: string)

  /** A UUID-shaped order id is looked up as the internal id, anything else as an order number. */
  function LookupKey(orderId: string): (k: OrderKey)
    ensures k.ById? <==> UuidByPosition(orderId)
    ensures k == ById(orderId) || k == ByNumber(orderId)
  {
    UuidPositions(orderId);
    if IsUuid(orderId) then ById(orderId) else ByNumber(orderId)
  }

  // --- the update patch ---

  datatype PaymentPatch = PaymentPatch(
    paymentMethod: Option<string>, paymentId: Option<string>, voucherCode: Option<string>, voucherDiscount: real)

  datatype OrderPatch = OrderPatch(status: OrderStatus, payment: Option<PaymentPatch>)

  /** Always the status; the payment fields only with a payment payload, the voucher code
      defaulting to null and the voucher discount to 0. */
  function UpdatePatch(payment: Option<PaymentData>): (p: OrderPatch)
    ensures p.status == StatusFor(payment)
    ensures p.payment.Some? <==> payment.Some?
    ensures payment.Some? ==> p.payment.value.paymentMethod == payment.value.paymentMethod
    ensures payment.Some? ==> p.payment.value.paymentId == payment.value.paymentId
    ensures payment.Some? ==> p.payment.value.voucherCode == (if StrTruthy(payment.value.voucherCode) then payment.value.voucherCode else None)
    ensures payment.Some? ==> p.payment.value.voucherDiscount == NumOrZero(payment.value.voucherDiscount)
  {
    match payment
    case None => OrderPatch(Pending, None)
    case Some(pd) =>
      OrderPatch(Confirmed, Some(PaymentPatch(pd.paymentMethod, pd.paymentId,
        StrOr(pd.voucherCode, None), NumOrZero(pd.voucherDiscount))))
  }

  /** A field set to `undefined` is dropped when the patch is serialized, so it keeps its value. */
  function ApplyPatch(o: OrderRow, p: OrderPatch): (r: OrderRow)
    ensures r.status == p.status
    ensures p.payment.None? ==> r == o.(status := p.status)
    ensures p.payment.Some? ==>
      r.voucherCode == p.payment.value.voucherCode && r.voucherDiscount == p.payment.value.voucherDiscount
    // an undefined method or id is left out of the update, so the stored one stays
    ensures p.payment.Some? ==>
      r.paymentMethod == (if p.payment.value.paymentMethod.Some? then p.payment.value.paymentMethod else o.paymentMethod)
      && r.paymentId == (if p.payment.value.paymentId.Some? then p.payment.value.paymentId else o.paymentId)
  {
    match p.payment
    case None => o.(status := p.status)
    case Some(pp) =>
      o.(status := p.status,
         paymentMethod := if pp.paymentMethod.Some? then pp.paymentMethod else o.paymentMethod,
         paymentId := if pp.paymentId.Some? then pp.paymentId else o.paymentId,
         voucherCode := pp.voucherCode,
         voucherDiscount := pp.voucherDiscount)
  }

  /** The patch leaves every field but status and the four payment fields as it was. */
  lemma PatchTouchesOnlyPaymentFields(o: OrderRow, payment: Option<PaymentData>)
    ensures var r := ApplyPatch(o, UpdatePatch(payment));
      r.(status := o.status, paymentMethod := o.paymentMethod, paymentId := o.paymentId,
         voucherCode := o.voucherCode, voucherDiscount := o.voucherDiscount) == o
    ensures payment.None? ==> ApplyPatch(o, UpdatePatch(payment)) == o.(status := Pending)
  {
  }

  // --- user names ---

  function FirstNamePart(fullName: Option<string>): Option<string> {
    if fullName.Some? then Some(Split(fullName.value, ' ')[0]) else None
  }

  function LastNamePart(fullName: Option<string>): Option<string> {
    if fullName.Some? then Some(Join(Split(fullName.value, ' ')[1..], ' ')) else None
  }

  /** The first name is the text before the first space. */
  lemma FirstNameIsPrefix(s: string)
    ensures FirstNamePart(Some(s)) == Some(TakeUntil(s, ' '))
    ensures ' ' !in FirstNamePart(Some(s)).value
  {
    SplitHead(s, ' ');
  }

  lemma {:induction false} SplitHasTwoParts(s: string, c: char)
    requires c in s
    ensures |Split(s, c)| >= 2
  {
    if s[0] != c {
      SplitHasTwoParts(s[1..], c);
    }
  }

  /** The first and last name put back together with one space give the full name. */
  lemma NameSplitRejoins(s: string)
    requires ' ' in s
    ensures FirstNamePart(Some(s)).value + " " + LastNamePart(Some(s)).value == s
  {
    var parts := Split(s, ' ');
    SplitHasTwoParts(s, ' ');
    JoinSplit(s, ' ');
    assert Join(parts, ' ') == parts[0] + [' '] + Join(parts[1..], ' ');
  }

  /** With no space, the whole name is the first name and the last name is empty. */
  lemma NameWithoutSpace(s: string)
    requires ' ' !in s
    ensures FirstNamePart(Some(s)) == Some(s) && LastNamePart(Some(s)) == Some("")
  {
    SplitWithoutSeparator(s, ' ');
  }

  function UserFirstName(checkout: CheckoutData, cfg: CardConfig): Option<string> {
    StrOr(FirstNamePart(checkout.fullName), cfg.firstName)
  }

  function UserLastName(checkout: CheckoutData, cfg: CardConfig): Option<string> {
    StrOr(LastNamePart(checkout.fullName), cfg.lastName)
  }

  /** When neither part falls back to the card configuration, they rejoin to the full name. */
  lemma UserNamesRejoin(checkout: CheckoutData, cfg: CardConfig)
    requires checkout.fullName.Some?
    requires StrTruthy(FirstNamePart(checkout.fullName)) && StrTruthy(LastNamePart(checkout.fullName))
    ensures UserFirstName(checkout, cfg).value + " " + UserLastName(checkout, cfg).value == checkout.fullName.value
  {
    var s := checkout.fullName.value;
    if ' ' !in s {
      NameWithoutSpace(s);
    } else {
      NameSplitRejoins(s);
    }
  }

  // --- payment and voucher ---

  /** The explicit amount wins whenever it is given; else a percentage of the total. */
  function VoucherDiscountAmount(p: PaymentData, total: real): (d: real)
    ensures p.voucherAmount.Some? ==> d == p.voucherAmount.value
    ensures p.voucherAmount.None? && NumOrZero(p.voucherDiscount) == 0.0 ==> d == 0.0
    ensures p.voucherAmount.None? && total >= 0.0 && 0.0 <= NumOrZero(p.voucherDiscount) <= 100.0 ==>
      0.0 <= d <= total
  {
    if p.voucherAmount.Some? then p.voucherAmount.value
    else
      var percent := NumOrZero(p.voucherDiscount);
      if percent != 0.0 then
        assert total >= 0.0 && 0.0 <= percent <= 100.0 ==> 0.0 <= total * percent <= total * 100.0;
        total * percent / 100.0
      else 0.0
  }

  function CurrencyFor(country: Option<string>): (c: Currency)
    ensures c == INR <==> country == Some("IN") || country == Some("India")
  {
    if country == Some("IN") || country == Some("India") then INR else USD
  }

  /** `Math.round(x)`: halves round up. */
  function Round(x: real): (n: int)
    ensures n as real - 0.5 <= x < n as real + 0.5
  {
    (x + 0.5).Floor
  }

  /** The shipping snapshot stored on a created order: the phone defaults to ''. */
  function ShippingOf(checkout: CheckoutData): Shipping {
    Shipping(checkout.fullName, checkout.addressLine1, checkout.addressLine2, checkout.city,
             checkout.state, checkout.country, checkout.postalCode, Some(StrOrEmpty(checkout.phoneNumber)))
  }

  /** The shipping address record drops falsy optional fields (`|| undefined`). */
  function AddressOf(checkout: CheckoutData): Shipping {
    Shipping(checkout.fullName, checkout.addressLine1,
             if StrTruthy(checkout.addressLine2) then checkout.addressLine2 else None,
             checkout.city, checkout.state, checkout.country, checkout.postalCode,
             if StrTruthy(checkout.phoneNumber) then checkout.phoneNumber else None)
  }

  /** The order snapshot and the address record differ only where the checkout left the
      second address line or the phone empty: '' in the snapshot, absent in the record. */
  lemma SnapshotMatchesAddressRecord(checkout: CheckoutData)
    ensures ShippingOf(checkout).(addressLine2 := None, phoneNumber := None)
         == AddressOf(checkout).(addressLine2 := None, phoneNumber := None)
    ensures StrTruthy(checkout.phoneNumber) ==> ShippingOf(checkout).phoneNumber == AddressOf(checkout).phoneNumber
    ensures !StrTruthy(checkout.phoneNumber) ==> ShippingOf(checkout).phoneNumber == Some("") && AddressOf(checkout).phoneNumber.None?
    ensures StrTruthy(checkout.addressLine2) ==> ShippingOf(checkout).addressLine2 == AddressOf(checkout).addressLine2
  {
  }

  /** A created order: the generated id and number, the caller's user, the customer's name,
      e-mail and phone (defaulting to ''), the card configuration and pricing as computed,
      the shipping snapshot, and no payment, voucher or e-mail audit yet. */
  function NewOrder(env: Environment, userId: string, status: OrderStatus, cfg: CardConfig,
                    checkout: CheckoutData, prices: Pricing): (o: OrderRow)
    ensures o.id == env.newOrderId && o.userId == userId
    ensures o.status == status && o.pricing == prices && o.emailsSent.None?
    ensures o.orderNumber == env.orderNumberFor(PlanTypeOf(cfg, prices.total))
    ensures o.customerName == checkout.fullName && o.email == checkout.email
    ensures o.phoneNumber == StrOrEmpty(checkout.phoneNumber) && o.cardConfig == cfg
    ensures o.shipping == ShippingOf(checkout) && o.shipping.phoneNumber == Some(o.phoneNumber)
    ensures o.paymentMethod.None? && o.paymentId.None? && o.voucherCode.None? && o.voucherDiscount == 0.0
  {
    OrderRow(env.newOrderId, env.orderNumberFor(PlanTypeOf(cfg, prices.total)), userId, status,
             checkout.fullName, checkout.email, StrOrEmpty(checkout.phoneNumber), cfg, prices,
             ShippingOf(checkout), None, None, None, 0.0, None)
  }

  /** Paying for an order created earlier keeps everything it was created with: only the
      status and the payment fields change. */
  lemma PaymentKeepsCreatedOrder(env: Environment, userId: string, cfg: CardConfig, checkout: CheckoutData,
                                 prices: Pricing, pd: PaymentData)
    ensures var created := NewOrder(env, userId, Pending, cfg, checkout, prices);
      var paid := ApplyPatch(created, UpdatePatch(Some(pd)));
      && paid.status == Confirmed
      && paid.(status := Pending, paymentMethod := None, paymentId := None, voucherCode := None, voucherDiscount := 0.0) == created
      && paid.paymentMethod == pd.paymentMethod && paid.paymentId == pd.paymentId
  {
    var created := NewOrder(env, userId, Pending, cfg, checkout, prices);
    PatchTouchesOnlyPaymentFields(created, Some(pd));
  }

  /** The user row the upsert writes for a checkout with an e-mail. */
  function UserFor(users: map<string, UserRow>, checkout: CheckoutData, cfg: CardConfig, env: Environment): UserRow
    requires checkout.email.Some?
  {
    var e := checkout.email.value;
    UserRow(if e in users then users[e].id else env.newUserId, e,
            UserFirstName(checkout, cfg), UserLastName(checkout, cfg),
            if StrTruthy(checkout.phoneNumber) then checkout.phoneNumber else None,
            true, StrTruthy(checkout.phoneNumber))
  }

  /** The payment row for a paid order. */
  function PaymentRowFor(pd: PaymentData, orderId: string, checkout: CheckoutData, prices: Pricing, env: Environment): PaymentRow {
    PaymentRow(
      orderId,
      if StrTruthy(pd.paymentId) then pd.paymentId.value else "payment_" + NatToString(env.now),
      Round(prices.total * 100.0),
      CurrencyFor(checkout.country),
      if StrTruthy(pd.paymentMethod) then pd.paymentMethod.value else "unknown",
      pd.voucherCode, pd.voucherDiscount)
  }

  /** The voucher usage row, before the voucher's id is filled in. */
  function UsageFor(pd: PaymentData, userId: string, checkout: CheckoutData, orderId: string, prices: Pricing): VoucherUsageRow {
    VoucherUsageRow("", userId, checkout.email, orderId, VoucherDiscountAmount(pd, prices.total))
  }

  /** The order as returned: with a payment, the e-mail audit written to it unless that
      write failed. */
  function Emailed(o: OrderRow, payment: Option<PaymentData>, env: Environment): (r: OrderRow)
    ensures r == o.(emailsSent := r.emailsSent) && r.id == o.id && r.status == o.status
    ensures payment.Some? && !env.faults.emailAudit ==> r.emailsSent == Some(AuditOf(env))
    ensures payment.None? || env.faults.emailAudit ==> r == o
  {
    if payment.Some? && !env.faults.emailAudit then o.(emailsSent := Some(AuditOf(env))) else o
  }

  // ---------------------------------------------------------------------------
  // The database the handler writes to

  class OrderDatabase {
    var users: map<string, UserRow>        // keyed by e-mail
    var orders: map<string, OrderRow>      // keyed by internal id
    var payments: seq<PaymentRow>
    var vouchers: map<string, VoucherRow>  // keyed by code
    var voucherUsage: seq<VoucherUsageRow>
    var addresses: seq<AddressRow>
    var outbox: seq<(string, EmailKind)>   // e-mails handed to the sender, by order id

    constructor ()
      ensures users == map[] && orders == map[] && payments == [] && vouchers == map[]
      ensures voucherUsage == [] && addresses == [] && outbox == []
    {
      users, orders, payments, vouchers := map[], map[], [], map[];
      voucherUsage, addresses, outbox := [], [], [];
    }

    /** Upsert keyed by e-mail; an existing user keeps its id. Without an e-mail the upsert fails. */
    method UpsertUser(checkout: CheckoutData, cfg: CardConfig, env: Environment)
      returns (ok: bool, userId: string)
      modifies this`users
      ensures ok <==> !env.faults.userUpsert && checkout.email.Some?
      ensures !ok ==> users == old(users)
      ensures ok ==> var e := checkout.email.value;
        userId == (if e in old(users) then old(users)[e].id else env.newUserId) &&
        users == old(users)[e := UserRow(userId, e, UserFirstName(checkout, cfg), UserLastName(checkout, cfg),
                                         if StrTruthy(checkout.phoneNumber) then checkout.phoneNumber else None,
                                         true, StrTruthy(checkout.phoneNumber))]
      ensures ok ==> users == old(users)[checkout.email.value := UserFor(old(users), checkout, cfg, env)]
      ensures ok ==> userId == UserFor(old(users), checkout, cfg, env).id
    {
      if env.faults.userUpsert || checkout.email.None? {
        return false, "";
      }
      var row := UserFor(users, checkout, cfg, env);
      userId := row.id;
      users := users[checkout.email.value := row];
      ok := true;
    }

    /** Every order is stored under its own id. */
    ghost predicate Valid()
      reads this`orders
    {
      forall id :: id in orders ==> orders[id].id == id
    }

    /** Looks an order up by the key its id's format selects. */
    method FindOrder(orderId: string) returns (found: Option<OrderRow>)
      requires Valid()
      ensures LookupKey(orderId).ById? ==>
        found == (if orderId in orders then Some(orders[orderId]) else None)
      ensures LookupKey(orderId).ByNumber? ==>
        (found.None? <==> forall id :: id in orders ==> orders[id].orderNumber != orderId)
      ensures LookupKey(orderId).ByNumber? && found.Some? ==> found.value.orderNumber == orderId
      ensures found.Some? ==> found.value.id in orders && orders[found.value.id] == found.value
    {
      match LookupKey(orderId)
      case ById(id) =>
        found := if id in orders then Some(orders[id]) else None;
      case ByNumber(n) =>
        if id :| id in orders && orders[id].orderNumber == n {
          found := Some(orders[id]);
        } else {
          found := None;
        }
    }

    /** Best effort: a payment row, then voucher tracking; a failure is swallowed. */
    method RecordPayment(pd: PaymentData, order: OrderRow, userId: string, checkout: CheckoutData,
                         prices: Pricing, env: Environment)
      modifies this`payments, this`vouchers, this`voucherUsage
      ensures env.faults.payment ==> payments == old(payments)
      ensures !env.faults.payment ==> payments == old(payments) + [PaymentRowFor(pd, order.id, checkout, prices, env)]
      ensures !env.faults.payment ==> var row := payments[|payments| - 1];
        && row.orderId == order.id && row.amount == Round(prices.total * 100.0)
        && (StrTruthy(pd.paymentId) ==> row.paymentIntentId == pd.paymentId.value)
        && (!StrTruthy(pd.paymentId) ==> row.paymentIntentId == "payment_" + NatToString(env.now))
        && (StrTruthy(pd.paymentMethod) ==> row.paymentMethod == pd.paymentMethod.value)
        && (!StrTruthy(pd.paymentMethod) ==> row.paymentMethod == "unknown")
        && row.currency == CurrencyFor(checkout.country)
        && row.voucherCode == pd.voucherCode && row.voucherDiscount == pd.voucherDiscount
      ensures env.faults.payment || !StrTruthy(pd.voucherCode) ==>
        vouchers == old(vouchers) && voucherUsage == old(voucherUsage)
      ensures !env.faults.payment && StrTruthy(pd.voucherCode) ==>
        TrackedVoucher(old(vouchers), old(voucherUsage), vouchers, voucherUsage,
                       ToUpper(pd.voucherCode.value), env.faults.voucher,
                       UsageFor(pd, userId, checkout, order.id, prices))
    {
      if env.faults.payment {
        return;
      }
      payments := payments + [PaymentRowFor(pd, order.id, checkout, prices, env)];
      if StrTruthy(pd.voucherCode) {
        TrackVoucher(ToUpper(pd.voucherCode.value), env.faults.voucher, UsageFor(pd, userId, checkout, order.id, prices));
      }
    }

    /** Looks the voucher up by code; if it exists, records one usage and writes back the
        usage count read plus one, each write on its own and neither stopping the other. */
    method TrackVoucher(code: string, fails: VoucherFaults, usage: VoucherUsageRow)
      modifies this`vouchers, this`voucherUsage
      ensures TrackedVoucher(old(vouchers), old(voucherUsage), vouchers, voucherUsage, code, fails, usage)
    {
      if !fails.lookup && code in vouchers {
        var v := vouchers[code];
        if !fails.usageInsert {
          voucherUsage := voucherUsage + [usage.(voucherId := v.id)];
        }
        if !fails.countUpdate {
          vouchers := vouchers[code := v.(usedCount := v.usedCount + 1)];
        }
      }
    }

    /** Best effort: a shipping address row for the order, never marked default. */
    method RecordAddress(userId: string, order: OrderRow, checkout: CheckoutData, fails: bool)
      modifies this`addresses
      ensures addresses == old(addresses) + (if fails then [] else [AddressRow(userId, order.id, AddressOf(checkout), false)])
    {
      if !fails {
        addresses := addresses + [AddressRow(userId, order.id, AddressOf(checkout), false)];
      }
    }

    /** Both lifecycle e-mails are handed to the sender; the outcome is written to the order's
        audit map, and if that write fails the unpatched order is returned. */
    method SendEmails(order: OrderRow, env: Environment) returns (finalOrder: OrderRow)
      requires Valid() && order.id in orders
      modifies this`outbox, this`orders
      ensures Valid()
      ensures outbox == old(outbox) + [(order.id, ConfirmationEmail), (order.id, ReceiptEmail)]
      ensures env.faults.emailAudit ==> finalOrder == order && orders == old(orders)
      ensures !env.faults.emailAudit ==>
        (finalOrder == order.(emailsSent := Some(AuditOf(env))) && orders == old(orders)[order.id := finalOrder])
    {
      outbox := outbox + [(order.id, ConfirmationEmail), (order.id, ReceiptEmail)];
      if env.faults.emailAudit {
        finalOrder := order;
      } else {
        finalOrder := order.(emailsSent := Some(AuditOf(env)));
        orders := orders[order.id := finalOrder];
      }
    }

    /** Updates the order the request names, or creates one. When the order cannot be found
        or written, the error answer is given and no order changes. */
    method PlaceOrder(req: OrderRequest, env: Environment, userId: string, cfg: CardConfig,
                      checkout: CheckoutData, prices: Pricing) returns (r: Placement)
      requires Valid()
      modifies this`orders
      ensures Valid()
      ensures r.NotPlaced? ==> orders == old(orders) && r.answer.Failed?
      ensures r.Placed? <==> !env.faults.orderWrite && (StrTruthy(req.orderId) ==> OrderExists(old(orders), req.orderId.value))
      ensures r.Placed? ==> orders == old(orders)[r.order.id := r.order] && r.order.status == StatusFor(req.paymentData)
      // the 404 answer is given exactly when the order id names no order
      ensures r == NotPlaced(Failed(404, "Order not found")) <==>
        StrTruthy(req.orderId) && !OrderExists(old(orders), req.orderId.value)
      ensures r == NotPlaced(Failed(500, "Failed to update order")) <==>
        StrTruthy(req.orderId) && OrderExists(old(orders), req.orderId.value) && env.faults.orderWrite
      ensures r == NotPlaced(Failed(500, "Failed to process order")) <==>
        !StrTruthy(req.orderId) && env.faults.orderWrite
      ensures r.Placed? && !StrTruthy(req.orderId) ==>
        r.order == NewOrder(env, userId, StatusFor(req.paymentData), cfg, checkout, prices)
      // the order updated is the one the id names, by internal id or by order number
      ensures r.Placed? && StrTruthy(req.orderId) ==>
        && r.order.id in old(orders)
        && r.order == ApplyPatch(old(orders)[r.order.id], UpdatePatch(req.paymentData))
        && (LookupKey(req.orderId.value).ById? ==> r.order.id == req.orderId.value)
        && (LookupKey(req.orderId.value).ByNumber? ==> old(orders)[r.order.id].orderNumber == req.orderId.value)
    {
      if StrTruthy(req.orderId) {
        var existing := FindOrder(req.orderId.value);
        if existing.None? {
          return NotPlaced(Failed(404, "Order not found"));
        }
        if env.faults.orderWrite {
          return NotPlaced(Failed(500, "Failed to update order"));
        }
        var order := ApplyPatch(existing.value, UpdatePatch(req.paymentData));
        orders := orders[order.id := order];
        r := Placed(order);
      } else {
        if env.faults.orderWrite {
          return NotPlaced(Failed(500, "Failed to process order"));
        }
        var order := NewOrder(env, userId, StatusFor(req.paymentData), cfg, checkout, prices);
        orders := orders[order.id := order];
        r := Placed(order);
      }
    }

    /** What follows a placed order: the payment row and voucher (with a payment), the
        shipping address, and the e-mails (with a payment). Each write is best effort. */
    method RecordAndNotify(payment: Option<PaymentData>, env: Environment, userId: string,
                           checkout: CheckoutData, prices: Pricing, order: OrderRow)
      returns (finalOrder: OrderRow)
      requires Valid() && order.id in orders && orders[order.id] == order
      modifies this`payments, this`vouchers, this`voucherUsage, this`addresses, this`outbox, this`orders
      ensures Valid()
      ensures finalOrder == Emailed(order, payment, env)
      ensures orders == old(orders)[order.id := finalOrder]
      ensures payment.None? || env.faults.payment ==> payments == old(payments)
      ensures payment.Some? && !env.faults.payment ==>
        payments == old(payments) + [PaymentRowFor(payment.value, order.id, checkout, prices, env)]
      ensures payment.None? || env.faults.payment || !StrTruthy(payment.value.voucherCode) ==>
        vouchers == old(vouchers) && voucherUsage == old(voucherUsage)
      ensures payment.Some? && !env.faults.payment && StrTruthy(payment.value.voucherCode) ==>
        TrackedVoucher(old(vouchers), old(voucherUsage), vouchers, voucherUsage,
                       ToUpper(payment.value.voucherCode.value), env.faults.voucher,
                       UsageFor(payment.value, userId, checkout, order.id, prices))
      ensures addresses == old(addresses) +
        (if env.faults.address then [] else [AddressRow(userId, order.id, AddressOf(checkout), false)])
      ensures payment.Some? ==> outbox == old(outbox) + [(order.id, ConfirmationEmail), (order.id, ReceiptEmail)]
      ensures payment.None? ==> outbox == old(outbox)
    {
      if payment.Some? {
        RecordPayment(payment.value, order, userId, checkout, prices, env);
      }
      RecordAddress(userId, order, checkout, env.faults.address);
      if payment.Some? {
        finalOrder := SendEmails(order, env);
      } else {
        finalOrder := order;
      }
    }

    /** Everything after the user upsert: the order is placed, then recorded and announced. */
    method Fulfil(req: OrderRequest, env: Environment, userId: string, cfg: CardConfig,
                  checkout: CheckoutData, prices: Pricing) returns (resp: Response)
      requires Valid()
      modifies this`orders, this`payments, this`vouchers, this`voucherUsage, this`addresses, this`outbox
      ensures Valid()
      ensures resp.Succeeded? <==> !env.faults.orderWrite && (StrTruthy(req.orderId) ==> OrderExists(old(orders), req.orderId.value))
      ensures resp == Failed(404, "Order not found") <==> StrTruthy(req.orderId) && !OrderExists(old(orders), req.orderId.value)
      ensures resp.Failed? ==>
        (orders == old(orders) && payments == old(payments) && vouchers == old(vouchers)
         && voucherUsage == old(voucherUsage) && addresses == old(addresses) && outbox == old(outbox))
      ensures resp.Succeeded? ==> resp.order.status == StatusFor(req.paymentData)
      ensures resp.Succeeded? ==> resp.emailResults == (if req.paymentData.Some? then Some(env.emailResults) else None)
      ensures resp.Succeeded? ==>
        && orders == old(orders)[resp.order.id := resp.order]
        && addresses == old(addresses) +
             (if env.faults.address then [] else [AddressRow(userId, resp.order.id, AddressOf(checkout), false)])
      ensures resp.Succeeded? && !StrTruthy(req.orderId) ==>
        resp.order == Emailed(NewOrder(env, userId, StatusFor(req.paymentData), cfg, checkout, prices), req.paymentData, env)
      ensures resp.Succeeded? && StrTruthy(req.orderId) ==>
        && resp.order.id in old(orders)
        && resp.order == Emailed(ApplyPatch(old(orders)[resp.order.id], UpdatePatch(req.paymentData)), req.paymentData, env)
        && (LookupKey(req.orderId.value).ById? ==> resp.order.id == req.orderId.value)
        && (LookupKey(req.orderId.value).ByNumber? ==> old(orders)[resp.order.id].orderNumber == req.orderId.value)
      ensures resp.Succeeded? && req.paymentData.Some? && !env.faults.payment ==>
        payments == old(payments) + [PaymentRowFor(req.paymentData.value, resp.order.id, checkout, prices, env)]
      ensures resp.Succeeded? && (req.paymentData.None? || env.faults.payment) ==> payments == old(payments)
      ensures resp.Succeeded? && (req.paymentData.None? || env.faults.payment || !StrTruthy(req.paymentData.value.voucherCode)) ==>
        vouchers == old(vouchers) && voucherUsage == old(voucherUsage)
      ensures resp.Succeeded? && req.paymentData.Some? && !env.faults.payment && StrTruthy(req.paymentData.value.voucherCode) ==>
        TrackedVoucher(old(vouchers), old(voucherUsage), vouchers, voucherUsage,
                       ToUpper(req.paymentData.value.voucherCode.value), env.faults.voucher,
                       UsageFor(req.paymentData.value, userId, checkout, resp.order.id, prices))
      ensures resp.Succeeded? && req.paymentData.Some? ==>
        outbox == old(outbox) + [(resp.order.id, ConfirmationEmail), (resp.order.id, ReceiptEmail)]
      ensures !(resp.Succeeded? && req.paymentData.Some?) ==> outbox == old(outbox)
    {
      var placement := PlaceOrder(req, env, userId, cfg, checkout, prices);
      if placement.NotPlaced? {
        return placement.answer;
      }
      var order := placement.order;
      var finalOrder := RecordAndNotify(req.paymentData, env, userId, checkout, prices, order);
      assert finalOrder.id == order.id && finalOrder.status == order.status;
      resp := Succeeded(finalOrder, if req.paymentData.Some? then Some(env.emailResults) else None);
    }

    /** The whole request. */
    method Post(req: OrderRequest, env: Environment) returns (resp: Response)
      requires Valid()
      modifies this
      ensures Valid()
      ensures !HasRequiredData(req) ==> resp == Failed(400, "Missing required data") && unchanged(this)
      ensures HasRequiredData(req) && (env.faults.userUpsert || req.checkoutData.value.email.None?) ==>
        resp == Failed(500, "Failed to process order") && unchanged(this)
      // the request succeeds exactly when the user is written and the order found (if named) and written
      ensures resp.Succeeded? <==>
        && HasRequiredData(req) && !env.faults.userUpsert && req.checkoutData.value.email.Some?
        && !env.faults.orderWrite
        && (StrTruthy(req.orderId) ==> OrderExists(old(orders), req.orderId.value))
      ensures resp.Succeeded? ==> resp.order.status == StatusFor(req.paymentData)
      ensures resp.Succeeded? ==> (resp.emailResults.Some? <==> req.paymentData.Some?)
      ensures resp.Succeeded? && req.paymentData.Some? ==> resp.emailResults == Some(env.emailResults)
      // the new state after a success: the upserted user, the created or updated order, and the records
      ensures resp.Succeeded? ==>
        var checkout := req.checkoutData.value;
        var user := UserFor(old(users), checkout, req.cardConfig.value, env);
        && users == old(users)[checkout.email.value := user]
        && orders == old(orders)[resp.order.id := resp.order]
        && addresses == old(addresses) +
             (if env.faults.address then [] else [AddressRow(user.id, resp.order.id, AddressOf(checkout), false)])
      ensures resp.Succeeded? && !StrTruthy(req.orderId) ==>
        var cfg, checkout := req.cardConfig.value, req.checkoutData.value;
        resp.order == Emailed(NewOrder(env, UserFor(old(users), checkout, cfg, env).id, StatusFor(req.paymentData),
                                       cfg, checkout, Prices(cfg, req.pricing)), req.paymentData, env)
      ensures resp.Succeeded? && StrTruthy(req.orderId) ==>
        && resp.order.id in old(orders)
        && resp.order == Emailed(ApplyPatch(old(orders)[resp.order.id], UpdatePatch(req.paymentData)), req.paymentData, env)
        && (LookupKey(req.orderId.value).ById? ==> resp.order.id == req.orderId.value)
        && (LookupKey(req.orderId.value).ByNumber? ==> old(orders)[resp.order.id].orderNumber == req.orderId.value)
      ensures resp.Succeeded? && req.paymentData.Some? && !env.faults.payment ==>
        payments == old(payments) + [PaymentRowFor(req.paymentData.value, resp.order.id, req.checkoutData.value,
                                                   Prices(req.cardConfig.value, req.pricing), env)]
      ensures resp.Succeeded? && req.paymentData.Some? && !env.faults.payment && StrTruthy(req.paymentData.value.voucherCode) ==>
        var checkout := req.checkoutData.value;
        TrackedVoucher(old(vouchers), old(voucherUsage), vouchers, voucherUsage,
                       ToUpper(req.paymentData.value.voucherCode.value), env.faults.voucher,
                       UsageFor(req.paymentData.value, UserFor(old(users), checkout, req.cardConfig.value, env).id,
                                checkout, resp.order.id, Prices(req.cardConfig.value, req.pricing)))
      // e-mails go out exactly for a successful request that carries a payment
      ensures resp.Succeeded? && req.paymentData.Some? ==>
        outbox == old(outbox) + [(resp.order.id, ConfirmationEmail), (resp.order.id, ReceiptEmail)]
      ensures !(resp.Succeeded? && req.paymentData.Some?) ==> outbox == old(outbox)
      // an unresolvable order id is a 404 and nothing but the user upsert happened
      ensures resp == Failed(404, "Order not found") ==>
        orders == old(orders) && payments == old(payments) && vouchers == old(vouchers)
        && voucherUsage == old(voucherUsage) && addresses == old(addresses) && outbox == old(outbox)
      ensures resp.Failed? ==>
        (orders == old(orders) && payments == old(payments) && vouchers == old(vouchers)
         && voucherUsage == old(voucherUsage) && addresses == old(addresses))
      ensures |payments| <= |old(payments)| + 1
      ensures |payments| == |old(payments)| + 1 <==> resp.Succeeded? && req.paymentData.Some? && !env.faults.payment
    {
      if !HasRequiredData(req) {
        return Failed(400, "Missing required data");
      }
      var cfg, checkout := req.cardConfig.value, req.checkoutData.value;
      var prices := Prices(cfg, req.pricing);
      var userOk, userId := UpsertUser(checkout, cfg, env);
      if !userOk {
        return Failed(500, "Failed to process order");
      }
      resp := Fulfil(req, env, userId, cfg, checkout, prices);
    }
  }

  function AuditOf(env: Environment): EmailAudit {
    EmailAudit(
      AuditEntry(env.emailResults.confirmation.success, env.now, env.emailResults.confirmation.messageId),
      AuditEntry(env.emailResults.receipt.success, env.now, env.emailResults.receipt.messageId))
  }

  /** Whether the order id names a stored order: by internal id when it is UUID-shaped,
      else by order number. */
  predicate OrderExists(orders: map<string, OrderRow>, orderId: string) {
    if LookupKey(orderId).ById? then orderId in orders
    else exists id :: id in orders && orders[id].orderNumber == orderId
  }

  /** The voucher tables after tracking one redemption of `code`. */
  ghost predicate TrackedVoucher(
    v0: map<string, VoucherRow>, u0: seq<VoucherUsageRow>,
    v1: map<string, VoucherRow>, u1: seq<VoucherUsageRow>,
    code: string, fails: VoucherFaults, usage: VoucherUsageRow)
  {
    if fails.lookup || code !in v0 then v1 == v0 && u1 == u0
    else
      && u1 == u0 + (if fails.usageInsert then [] else [usage.(voucherId := v0[code].id)])
      && v1 == (if fails.countUpdate then v0 else v0[code := v0[code].(usedCount := v0[code].usedCount + 1)])
  }
}
