/** The cart modal's checkout handler: the component's state as the fields of
    a class and `handleFinalizeOrder` as a method that updates them through
    the same steps and early returns. What the outside world answers (the
    `sales` insert, the QR encoder) comes in as parameters. */
module Modal {
  import opened Wrappers
  import opened Order

  /** What the insert call came back with: whether `error` was set and whether
      `data` (the new sale) was non-null. */
  datatype InsertResponse = InsertResponse(error: bool, hasSale: bool)

  /** What `QRCode.toDataURL` did: resolved to a data URL, or threw. */
  datatype QrOutcome = QrDataUrl(url: string) | QrThrew

  /** The call the handler made to the QR encoder: the text and the
      `width` and `margin` options. */
  datatype QrRequest = QrRequest(text: string, width: int, margin: int)

  /** Which way the handler left, one case per branch and per notification. */
  datatype Outcome =
    | MissingPixKey    // toast "PIX key not configured", return before anything else
    | InsertFailed     // the insert reported an error
    | NoSaleReturned   // no error, but no row came back: nothing is shown
    | QrFailed         // order created, but the QR code could not be generated
    | OrderPlaced      // QR shown, order marked created, cart cleared

  const QrWidth: int := 280
  const QrMargin: int := 2

  /** `!settings.pix_key`: an absent or empty key. */
  predicate PixKeyMissing(pixKey: Option<string>)
  {
    pixKey == None || pixKey.value == ""
  }

  /** The branch the handler takes for given answers of the outside world. */
  function Branch(pixKey: Option<string>, response: InsertResponse, qr: QrOutcome): Outcome
  {
    if PixKeyMissing(pixKey) then MissingPixKey
    else if response.error then InsertFailed
    else if !response.hasSale then NoSaleReturned
    else if qr == QrThrew then QrFailed
    else OrderPlaced
  }

  /** The cart is cleared exactly when the key is set, the insert succeeded
      with a row, and the QR code was produced. */
  lemma ClearedExactlyOnFullSuccess(pixKey: Option<string>, response: InsertResponse, qr: QrOutcome)
    ensures Branch(pixKey, response, qr) == OrderPlaced <==>
      !PixKeyMissing(pixKey) && !response.error && response.hasSale && qr.QrDataUrl?
    ensures Branch(pixKey, response, qr) == MissingPixKey <==> PixKeyMissing(pixKey)
  {
  }

  class CartModal {
    /** The live cart of the `useCart` store. */
    var cart: seq<CartItem>
    var customerName: string
    var customerPhone: string
    var isSubmitting: bool
    var orderCreated: bool
    var qrCodeUrl: string
    var finalizedOrder: Option<FinalizedOrder>

    /** Between events: no submission is in flight, a created order always
        has its snapshot, and a QR code is only ever shown for a created order. */
    ghost predicate Valid()
      reads this
    {
      && !isSubmitting
      && (orderCreated ==> finalizedOrder.Some?)
      && (qrCodeUrl != "" ==> orderCreated)
    }

    /** The modal opens over the store's current cart with every piece of
        its own state at its initial value. */
    constructor (cart: seq<CartItem>)
      ensures Valid()
      ensures this.cart == cart
      ensures customerName == "" && customerPhone == ""
      ensures !isSubmitting && !orderCreated && qrCodeUrl == "" && finalizedOrder == None
    {
      this.cart := cart;
      customerName, customerPhone := "", "";
      isSubmitting, orderCreated := false, false;
      qrCodeUrl := "";
      finalizedOrder := None;
    }

    /** The name input's change handler. */
    method SetCustomerName(name: string)
      requires Valid()
      modifies this`customerName
      ensures Valid() && customerName == name
    {
      customerName := name;
    }

    /** The phone input's change handler. */
    method SetCustomerPhone(phone: string)
      requires Valid()
      modifies this`customerPhone
      ensures Valid() && customerPhone == phone
    {
      customerPhone := phone;
    }

    /** `handleFinalizeOrder`. `totalPrice` is the store's total at the time
        of the click; `response` and `qr` are what the insert and the QR
        encoder answer. Returns the row it asked to insert, the QR call it
        made, and the branch it left by. */
    method FinalizeOrder(pixKey: Option<string>, totalPrice: int, response: InsertResponse, qr: QrOutcome)
      returns (insert: Option<SaleInsert>, qrCall: Option<QrRequest>, outcome: Outcome)
      requires Valid()
      modifies this
      ensures Valid()
      ensures outcome == Branch(pixKey, response, qr)
      ensures customerName == old(customerName) && customerPhone == old(customerPhone)
      // no PIX key: nothing is sent and no field changes
      ensures outcome == MissingPixKey ==>
        insert == None && qrCall == None
        && cart == old(cart) && isSubmitting == old(isSubmitting) && orderCreated == old(orderCreated)
        && qrCodeUrl == old(qrCodeUrl) && finalizedOrder == old(finalizedOrder)
      // past the key check: the snapshot is the cart and total at the click,
      // the row is built from it, and the snapshot stays whatever comes back
      ensures outcome != MissingPixKey ==>
        var snapshot := FinalizedOrder(old(cart), totalPrice);
        && finalizedOrder == Some(snapshot)
        && insert == Some(SaleRecord(snapshot, old(customerName), old(customerPhone)))
        && !isSubmitting
      // the QR encoder is asked for the PIX key only after a successful insert with a row
      ensures qrCall.Some? <==> outcome == QrFailed || outcome == OrderPlaced
      ensures qrCall.Some? ==> qrCall == Some(QrRequest(pixKey.value, QrWidth, QrMargin))
      // every branch but full success leaves the cart, the created flag and the QR code alone
      ensures outcome != OrderPlaced ==>
        cart == old(cart) && orderCreated == old(orderCreated) && qrCodeUrl == old(qrCodeUrl)
      ensures outcome == OrderPlaced ==>
        cart == [] && orderCreated && qrCodeUrl == qr.url
    {
      insert, qrCall := None, None;
      if PixKeyMissing(pixKey) {
        outcome := MissingPixKey;
        return;
      }
      isSubmitting := true;

      var orderData := FinalizedOrder(cart, totalPrice);
      finalizedOrder := Some(orderData);

      var record := SaleRecord(orderData, customerName, customerPhone);
      insert := Some(record);

      if response.error {
        isSubmitting := false;
        outcome := InsertFailed;
        return;
      }

      outcome := NoSaleReturned;
      if response.hasSale {
        qrCall := Some(QrRequest(pixKey.value, QrWidth, QrMargin));
        match qr {
          case QrDataUrl(url) =>
            qrCodeUrl := url;
            orderCreated := true;
            cart := [];
            outcome := OrderPlaced;
          case QrThrew =>
            outcome := QrFailed;
        }
      }

      isSubmitting := false;
    }
  }

  /** The payment screen is shown only once `orderCreated` holds, and then
      there is a snapshot, so its WhatsApp message is never empty. */
  lemma PaymentScreenHasMessage(m: CartModal, encode: string -> string)
    requires m.Valid() && m.orderCreated && KeepsEmptiness(encode)
    ensures WhatsappMessage(m.finalizedOrder, encode) != ""
  {
    MessageEmptyIff(m.finalizedOrder, encode);
  }

  /** A full checkout from a fresh modal: afterwards the live cart is empty
      and the order is marked created, yet the WhatsApp message is built from
      the snapshot, so it still lists what the cart held at the click. */
  method CheckoutScenario(items: seq<CartItem>, totalPrice: int, key: string, url: string, encode: string -> string)
    returns (cartAfter: seq<CartItem>, created: bool, message: string, link: string)
    requires key != ""
    ensures cartAfter == [] && created
    ensures message == encode(RawMessage(FinalizedOrder(items, totalPrice)))
    ensures link == WhatsappLink(message)
  {
    var modal := new CartModal(items);
    var insert, qrCall, outcome := modal.FinalizeOrder(Some(key), totalPrice, InsertResponse(false, true), QrDataUrl(url));
    cartAfter, created := modal.cart, modal.orderCreated;
    message := WhatsappMessage(modal.finalizedOrder, encode);
    link := WhatsappLink(message);
  }
}
