/** The values the checkout handler of `CartModal` works on and the texts it
    derives from them: the frozen order snapshot, the sale description and the
    aggregate quantity sent to the `sales` table, and the WhatsApp hand-off
    message and link. Money is integer cents. */
module Order {
  import opened Wrappers
  import opened Text

  /** A cart line: a product together with the quantity chosen for it. */
  datatype CartItem = CartItem(id: string, name: string, price: int, quantity: int)

  /** The snapshot taken when checkout starts: the cart's items and its total. */
  datatype FinalizedOrder = FinalizedOrder(items: seq<CartItem>, total: int)

  /** The row the handler asks the `sales` table to insert; the fields are the
      columns `product_name`, `quantity`, `total_amount`, `customer_name`,
      `customer_phone`, `status`, `product_id` and `unit_price`. */
  datatype SaleInsert = SaleInsert(
    productName: string,
    quantity: int,
    totalAmount: int,
    customerName: Option<string>,
    customerPhone: Option<string>,
    status: string,
    productId: Option<string>,
    unitPrice: int)

  const PendingStatus: string := "pending"

  /** One entry of the description: the quantity, "x ", the product's name. */
  function Entry(item: CartItem): string
  {
    IntToString(item.quantity) + "x " + item.name
  }

  /** `items.map(Entry)`. */
  function Entries(items: seq<CartItem>): (r: seq<string>)
    ensures |r| == |items|
    ensures forall i :: 0 <= i < |items| ==> r[i] == Entry(items[i])
  {
    if items == [] then [] else [Entry(items[0])] + Entries(items[1..])
  }

  /** The sale description: every entry, in cart order, joined by ", ". */
  function Description(items: seq<CartItem>): (r: string)
    ensures r == "" <==> items == []
    ensures items != [] ==> Entry(items[0]) <= r
  {
    Join(Entries(items), ", ")
  }

  /** The description of two non-empty carts put together is their two
      descriptions with one ", " between them. */
  lemma DescriptionAppend(a: seq<CartItem>, b: seq<CartItem>)
    requires |a| > 0 && |b| > 0
    ensures Description(a + b) == Description(a) + ", " + Description(b)
  {
    var ea, eb := Entries(a), Entries(b);
    EntriesAppend(a, b);
    JoinAppend(ea, eb, ", ");
    assert Description(a + b) == Join(ea + eb, ", ");
  }

  /** Mapping two carts put together is mapping each one. */
  lemma {:induction false} EntriesAppend(a: seq<CartItem>, b: seq<CartItem>)
    ensures Entries(a + b) == Entries(a) + Entries(b)
    decreases |a|
  {
    if a == [] {
      assert a + b == b;
    } else {
      assert (a + b)[0] == a[0] && (a + b)[1..] == a[1..] + b;
      EntriesAppend(a[1..], b);
    }
  }

  /** The description read item by item: empty for no items, and each further
      item adds its entry, after ", " unless it is the first. */
  lemma DescriptionPush(items: seq<CartItem>, x: CartItem)
    ensures Description(items + [x]) ==
              if items == [] then Entry(x) else Description(items) + ", " + Entry(x)
  {
    if items == [] {
      assert items + [x] == [x];
    } else {
      DescriptionAppend(items, [x]);
    }
  }

  /** `items.reduce((acc, item) => acc + item.quantity, 0)`: a left fold. */
  function TotalQuantity(items: seq<CartItem>): (r: int)
    ensures items == [] ==> r == 0
    ensures (forall i :: 0 <= i < |items| ==> items[i].quantity >= 0) ==> r >= 0
  {
    if items == [] then 0
    else TotalQuantity(items[..|items| - 1]) + items[|items| - 1].quantity
  }

  /** The aggregate quantity of two carts put together is the sum of theirs. */
  lemma {:induction false} TotalQuantityAppend(a: seq<CartItem>, b: seq<CartItem>)
    ensures TotalQuantity(a + b) == TotalQuantity(a) + TotalQuantity(b)
    decreases |b|
  {
    if b == [] {
      assert a + b == a;
    } else {
      var b' := b[..|b| - 1];
      assert (a + b)[..|a + b| - 1] == a + b';
      TotalQuantityAppend(a, b');
    }
  }

  /** When every line holds at least one unit, there are at least as many
      units as lines (and so at least one unit in a non-empty cart). */
  lemma {:induction false} TotalQuantityAtLeastLines(items: seq<CartItem>)
    requires forall i :: 0 <= i < |items| ==> items[i].quantity >= 1
    ensures TotalQuantity(items) >= |items|
    decreases |items|
  {
    if items != [] {
      TotalQuantityAtLeastLines(items[..|items| - 1]);
    }
  }

  /** `value || null` for a text input: the empty string becomes null. */
  function OrNull(s: string): (r: Option<string>)
    ensures r.None? <==> s == ""
    ensures r.Some? ==> r.value == s
  {
    if s == "" then None else Some(s)
  }

  /** The row inserted for a snapshot and the customer's name and phone. */
  function SaleRecord(order: FinalizedOrder, customerName: string, customerPhone: string): SaleInsert
  {
    SaleInsert(
      Description(order.items),
      TotalQuantity(order.items),
      order.total,
      OrNull(customerName),
      OrNull(customerPhone),
      PendingStatus,
      None,
      0)
  }

  /** What the inserted row holds: the snapshot's description, unit count and
      total; a name or phone only when one was typed, and then unchanged; a
      pending sale with no product and a zero unit price. */
  lemma SaleRecordFields(order: FinalizedOrder, customerName: string, customerPhone: string)
    ensures var r := SaleRecord(order, customerName, customerPhone);
      && r.productName == Description(order.items)
      && r.quantity == TotalQuantity(order.items)
      && r.totalAmount == order.total
      && (r.customerName == None <==> customerName == "")
      && (customerName != "" ==> r.customerName == Some(customerName))
      && (r.customerPhone == None <==> customerPhone == "")
      && (customerPhone != "" ==> r.customerPhone == Some(customerPhone))
      && r.status == "pending" && r.productId == None && r.unitPrice == 0
  {
  }

  /** One more line in the snapshot extends the row's description by ", " and
      its entry and its quantity by the line's quantity; the customer fields
      and the constants stay as they were. */
  lemma SaleRecordAddLine(order: FinalizedOrder, x: CartItem, total: int, customerName: string, customerPhone: string)
    requires order.items != []
    ensures var before := SaleRecord(order, customerName, customerPhone);
      var after := SaleRecord(FinalizedOrder(order.items + [x], total), customerName, customerPhone);
      && after.productName == before.productName + ", " + Entry(x)
      && after.quantity == before.quantity + x.quantity
      && after.totalAmount == total
      && after.customerName == before.customerName
      && after.customerPhone == before.customerPhone
      && after.status == before.status && after.productId == before.productId
      && after.unitPrice == before.unitPrice
  {
    DescriptionPush(order.items, x);
    TotalQuantityAppend(order.items, [x]);
  }

  /** `(cents / 100).toFixed(2)` for a whole number of cents. */
  function FormatCents(cents: int): string
  {
    if cents < 0 then "-" + FormatCentsNat(-cents) else FormatCentsNat(cents)
  }

  function FormatCentsNat(cents: nat): string
  {
    NatToString(cents / 100) + "." + [DigitChar(cents % 100 / 10), DigitChar(cents % 10)]
  }

  const MessageIntro: string := "Olá! Tenho interesse no pedido com os seguintes itens: "
  const MessageOutro: string := "). Segue o comprovante de pagamento."

  /** The message text before percent-encoding, built from a snapshot. */
  function RawMessage(order: FinalizedOrder): (r: string)
    ensures |r| > |MessageIntro| + |Description(order.items)|
    ensures r[..|MessageIntro|] == MessageIntro
    ensures r[|MessageIntro|..|MessageIntro| + |Description(order.items)|] == Description(order.items)
  {
    MessageIntro + Description(order.items)
      + " (Total: R$ " + FormatCents(order.total) + MessageOutro
  }

  /** The message as derived from the component's `finalizedOrder` state;
      `encode` stands for `encodeURIComponent`. */
  function WhatsappMessage(finalized: Option<FinalizedOrder>, encode: string -> string): string
  {
    match finalized
    case None => ""
    case Some(order) => encode(RawMessage(order))
  }

  const WhatsappPrefix: string := "https://wa.me/5511934476935?text="

  /** The link is the fixed `wa.me` prefix followed by exactly the message. */
  function WhatsappLink(message: string): (r: string)
    ensures |r| == |WhatsappPrefix| + |message|
    ensures r[..|WhatsappPrefix|] == WhatsappPrefix
    ensures r[|WhatsappPrefix|..] == message
  {
    WhatsappPrefix + message
  }

  /** `encodeURIComponent` maps the empty string, and only it, to the empty string. */
  ghost predicate KeepsEmptiness(encode: string -> string)
  {
    forall s :: encode(s) == "" <==> s == ""
  }

  /** Without a snapshot the message is empty; with one it is the encoding of
      a text that carries the snapshot's description right after the fixed
      introduction, whatever the live cart holds. */
  lemma MessageFromSnapshot(finalized: Option<FinalizedOrder>, encode: string -> string)
    ensures finalized == None ==> WhatsappMessage(finalized, encode) == ""
    ensures finalized.Some? ==>
      var order := finalized.value;
      var raw := RawMessage(order);
      && WhatsappMessage(finalized, encode) == encode(raw)
      && raw[..|MessageIntro|] == MessageIntro
      && raw[|MessageIntro|..|MessageIntro| + |Description(order.items)|] == Description(order.items)
  {
  }

  /** With an encoder that keeps emptiness, the message is empty exactly when
      there is no snapshot. */
  lemma MessageEmptyIff(finalized: Option<FinalizedOrder>, encode: string -> string)
    requires KeepsEmptiness(encode)
    ensures WhatsappMessage(finalized, encode) == "" <==> finalized == None
  {
    if finalized.Some? {
      var raw := RawMessage(finalized.value);
      assert |raw| >= |MessageIntro| > 0;
    }
  }

  /** After the description the message states the total as "Total: R$ "
      and the snapshot's total in two-decimal form. */
  lemma MessageCarriesTotal(order: FinalizedOrder)
    ensures var raw := RawMessage(order);
      var k := |MessageIntro| + |Description(order.items)| + 2;
      var stated := "Total: R$ " + FormatCents(order.total);
      && |raw| == k + |stated| + |MessageOutro|
      && raw[k - 2..k] == " ("
      && raw[k..k + |stated|] == stated
      && raw[k + |stated|..] == MessageOutro
  {
    var d, f := Description(order.items), FormatCents(order.total);
    assert RawMessage(order) == MessageIntro + d + " (Total: R$ " + f + MessageOutro;
    TotalSlice(d, f);
  }

  /** The slicing facts of MessageCarriesTotal for any description `d` and
      rendered total `f`. */
  lemma TotalSlice(d: string, f: string)
    ensures var raw := MessageIntro + d + " (Total: R$ " + f + MessageOutro;
      var k := |MessageIntro| + |d| + 2;
      var stated := "Total: R$ " + f;
      && |raw| == k + |stated| + |MessageOutro|
      && raw[k - 2..k] == " ("
      && raw[k..k + |stated|] == stated
      && raw[k + |stated|..] == MessageOutro
  {
    var head := MessageIntro + d + " (";
    var stated := "Total: R$ " + f;
    assert " (Total: R$ " + f == " (" + stated;
    assert MessageIntro + d + " (Total: R$ " + f + MessageOutro == head + stated + MessageOutro;
    ThreePieces(head, stated, MessageOutro);
    assert head[|head| - 2..] == " (";
  }

  /** The two-line example: 2 x A at 10.00 and 1 x B at 5.50. The row
      carries "2x A, 1x B" and the message carries both "2x A, 1x B" and
      "Total: R$ 25.50". */
  lemma TwoLineExample()
    ensures var order := FinalizedOrder([CartItem("a", "A", 1000, 2), CartItem("b", "B", 550, 1)], 2550);
      var raw := RawMessage(order);
      var k := |MessageIntro|;
      && Description(order.items) == "2x A, 1x B"
      && TotalQuantity(order.items) == 3
      && FormatCents(order.total) == "25.50"
      && |raw| >= k + 27
      && raw[k..k + 10] == "2x A, 1x B"
      && raw[k + 12..k + 27] == "Total: R$ 25.50"
  {
    var order := FinalizedOrder([CartItem("a", "A", 1000, 2), CartItem("b", "B", 550, 1)], 2550);
    assert Description(order.items) == "2x A, 1x B";
    assert FormatCents(order.total) == "25.50";
    assert "Total: R$ " + "25.50" == "Total: R$ 25.50";
    MessageCarriesTotal(order);
  }
}
