# Cart checkout of the PIX storefront, in Dafny

This project models the checkout step of the storefront's cart modal
(`src/components/CartModal.tsx`). When the customer clicks the button, the
handler `handleFinalizeOrder` checks that a PIX key is configured. It then
stores the cart and its total in a `FinalizedOrder` snapshot and inserts a
pending sale into the `sales` table. If that insert returns a row, it asks the
QR encoder for an image of the PIX key. Only when that works does it show the
QR code, mark the order as created and clear the cart. After checkout, the
WhatsApp link carries a message built from the snapshot, not from the live
cart.

Files:
- `Wrappers.dfy`: `Option`, which stands for JavaScript's `null`.
- `Text.dfy`: decimal rendering of integers, as `${n}` in a template literal. It
  comes with a reference reader of digit strings (round trip, injectivity). Also
  `Join`, as `Array.join`, and its append law.
- `Order.dfy`: cart lines, the snapshot, the sale description
  (`"<q>x <name>"` entries joined by `", "`), the aggregate quantity
  (`reduce`), the inserted row, and the WhatsApp message and link.
- `Modal.dfy`: class `CartModal`. Its fields are the component's state
  (`cart`, `customerName`, `customerPhone`, `isSubmitting`, `orderCreated`,
  `qrCodeUrl`, `finalizedOrder`). `FinalizeOrder` is the handler, step by step
  with its early returns.

Inputs to the model, not modelled themselves:
- the PIX key;
- the store's `totalPrice` at the click;
- the insert's answer (`error` set or not, and whether a row came back);
- what the QR encoder does (returns a data URL or throws);
- `encodeURIComponent`, passed as a function parameter.

Money is integer cents.

When the QR encoder throws, the order row already exists but the cart is not
cleared. `clearCart()` sits inside the `try`, after `QRCode.toDataURL`
(`src/components/CartModal.tsx:66-71`), and its comment says it runs only once
everything has worked. So on that path the cart and `orderCreated` stay as
they were, and the model keeps them too.

## Model

| member | source | states |
|---|---|---|
| `Modal.CartModal.FinalizeOrder` | src/components/CartModal.tsx:30-79 | With no PIX key, nothing is inserted and no field changes. Past the key check, `finalizedOrder` is the cart and total at the click, on every later branch. The inserted row is built from that snapshot and the typed name and phone. `isSubmitting` ends false. The QR encoder is called with the key, width 280 and margin 2, exactly when the insert succeeded with a row. The cart is emptied, `orderCreated` set and `qrCodeUrl` set to the data URL only on full success. On every other branch, including a QR failure, all three are left alone. The object invariant `Valid` is kept. |
| `Modal.CartModal.constructor` | src/components/CartModal.tsx:20-28 | The modal starts over the store's cart with empty name and phone, not submitting, no order created, no QR code and no snapshot. |
| `Modal.CartModal.SetCustomerName` | src/components/CartModal.tsx:128 | The name input sets `customerName` and nothing else. |
| `Modal.CartModal.SetCustomerPhone` | src/components/CartModal.tsx:132 | The phone input sets `customerPhone` and nothing else. |
| `Modal.PixKeyMissing` | src/components/CartModal.tsx:31 | `!settings.pix_key`: the key is null or empty. Its use is stated by `Modal.ClearedExactlyOnFullSuccess` and `Modal.CartModal.FinalizeOrder`. |
| `Modal.Branch` | src/components/CartModal.tsx:31-75 | The branch the handler leaves by, checked in the order of the source's `if`s: key, insert error, returned row, QR encoder. Its contract is stated by `Modal.ClearedExactlyOnFullSuccess`, and `Modal.CartModal.FinalizeOrder` returns it. |
| `Modal.ClearedExactlyOnFullSuccess` | src/components/CartModal.tsx:31-75 | The handler reaches the branch that clears the cart exactly when the key is set, the insert had no error and returned a row, and the QR encoder produced a URL. It takes the no-key branch exactly when the key is absent or empty. |
| `Modal.PaymentScreenHasMessage` | src/components/CartModal.tsx:82-85 | The payment screen, shown once `orderCreated` holds (lines 100, 144), always has a non-empty WhatsApp message, given an encoder that keeps emptiness. This follows from the object invariant `Valid`. |
| `Modal.CheckoutScenario` | src/components/CartModal.tsx:65-85 | After a full checkout from a fresh modal, the returned cart is empty and the order is marked created. The message is still the encoding of the text built from the items and total at the click. The link is the `wa.me` prefix plus that message. |
| `Order.Entry` | src/components/CartModal.tsx:41 | One description entry: the quantity, `"x "`, the name. Stated through `Order.Entries`, `Order.DescriptionPush` and `Text.IntToStringInjective`. |
| `Order.Entries` | src/components/CartModal.tsx:41 | The `map` step: one entry per cart line, in order, each the quantity, `"x "` and the name. |
| `Order.Description` | src/components/CartModal.tsx:41 | The description is empty exactly when there are no items, and starts with the first item's entry. `Order.DescriptionPush` and `Order.DescriptionAppend` state the rest. |
| `Order.DescriptionAppend` | src/components/CartModal.tsx:41 | The description of two non-empty carts put together is their descriptions with one `", "` between them. |
| `Order.DescriptionPush` | src/components/CartModal.tsx:41 | Each item added at the end adds its entry, preceded by `", "` unless it is the first. |
| `Order.TotalQuantity` | src/components/CartModal.tsx:47 | The fold starts at 0 for an empty cart and is never negative when no quantity is. `Order.TotalQuantityAppend` and `Order.TotalQuantityAtLeastLines` state the rest. |
| `Order.TotalQuantityAppend` | src/components/CartModal.tsx:47 | The aggregate quantity of two carts put together is the sum of their aggregates. |
| `Order.TotalQuantityAtLeastLines` | src/components/CartModal.tsx:47 | When every line holds at least one unit, the aggregate quantity is at least the number of lines. |
| `Order.OrNull` | src/components/CartModal.tsx:49-50 | `value \|\| null`: null exactly for the empty string; otherwise the text unchanged. |
| `Order.SaleRecord` | src/components/CartModal.tsx:45-54 | The row sent to `sales`. Its fields are stated by `Order.SaleRecordFields` and `Order.SaleRecordAddLine`. |
| `Order.SaleRecordFields` | src/components/CartModal.tsx:45-54 | The row holds the snapshot's description, aggregate quantity and total. Name and phone are null when empty and unchanged otherwise. `status` is `"pending"`, `product_id` null and `unit_price` 0. |
| `Order.SaleRecordAddLine` | src/components/CartModal.tsx:41-48 | One more line in a non-empty snapshot extends the row's description by `", "` and its entry and its quantity by the line's quantity. The total is the new one and every other field is as before. |
| `Order.FormatCents` | src/components/CartModal.tsx:83 | `total.toFixed(2)` for whole cents. It has no contract of its own; only the value for 2550 cents is proved (`Order.TwoLineExample`); see "## Left out". |
| `Order.RawMessage` | src/components/CartModal.tsx:83 | The unencoded text starts with the fixed introduction, followed by the snapshot's description. `Order.MessageCarriesTotal` states where the total comes. |
| `Order.MessageCarriesTotal` | src/components/CartModal.tsx:83 | After the description comes `" ("`, then `Total: R$ ` with the snapshot's total in two-decimal form, and the text ends with `). Segue o comprovante de pagamento.` |
| `Order.WhatsappMessage` | src/components/CartModal.tsx:82-84 | The message as derived from `finalizedOrder`. Stated by `Order.MessageFromSnapshot` and `Order.MessageEmptyIff`. |
| `Order.MessageFromSnapshot` | src/components/CartModal.tsx:82-84 | Without a snapshot the message is empty. With one, it is the encoding of a text that starts with the fixed introduction followed by the snapshot's description. |
| `Order.MessageEmptyIff` | src/components/CartModal.tsx:82-84 | If the encoder maps only the empty string to the empty string, the message is empty exactly when there is no snapshot. |
| `Order.WhatsappLink` | src/components/CartModal.tsx:85 | The link is `https://wa.me/5511934476935?text=` followed by exactly the message. |
| `Order.TwoLineExample` | src/components/CartModal.tsx:41-83 | For 2 × A and 1 × B with a total of 25.50, the description is `2x A, 1x B`, the quantity is 3 and the total renders as `25.50`. The message text carries `2x A, 1x B` right after the introduction, and `Total: R$ 25.50` after that. |
| `Text.NatToString` | src/components/CartModal.tsx:41 | The rendering of a quantity is a non-empty string of decimal digits with no leading zero. |
| `Text.IntToString` | src/components/CartModal.tsx:41 | The rendering starts with `-` exactly for negative numbers. |
| `Text.NatToStringRoundTrip` | src/components/CartModal.tsx:41 | Reading back the rendered digits gives the quantity again. |
| `Text.IntToStringInjective` | src/components/CartModal.tsx:41 | Two quantities render the same exactly when they are equal. |
| `Text.Join` | src/components/CartModal.tsx:41 | `.join(', ')` at lines 41 and 83: `[]` joins to `""` and `[p]` to `p`; the append law is `Text.JoinAppend`. |
| `Text.JoinAppend` | src/components/CartModal.tsx:41 | `join` of two non-empty lists put together is their joins with one separator between them. |

## Left out

- Rendering (lines 87-177): the title switch, the empty-cart text and the button styling. It is presentation only.
- The `useCart` store (`removeFromCart`, `updateQuantity`, `clearCart`, `totalPrice`): its file is not part of this model. `clearCart` is modelled as setting the cart to empty, and `totalPrice` is an input of `FinalizeOrder`. The snapshot shares the store's cart array (line 38); the model copies it, which matches the source as long as `clearCart` replaces the array instead of mutating it.
- The Supabase client: the insert is reduced to its answer (error set or not, row returned or not). `.select().single()` is not modelled.
- `QRCode.toDataURL`: a third-party image encoder. It is reduced to "returns an opaque string" or "throws".
- `toast` and `console.error`: side effects with no effect on state. The `Outcome` that `FinalizeOrder` returns names the branch each notification belongs to.
- `encodeURIComponent`: a function parameter of `WhatsappMessage`. The only property assumed of it is that it maps exactly the empty string to the empty string (`KeepsEmptiness`).
- `Order.FormatCents`: `toFixed(2)` is written out for a whole number of cents. Floating-point prices and their rounding are not modelled. No general property of the decimal rendering is proved; only the one value in `Order.TwoLineExample` is proved.
- `Text.IntToString`: JavaScript switches to exponent notation from 10^21 on. The model always writes plain decimal.
- `async`/`await`: React applies state setters at the next render, and the handler's two awaits let the UI re-render in between (for instance with `isSubmitting` true). The model runs the handler as one sequential method and states only the state it leaves behind. Re-entry is excluded by the disabled button (line 138), which `Valid` records as `!isSubmitting`.
- `src/App.tsx`: routing and the auth-session subscription. It is UI and library plumbing with no logic of its own.
