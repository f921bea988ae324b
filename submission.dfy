/** What `handleSubmit` of the order form sends and what it makes of the
    answer (frontend/src/components/OrderForm.js): the request payload, the
    outcome of the POST supplied as a value, and the message shown. */
module Submission {
  import opened Wrappers
  import opened LineItems
  import opened Totals

  /** One entry of the request body. `unitPrice` is `None` where
      `parseFloat('')` gives `NaN`. */
  datatype PayloadItem = PayloadItem(itemName: string, unitPrice: Option<real>, quantity: int)

  /** The request body `{customer_id, items}`; `customerId` is `None` where
      `parseInt('')` gives `NaN`. No total is sent: the server computes it. */
  datatype Payload = Payload(customerId: Option<int>, items: seq<PayloadItem>)

  /** The answer of the POST: the created order's id and server-side total,
      or a failure with the `detail` field of the error body when there is one. */
  datatype Outcome = Created(id: int, totalCost: real) | Rejected(detail: Option<string>)

  /** The form's `message` state; `Cleared` is `{type: '', text: ''}`. A
      success message is the template carrying the order id and total it holds. */
  datatype Message =
    | Cleared
    | SuccessMessage(orderId: int, totalCost: real)
    | ErrorMessage(text: string)

  const GenericFailure: string := "Failed to create order"

  /** The map callback of the payload builder: each field carried over, the
      numbers through `parseFloat` / `parseInt`, which give back the stored number. */
  function ToPayloadItem(it: Item): PayloadItem {
    PayloadItem(it.itemName, it.unitPrice, it.quantity)
  }

  /** Back from a payload entry to the draft line it was built from. */
  function FromPayloadItem(p: PayloadItem): Item {
    Item(p.itemName, p.unitPrice, p.quantity)
  }

  /** `formData.items.map(...)`: one entry per line, in the same order. */
  function PayloadItems(items: seq<Item>): (r: seq<PayloadItem>)
    ensures |r| == |items|
    ensures forall k :: 0 <= k < |items| ==> r[k] == ToPayloadItem(items[k])
    decreases |items|
  {
    if items == [] then [] else [ToPayloadItem(items[0])] + PayloadItems(items[1..])
  }

  /** The draft lines a payload's entries describe. */
  function DraftItems(ps: seq<PayloadItem>): seq<Item>
    decreases |ps|
  {
    if ps == [] then [] else [FromPayloadItem(ps[0])] + DraftItems(ps[1..])
  }

  /** The payload loses nothing: the draft lines can be read back from it. */
  lemma {:induction false} PayloadRoundTrip(items: seq<Item>)
    ensures DraftItems(PayloadItems(items)) == items
    decreases |items|
  {
    if items != [] {
      PayloadRoundTrip(items[1..]);
    }
  }

  /** The request body built from the draft. */
  function BuildPayload(customerId: Option<int>, items: seq<Item>): (r: Payload)
    ensures r.customerId == customerId
    ensures |r.items| == |items|
    ensures forall k :: 0 <= k < |items| ==>
              r.items[k].itemName == items[k].itemName &&
              r.items[k].unitPrice == items[k].unitPrice &&
              r.items[k].quantity == items[k].quantity
  {
    Payload(customerId, PayloadItems(items))
  }

  /** The total the server computes from the entries it receives (the sum of
      unit price times quantity in backend/main.py), defined for entries whose
      price is a number. */
  function ServerTotal(ps: seq<PayloadItem>): (r: real)
    requires forall k :: 0 <= k < |ps| ==> ps[k].unitPrice.Some?
    ensures (forall k :: 0 <= k < |ps| ==> ps[k].unitPrice.value >= 0.0 && ps[k].quantity >= 0) ==> r >= 0.0
    decreases |ps|
  {
    if ps == [] then 0.0 else ps[0].unitPrice.value * (ps[0].quantity as real) + ServerTotal(ps[1..])
  }

  /** The server's sum is the first entry's amount plus the sum of the rest. */
  lemma ServerTotalFirst(ps: seq<PayloadItem>)
    requires ps != [] && forall k :: 0 <= k < |ps| ==> ps[k].unitPrice.Some?
    ensures ServerTotal(ps) == ps[0].unitPrice.value * (ps[0].quantity as real) + ServerTotal(ps[1..])
  {
  }

  /** When every line has a price, the server's total of the payload is the
      client's running total of the draft. */
  lemma {:induction false} ServerTotalMatchesClient(items: seq<Item>)
    requires forall k :: 0 <= k < |items| ==> items[k].unitPrice.Some?
    ensures forall k :: 0 <= k < |items| ==> PayloadItems(items)[k].unitPrice.Some?
    ensures ServerTotal(PayloadItems(items)) == Total(items)
    decreases |items|
  {
    if items != [] {
      var ps := PayloadItems(items);
      ServerTotalMatchesClient(items[1..]);
      assert ps[1..] == PayloadItems(items[1..]);
      assert ServerTotal(ps[1..]) == Sum(items[1..]);
      assert ps[0].unitPrice.value * (ps[0].quantity as real) == LineAmount(items[0]);
      ServerTotalFirst(ps);
    }
  }

  /** `error.response?.data?.detail || 'Failed to create order'`: a missing or
      empty detail falls back to the generic text, so the text is never empty. */
  function ErrorText(detail: Option<string>): (t: string)
    ensures t != ""
    ensures detail.Some? && detail.value != "" ==> t == detail.value
    ensures detail == None || detail == Some("") ==> t == GenericFailure
  {
    match detail
    case Some(d) => if d != "" then d else GenericFailure
    case None => GenericFailure
  }

  /** The message shown once the POST has settled: the server's id and total
      on success, the error text on failure. */
  function MessageFor(outcome: Outcome): (m: Message)
    ensures outcome.Created? <==> m.SuccessMessage?
    ensures outcome.Created? ==> m.orderId == outcome.id && m.totalCost == outcome.totalCost
    ensures outcome.Rejected? ==> m == ErrorMessage(ErrorText(outcome.detail))
    ensures m != Cleared
  {
    match outcome
    case Created(id, totalCost) => SuccessMessage(id, totalCost)
    case Rejected(detail) => ErrorMessage(ErrorText(detail))
  }

  /** The browser's checks on a price input (`required`, `min="0"`, `step="0.01"`). */
  predicate PriceAccepted(price: Option<real>) {
    price.Some? && price.value >= 0.0 && (price.value * 100.0).Floor as real == price.value * 100.0
  }

  /** The browser's checks on one line: a name, an accepted price, a quantity of at least 1. */
  predicate LineAccepted(it: Item) {
    it.itemName != "" && PriceAccepted(it.unitPrice) && it.quantity >= 1
  }

  /** The browser lets the form submit only when a customer is chosen and every line is accepted. */
  predicate DraftAccepted(customerId: Option<int>, items: seq<Item>) {
    customerId.Some? && forall k :: 0 <= k < |items| ==> LineAccepted(items[k])
  }

  /** A draft the browser lets through yields a payload with a customer id and
      a price on every entry, so the server's total is defined and agrees with
      the client's total, which is positive. */
  lemma AcceptedDraftReconciles(customerId: Option<int>, items: seq<Item>)
    requires DraftInvariant(items) && DraftAccepted(customerId, items)
    ensures BuildPayload(customerId, items).customerId.Some?
    ensures forall k :: 0 <= k < |items| ==> BuildPayload(customerId, items).items[k].unitPrice.Some?
    ensures ServerTotal(BuildPayload(customerId, items).items) == Total(items)
    ensures Total(items) > 0.0
  {
    assert forall k :: 0 <= k < |items| ==> items[k].unitPrice.Some? by {
      forall k | 0 <= k < |items| ensures items[k].unitPrice.Some? {
        assert LineAccepted(items[k]);
      }
    }
    ServerTotalMatchesClient(items);
    PositiveSum(items);
  }

  /** Lines with a positive price and a positive quantity sum to a positive amount. */
  lemma {:induction false} PositiveSum(items: seq<Item>)
    requires |items| >= 1
    requires forall k :: 0 <= k < |items| ==> WellFormedItem(items[k]) && LineAccepted(items[k])
    ensures Sum(items) > 0.0
    decreases |items|
  {
    assert WellFormedItem(items[0]) && LineAccepted(items[0]);
    var p := items[0].unitPrice.value;
    assert p > 0.0;
    assert LineAmount(items[0]) == p * (items[0].quantity as real);
    assert LineAmount(items[0]) > 0.0;
    if |items| > 1 {
      PositiveSum(items[1..]);
    }
  }
}
