/** The order form component's state and event handlers
    (frontend/src/components/OrderForm.js). React's `useState` slots become
    fields; each handler becomes a method that replaces them. The POST and the
    customer fetch are not performed: their results are passed in. */
module Component {
  import opened Wrappers
  import opened LineItems
  import opened Totals
  import opened Submission

  /** A customer record as the customer list returns it. */
  datatype Customer = Customer(id: int, name: string, email: string)

  /** The customer select offers the placeholder and one option per listed
      customer, so only a listed customer's id can be chosen. */
  predicate Listed(customers: seq<Customer>, id: int) {
    exists k :: 0 <= k < |customers| && customers[k].id == id
  }

  class OrderForm {
    /** `formData.customer_id`; `None` is the empty choice `''`. */
    var customerId: Option<int>
    /** `formData.items`. */
    var items: seq<Item>
    var loading: bool
    var message: Message
    /** `customersList`, the choices of the customer select. */
    var customers: seq<Customer>
    /** Whether the host passed an `onSuccess` callback. */
    const hasOnSuccess: bool

    /** The draft invariant, and a chosen customer is one of the listed customers. */
    ghost predicate Valid()
      reads this
    {
      DraftInvariant(items) &&
      (customerId.Some? ==> Listed(customers, customerId.value))
    }

    /** The initial state: no customer, one blank line, idle, no message, no customers yet. */
    constructor (hasOnSuccess: bool)
      ensures Valid()
      ensures customerId == None && items == [BlankItem()]
      ensures !loading && message == Cleared && customers == []
      ensures this.hasOnSuccess == hasOnSuccess
    {
      this.hasOnSuccess := hasOnSuccess;
      customerId := None;
      items := [BlankItem()];
      loading := false;
      message := Cleared;
      customers := [];
    }

    /** `fetchCustomers` once the GET has settled: a response replaces the
        list; an error leaves it as it was. The fetch runs once, at mount, and
        until it settles the select offers only the placeholder, so no
        customer has been chosen yet. */
    method ReceiveCustomers(fetched: Option<seq<Customer>>)
      requires Valid() && customerId.None?
      modifies this`customers
      ensures Valid()
      ensures customers == if fetched.Some? then fetched.value else old(customers)
    {
      if fetched.Some? {
        customers := fetched.value;
      }
    }

    /** `handleChange` on the customer select: stores the chosen value, which
        is the placeholder or a listed customer's id, and nothing else. */
    method HandleChange(selected: Option<int>)
      requires Valid()
      requires selected.None? || Listed(customers, selected.value)
      modifies this`customerId
      ensures Valid()
      ensures customerId == selected
    {
      customerId := selected;
    }

    /** `handleItemChange`: replaces the list by a copy whose line `index`
        has the edited field; every other line and the customer stay. */
    method HandleItemChange(index: nat, e: Edit)
      requires Valid() && index < |items|
      modifies this`items
      ensures Valid()
      ensures items == EditAt(old(items), index, e)
    {
      EditKeepsInvariant(items, index, e);
      items := EditAt(items, index, e);
    }

    /** `addItem`: appends one blank line at the end. */
    method AddItem()
      requires Valid()
      modifies this`items
      ensures Valid()
      ensures items == old(items) + [BlankItem()]
    {
      AddKeepsInvariant(items);
      items := items + [BlankItem()];
    }

    /** `removeItem`: with more than one line, filters out position `index`
        (no line at all if `index` is out of range); with one line, nothing. */
    method RemoveItem(index: int)
      requires Valid()
      modifies this`items
      ensures Valid()
      ensures items == AfterRemove(old(items), index)
      ensures |items| >= 1
    {
      RemoveKeepsInvariant(items, index);
      if |items| > 1 {
        items := Filtered(items, index);
      }
    }

    /** The `disabled` condition of the submit button: off while a request
        is in flight and while there is no customer to choose. */
    function SubmitDisabled(): (d: bool)
      reads this
      ensures loading ==> d
      ensures customers == [] ==> d
      ensures !loading && customers != [] ==> !d
    {
      loading || |customers| == 0
    }

    /** The first half of `handleSubmit`, up to the POST: busy, message
        cleared, payload built from the current draft. */
    method BeginSubmit() returns (payload: Payload)
      modifies this`loading, this`message
      ensures loading && message == Cleared
      ensures SubmitDisabled()
      ensures payload == BuildPayload(customerId, items)
    {
      loading := true;
      message := Cleared;
      payload := BuildPayload(customerId, items);
    }

    /** The second half of `handleSubmit`, once the POST has settled. On
        success: the server's id and total in a success message, the draft
        reset, `onSuccess` called if given. On failure: the error text, the
        draft kept. Either way: no longer busy. */
    method FinishSubmit(outcome: Outcome) returns (notified: bool)
      requires Valid()
      modifies this`customerId, this`items, this`loading, this`message
      ensures Valid()
      ensures !loading
      ensures message == MessageFor(outcome)
      ensures outcome.Created? ==> customerId == None && items == [BlankItem()]
      ensures outcome.Rejected? ==> customerId == old(customerId) && items == old(items)
      ensures notified <==> outcome.Created? && hasOnSuccess
    {
      match outcome {
        case Created(id, totalCost) =>
          message := SuccessMessage(id, totalCost);
          customerId := None;
          items := [BlankItem()];
          notified := hasOnSuccess;
        case Rejected(detail) =>
          message := ErrorMessage(ErrorText(detail));
          notified := false;
      }
      loading := false;
    }

    /** `handleSubmit` with no edits while the POST is in flight. */
    method HandleSubmit(outcome: Outcome) returns (payload: Payload, notified: bool)
      requires Valid()
      modifies this`customerId, this`items, this`loading, this`message
      ensures Valid()
      ensures payload == BuildPayload(old(customerId), old(items))
      ensures !loading && message == MessageFor(outcome)
      ensures outcome.Created? ==> customerId == None && items == [BlankItem()]
      ensures outcome.Rejected? ==> customerId == old(customerId) && items == old(items)
      ensures notified <==> outcome.Created? && hasOnSuccess
    {
      payload := BeginSubmit();
      notified := FinishSubmit(outcome);
    }

    /** A submit event on the form: the browser runs `handleSubmit` only when
        the button is enabled and every required, `min` and `step` check
        passes; otherwise no request is made and nothing changes. */
    method SubmitForm(outcome: Outcome) returns (sent: Option<Payload>, notified: bool)
      requires Valid()
      modifies this`customerId, this`items, this`loading, this`message
      ensures Valid()
      ensures sent.Some? <==> old(!SubmitDisabled() && DraftAccepted(customerId, items))
      ensures old(customerId).None? ==> sent.None?
      ensures sent.None? ==> !notified && unchanged(this)
      ensures sent.Some? ==> sent.value == BuildPayload(old(customerId), old(items))
      ensures sent.Some? ==> sent.value.customerId.Some?
      ensures sent.Some? ==> Listed(old(customers), sent.value.customerId.value)
      ensures sent.Some? ==> !loading && message == MessageFor(outcome)
      ensures sent.Some? && outcome.Created? ==> customerId == None && items == [BlankItem()]
      ensures sent.Some? && outcome.Rejected? ==> customerId == old(customerId) && items == old(items)
      ensures notified <==> sent.Some? && outcome.Created? && hasOnSuccess
    {
      if !SubmitDisabled() && DraftAccepted(customerId, items) {
        var payload;
        payload, notified := HandleSubmit(outcome);
        sent := Some(payload);
      } else {
        sent := None;
        notified := false;
      }
    }
  }

  /** While a request is in flight the button is disabled, so a second
      submit event sends nothing and changes nothing. */
  method SecondSubmitWhileInFlight(form: OrderForm, outcome: Outcome) returns (sent: Option<Payload>)
    requires form.Valid()
    modifies form
    ensures form.loading
    ensures sent.None?
  {
    var first := form.BeginSubmit();
    var notified;
    sent, notified := form.SubmitForm(outcome);
  }

  /** Adding items and then removing the second keeps the others in order. */
  method AddThenRemoveScenario()
  {
    var form := new OrderForm(true);
    form.AddItem();
    form.AddItem();
    form.AddItem();
    form.HandleItemChange(0, NameEdit("a"));
    form.HandleItemChange(1, NameEdit("b"));
    form.HandleItemChange(2, NameEdit("c"));
    form.HandleItemChange(3, NameEdit("d"));
    var before := form.items;
    form.RemoveItem(1);
    assert form.items == [before[0], before[2], before[3]];
    form.RemoveItem(7);
    assert |form.items| == 3;
    form.RemoveItem(0);
    form.RemoveItem(0);
    form.RemoveItem(0);
    assert form.items == [before[3]];
  }

  /** A priced line and a line left blank: only the first shows a subtotal,
      and the total is that subtotal. */
  method BlankPriceScenario()
  {
    var form := new OrderForm(false);
    form.AddItem();
    form.HandleItemChange(0, PriceEdit(Some(5.0)));
    form.HandleItemChange(0, QuantityEdit(Some(3)));
    form.HandleItemChange(1, PriceEdit(None));
    assert Subtotal(form.items[0]) == Some(15.0);
    assert Subtotal(form.items[1]) == None;
    var lines := form.items;
    assert lines == [Item("", Some(5.0), 3), Item("", None, 1)];
    assert Sum(lines[1..]) == LineAmount(lines[1]) + Sum(lines[1..][1..]);
    assert Total(lines) == 15.0;
  }

  /** A draft for customer 3 with one priced line: the payload carries it
      unchanged, the local total is 19.98, and the server's answer resets the
      draft and is what the message shows. */
  method SubmitSuccessScenario()
  {
    var form := new OrderForm(true);
    form.ReceiveCustomers(Some([Customer(3, "Ada", "ada@example.com")]));
    assert form.customers[0].id == 3;
    form.HandleChange(Some(3));
    form.HandleItemChange(0, NameEdit("Widget"));
    form.HandleItemChange(0, PriceEdit(Some(9.99)));
    form.HandleItemChange(0, QuantityEdit(Some(2)));
    assert form.items == [Item("Widget", Some(9.99), 2)];
    assert Total(form.items) == 19.98;
    assert PriceAccepted(Some(9.99));
    var sent, notified := form.SubmitForm(Created(42, 19.98));
    assert sent.Some? && |sent.value.items| == 1;
    assert sent.value.items[0] == PayloadItem("Widget", Some(9.99), 2);
    assert notified && form.message == SuccessMessage(42, 19.98);
    assert form.items == [BlankItem()] && form.customerId == None;
    sent, notified := form.SubmitForm(Created(43, 0.0));
    assert sent == None && !notified;
  }

  /** Failed submissions keep the draft and show the detail, or the generic
      text when there is none. */
  method SubmitFailureScenario()
  {
    var form := new OrderForm(false);
    form.ReceiveCustomers(Some([Customer(3, "Ada", "ada@example.com")]));
    assert form.customers[0].id == 3;
    form.HandleChange(Some(3));
    form.HandleItemChange(0, NameEdit("Gadget"));
    form.HandleItemChange(0, PriceEdit(Some(1.5)));
    var draft := form.items;
    assert PriceAccepted(Some(1.5));
    var sent, notified := form.SubmitForm(Rejected(Some("Customer not found")));
    assert sent.Some? && !notified;
    assert form.message == ErrorMessage("Customer not found");
    assert form.items == draft;
    sent, notified := form.SubmitForm(Rejected(None));
    assert sent.Some? && form.message == ErrorMessage("Failed to create order");
  }
}
