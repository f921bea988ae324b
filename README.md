# Order form: a verified model

This project models the order-composition logic of the order form component
(`frontend/src/components/OrderForm.js`) of a small customer/order data-entry
front end. The form holds a draft order: a chosen customer and a list of line
items. Each line has a name, a unit price and a quantity. The form shows a
subtotal per line and a running order total. On submit it builds a request
body, posts it, and then shows the server's answer.

The model has five modules:

- `Wrappers` holds the `Option` type. A field that the form holds as the empty
  string `''`, or a parse that gave `NaN`, is `None`.
- `LineItems` covers the draft line, the three edits a line's inputs make, and
  the falsy-value rules of `handleItemChange`. It also has the positional
  filter of `removeItem` and the draft invariant: at least one line, no zero
  price, no zero quantity.
- `Totals` holds `calculateTotal` as the left fold that `reduce` performs,
  beside a plain recursive sum used as its reference definition. It also holds
  the per-line subtotal with its display guard.
- `Submission` covers the request payload, the outcome of the POST (a value
  passed in), the message shown, and the browser's `required`/`min`/`step`
  checks that decide whether `handleSubmit` runs at all.
- `Component` holds the class `OrderForm`. Its fields are the component's
  state slots. It has one method per handler. `handleSubmit` is split at its
  `await`: `BeginSubmit` runs up to the POST and `FinishSubmit` runs once it
  settles. Between the two the user may keep editing, because the inputs stay
  enabled. The class invariant also says that a chosen customer is one of the
  listed customers, since the select offers only those.
  `SubmitForm` adds the browser's gate: the disabled button and
  constraint validation.

Four methods at the end of `component.dfy` replay concrete scenarios against
the class contracts alone:

- `AddThenRemoveScenario`: add lines, then remove the second one.
- `BlankPriceScenario`: one line with a price and one left blank.
- `SubmitSuccessScenario` and `SubmitFailureScenario`: customer 3, one line
  "Widget" at 9.99 × 2, the server answering order 42 or
  "Customer not found".

Where the form's handlers and its own input markup disagree, the model
follows the handlers:

- A price of 0 cannot be stored. The price input allows 0 (`min="0"`,
  frontend/src/components/OrderForm.js:198), but `parseFloat(value) || ''`
  (line 39) turns 0 into the unset value. So a zero-priced line can never be
  submitted.
- A quantity is not kept at 1 or more. The quantity input asks for at least 1
  (`min="1"`, line 213), but `parseInt(value) || 1` (line 40) stores a
  negative quantity as parsed. Only the browser's check of `min="1"` then
  blocks submission.
- An empty `detail` string in an error body shows the generic text, because
  `''` is falsy.

## Model

| member | source | states |
|---|---|---|
| `LineItems.BlankItem` | frontend/src/components/OrderForm.js:51 | the line the form starts with, appends and resets to is well formed and has no price |
| `LineItems.StoredPrice` | frontend/src/components/OrderForm.js:39 | a parsed price is kept iff it is a number other than 0; NaN and 0 become unset, so a stored price is never 0 |
| `LineItems.StoredQuantity` | frontend/src/components/OrderForm.js:40 | a parsed non-zero quantity is kept as is, negatives included; NaN and 0 become 1, so a stored quantity is never 0 |
| `LineItems.ApplyEdit` | frontend/src/components/OrderForm.js:37-41 | only the edited field of the line changes (name verbatim, price and quantity through the stored-value rules), and a well-formed line stays well formed |
| `LineItems.EditAt` | frontend/src/components/OrderForm.js:36-37 | the copied list has the same length, the edited line at `index`, and every other line unchanged |
| `LineItems.Filtered` | frontend/src/components/OrderForm.js:57 | the positional filter drops exactly the line at `index` and keeps the rest in order; an out-of-range index drops nothing |
| `LineItems.AfterRemove` | frontend/src/components/OrderForm.js:55-63 | removal is a no-op on a one-line list; otherwise the line at `index` is dropped and the rest keep their order |
| `LineItems.AddKeepsInvariant` | frontend/src/components/OrderForm.js:48-53 | appending a blank line keeps the draft invariant |
| `LineItems.EditKeepsInvariant` | frontend/src/components/OrderForm.js:35-46 | any edit keeps the draft invariant (at least one line, no zero price or quantity) |
| `LineItems.RemoveKeepsInvariant` | frontend/src/components/OrderForm.js:55-63 | removal never empties the list, shrinks it by exactly one only for an in-range index on a list of two or more, and keeps only lines that were there |
| `Totals.Subtotal` | frontend/src/components/OrderForm.js:223-227 | a subtotal is shown iff the price is set and non-zero and the quantity non-zero; the shown value is what the line adds to the total; a hidden subtotal is a line adding nothing |
| `Totals.SubtotalShownIffPriceSet` | frontend/src/components/OrderForm.js:223 | on a well-formed line the subtotal is shown iff the price is set, and it is then non-zero |
| `Totals.SubtotalIsolation` | frontend/src/components/OrderForm.js:223-227 | editing one line leaves every other line's shown subtotal unchanged |
| `Totals.Fold` | frontend/src/components/OrderForm.js:66-70 | the reduce from any start value is that value plus the sum of the line amounts |
| `Totals.Total` | frontend/src/components/OrderForm.js:65-71 | the order total is the sum over all lines of price × quantity, an unset price counting 0 |
| `Totals.SumAppend` | frontend/src/components/OrderForm.js:66-70 | the sum of the line amounts splits over concatenation of line lists |
| `Totals.SumPermutation` | frontend/src/components/OrderForm.js:66-70 | two line lists with the same multiset of lines have the same sum |
| `Totals.TotalPermutation` | frontend/src/components/OrderForm.js:65-71 | the order total does not depend on the order of the lines |
| `Totals.TotalAfterAdd` | frontend/src/components/OrderForm.js:48-53 | appending a blank line leaves the order total unchanged |
| `Totals.TotalAfterEdit` | frontend/src/components/OrderForm.js:35-46 | an edit changes the order total by exactly the change in that line's amount |
| `Totals.TotalAfterRemove` | frontend/src/components/OrderForm.js:55-63 | a removal takes exactly the removed line's amount off the total; a refused removal changes nothing |
| `Totals.TotalIsSumOfShownSubtotals` | frontend/src/components/OrderForm.js:65-71 | the order total equals the sum of the subtotals the lines display, a hidden one counting 0 |
| `Submission.PayloadItems` | frontend/src/components/OrderForm.js:81-85 | the payload has one entry per line, in the same order, each carrying that line's name, price and quantity |
| `Submission.PayloadRoundTrip` | frontend/src/components/OrderForm.js:79-86 | the draft lines are recovered exactly from the payload entries |
| `Submission.BuildPayload` | frontend/src/components/OrderForm.js:79-86 | the request body carries the selected customer and one entry per line, in order, with that line's name, price and quantity |
| `Submission.ServerTotal` | backend/main.py:68 | the server's sum of unit price × quantity is never negative when no price or quantity is |
| `Submission.ServerTotalMatchesClient` | backend/main.py:68 | when every line has a price, the server's sum over the payload equals the client's order total |
| `Submission.ErrorText` | frontend/src/components/OrderForm.js:99 | the error text is the detail when present and non-empty, else "Failed to create order"; it is never empty |
| `Submission.MessageFor` | frontend/src/components/OrderForm.js:89-100 | success gives a success message holding the server's id and total (not the local total); failure gives an error message with the error text |
| `Submission.PriceAccepted` | frontend/src/components/OrderForm.js:196-199 | the browser accepts a price input only when it is filled, at least 0 and a whole number of cents |
| `Submission.LineAccepted` | frontend/src/components/OrderForm.js:181-214 | the browser accepts a line only with a name, an accepted price and a quantity of at least 1 |
| `Submission.DraftAccepted` | frontend/src/components/OrderForm.js:125-139 | the browser lets the form submit only with a customer chosen and every line accepted |
| `Submission.AcceptedDraftReconciles` | frontend/src/components/OrderForm.js:196-214 | a draft that passes the browser's checks sends a customer id and a price on every entry, and its server total equals the positive client total |
| `Component.Listed` | frontend/src/components/OrderForm.js:133-138 | the select's options: an id can be chosen only if a listed customer has it |
| `Component.OrderForm.constructor` | frontend/src/components/OrderForm.js:7-13 | the form starts with no customer, one blank line, not loading, no message and no customers |
| `Component.OrderForm.ReceiveCustomers` | frontend/src/components/OrderForm.js:19-26 | a fetched customer list replaces the choices; a failed fetch leaves them; the fetch settles, once at mount, before any customer can be chosen |
| `Component.OrderForm.HandleChange` | frontend/src/components/OrderForm.js:28-33 | choosing the placeholder or a listed customer stores it, keeps "a chosen customer is a listed one", and touches nothing else |
| `Component.OrderForm.HandleItemChange` | frontend/src/components/OrderForm.js:35-46 | the lines become the edited copy: same length, line `index` edited, every other line and the customer untouched, invariant kept |
| `Component.OrderForm.AddItem` | frontend/src/components/OrderForm.js:48-53 | the lines become the old lines plus one blank line at the end; the customer is untouched |
| `Component.OrderForm.RemoveItem` | frontend/src/components/OrderForm.js:55-63 | the lines become the filtered list when the list has more than one line, and stay at one or more |
| `Component.OrderForm.SubmitDisabled` | frontend/src/components/OrderForm.js:245 | the submit button is disabled while a request is in flight and while there is no customer to choose, and enabled otherwise |
| `Component.OrderForm.BeginSubmit` | frontend/src/components/OrderForm.js:73-86 | loading is set, the message cleared, submit disabled, and the payload built from the current draft |
| `Component.OrderForm.FinishSubmit` | frontend/src/components/OrderForm.js:89-103 | on success the message holds the server's id and total, the draft resets and `onSuccess` is called iff given; on failure the draft is kept and the error text shown; loading ends either way |
| `Component.OrderForm.HandleSubmit` | frontend/src/components/OrderForm.js:73-104 | the whole handler: payload from the draft at submit time, then the success or failure transition, loading false at the end |
| `Component.OrderForm.SubmitForm` | frontend/src/components/OrderForm.js:243-245 | a request is sent iff the button is enabled (not loading, customers present) and the browser's checks pass; with no customer chosen nothing is sent and nothing changes; a sent customer id is one of the listed customers |
| `Component.SecondSubmitWhileInFlight` | frontend/src/components/OrderForm.js:245 | once a request is in flight, a second submit event sends nothing and loading stays on |

## Left out

- The GET of the customer list and the POST of the order, with `useEffect`, are left out. They are network I/O. Their results enter as `ReceiveCustomers`'s argument and as the `Outcome` value.
- The JSX rendering, CSS classes and the spinner are left out. Only the subtotal guard and the button's `disabled` condition are modelled from it. The browser's constraint checks on the inputs (`required`, `min`, `step`) are modelled as a predicate.
- `parseFloat`, `parseInt` and string-to-number conversion are left out. Parse results are inputs (`Option`, `None` for `NaN`). `parseFloat`/`parseInt` applied to an already stored number are taken to return it.
- `Submission.PayloadRoundTrip`: the draft is read back from the payload only because that parse of a stored number is taken as the identity. Float-to-string round trips are not modelled.
- `toFixed(2)` and the success message's text template are left out. Amounts are exact reals and IEEE-754 rounding is not modelled. The success message is kept as the id and total it embeds.
- Submit with edits in flight: `HandleSubmit` covers the handler with no edits between the request and its answer. Interleaved edits are covered by calling `BeginSubmit`, other handlers, then `FinishSubmit`.
- React's batching of state updates and stale closures over `formData` when two events fire before a re-render are left out. Each handler is modelled as acting on the latest state.
- `Component.OrderForm.HandleItemChange` requires `index` in range. Every call site passes the index of a rendered line. Writing past the end of a JavaScript array, which grows it with holes, is not modelled.
- An error body whose `detail` is not a string (FastAPI's list of validation errors) is left out. `detail` is modelled as an optional string.
- An exception thrown by `onSuccess` or by formatting the server total, which would land in the `catch` after a success, is left out.
- The `customers` prop, which the component receives but never reads, is left out. Only the fetched `customersList` is modelled.
- The subtotal guard `item.unit_price && item.quantity` would render a bare `0` for a line whose price or quantity is 0. The draft invariant rules such a line out, so `Totals.Subtotal` treats the guard as plain truthiness. The message banner's own `message.text &&` guard is not modelled.
- The other components (order list, customer list, tab shell, demo notice) and the backend are not part of this model. The backend appears only as the reference sum in `Submission.ServerTotal`.
