# Demo page logic: shopping cart, login check, tab keys, code-area height

This project models the logic in `app.js` of a static demo page. The page shows
several "solution" panels.

- **Cart** (`cart.dfy`): the cart store. It holds an ordered list of line
  items `{name, price, quantity}`, and its buttons add, remove and change the
  quantity of items. After every change the cart display is rebuilt. The
  display shows one row per item, each with price × quantity, and the grand
  total. An empty cart shows the "Cart is empty" marker and total 0.
  `CartStore` is a class. Its `items` field is the page's `cart` array, and
  its `display` field is what the cart container and the total element
  show, kept as data. The store's invariant is that names are unique,
  quantities are at least 1, and the display shows the current items. Each
  method is proved against a function on the item
  list (`Added`, `Removed`, `Updated`, `View`). The lemmas about those
  functions state the store's promises:
  - names stay unique and quantities stay at least 1;
  - adding a known name bumps its quantity, and the first price sticks;
  - removal deletes one entry, keeps the order of the rest, and is idempotent;
  - the total is the sum of price × quantity.
- **LoginForm** (`login_form.dfy`): the submit check of the login forms. The
  e-mail must match `^[^\s@]+@[^\s@]+\.[^\s@]+$` and the password must be at
  least 6 long. The regular expression is modelled exactly, with ECMAScript's
  `\s` written out. It is proved equivalent to a plain description of a
  well-formed address.
- **TabKeys** (`tab_keys.dfy`): arrow-key navigation over the tab buttons.
  The focus wraps around at both ends.
- **CodeArea** (`code_area.dfy`): the clamped height given to the code text
  areas.

The page has a plain variant and a Bootstrap variant of the cart and of the
login form. They differ only in markup (app.js:160-210 and app.js:310-404)
and are modelled once. The rows below cite the plain variant.

## Model

| member | source | states |
|---|---|---|
| `Cart.FindIndex` | app.js:231 | `find` by name: -1 exactly when no item has the name; otherwise an index whose item has the name, with no earlier item having it |
| `Cart.Removed` | app.js:247 | `filter`: no remaining item has the name; every remaining item comes from the old list; the list never grows |
| `Cart.View` | app.js:266-277 | the display is the empty marker exactly when the cart is empty; the shown total is the sum of price × quantity; otherwise one row per item, in order, with its name, price, quantity and line total price × quantity |
| `Cart.Added` | app.js:230-241 | after adding, the name is present; the length is unchanged for a known name and one longer for a new one; no existing item's name or price changes |
| `Cart.Updated` | app.js:251-260 | the list never grows; an absent name leaves it unchanged; every remaining item is an old one or the changed item with a quantity above 0 |
| `Cart.Total` | app.js:273-277 | the sum of price × quantity is never negative when prices are non-negative and quantities positive |
| `Cart.CartStore.constructor` | app.js:214 | a new store holds no items, keeps the invariant and shows the empty cart |
| `Cart.CartStore.AddItem` | app.js:230-244 | the new list is `Added` of the old one; the invariant is kept; the display is rebuilt from the new list |
| `Cart.CartStore.RemoveItem` | app.js:246-249 | the new list is the old list with the name filtered out; the invariant is kept when the list was well formed before; the display is rebuilt |
| `Cart.CartStore.UpdateQuantity` | app.js:251-261 | the new list is `Updated` of the old one; the invariant is kept; the display is rebuilt when the name was present; when it was absent, the items and the display are left as they were |
| `Cart.CartStore.UpdateDisplay` | app.js:263-297 | the display becomes the view of the current items; the items are untouched |
| `Cart.CartStore.RenderView` | app.js:266-277 | the one-pass accumulation of rows and total returns exactly the view of the items |
| `Cart.FindUnique` | app.js:231 | with unique names, `find` returns the one position that carries the name |
| `Cart.AddExisting` | app.js:231-234 | adding a present name keeps the length and raises that item's quantity by exactly 1. Its name and first price stay; every other item is unchanged |
| `Cart.AddNew` | app.js:235-241 | adding an absent name appends `{name, price, 1}` after the unchanged old items |
| `Cart.AddPreservesWf` | app.js:230-241 | adding keeps names unique and quantities at least 1 |
| `Cart.RemoveAt` | app.js:247 | with unique names, removing the name at index i gives exactly the items before i followed by the items after i |
| `Cart.RemoveAbsent` | app.js:247 | removing an absent name leaves the list unchanged |
| `Cart.RemoveIdempotent` | app.js:247 | removing a name twice equals removing it once |
| `Cart.RemovePreservesWf` | app.js:247 | removing keeps names unique and quantities at least 1 |
| `Cart.UpdateAbsent` | app.js:252-253 | changing the quantity of an absent name leaves the list unchanged |
| `Cart.UpdatePresent` | app.js:251-260 | for a present name: if old + change ≤ 0, the item is dropped and the rest keep their order; otherwise only that item changes, to quantity old + change with the same name and price |
| `Cart.UpdatePreservesWf` | app.js:251-260 | changing a quantity keeps names unique and quantities at least 1 |
| `Cart.ReachableWf` | app.js:230-261 | every sequence of add, remove and change operations keeps the invariant |
| `Cart.TotalAfterAdd` | app.js:230-241 | adding raises the total by one unit price: the stored price for a present name, the given price for a new one |
| `Cart.TotalAfterRemove` | app.js:246-247 | removing a present name lowers the total by exactly that item's price × quantity |
| `Cart.TotalIsSumOfRows` | app.js:275-277 | the rendered total equals the sum of the rendered line totals, which equals the sum of price × quantity |
| `Cart.FirstPriceSticks` | app.js:231-240 | adding "X" at 10 and then at 20 yields the single item `{X, 10, 2}` |
| `Cart.WidgetGadgetScenario` | app.js:230-277 | Widget 10 twice, Gadget 5, Widget −1 renders rows Widget 10 × 1 = 10 and Gadget 5 × 1 = 5, with total 15 |
| `Cart.DecrementToZeroRemoves` | app.js:254-256 | one item at quantity 1 decreased by 1 leaves the empty cart and the empty marker |
| `LoginForm.IsWhitespace` | app.js:135 | the `\s` class of the pattern, ECMAScript's whitespace and line terminators; it never contains '@' or '.' |
| `LoginForm.MatchesEmailPattern` | app.js:135-136 | a whole-string match of the pattern; any matching address has at least 5 characters, does not start with '@' and does not end in whitespace |
| `LoginForm.EmailPatternIff` | app.js:135-136 | the address matches the pattern iff it has no whitespace and exactly one '@', not first, and after the '@' a '.' with at least one character on each side |
| `LoginForm.Utf16Length` | app.js:144 | the JavaScript length of a string lies between its character count and twice that count |
| `LoginForm.Utf16LengthBmp` | app.js:144 | for characters inside the Basic Multilingual Plane the JavaScript length is the character count |
| `LoginForm.CheckLogin` | app.js:132-151 | the e-mail error is shown iff the address is not well formed; the password error iff its length is below 6; the form is valid iff neither is shown |
| `LoginForm.ExampleAddresses` | app.js:135-149 | `a@b.co` with `secret` is valid; `a@b@c.d` and `a@b.` are rejected; a 5-character password alone is rejected |
| `TabKeys.Previous` | app.js:456 | for at least one tab and an index in range, the result is a valid index; from 0 it wraps to the last tab, otherwise it goes down |
| `TabKeys.Next` | app.js:459 | for at least one tab and an index in range, the result is a valid index; from the last tab it wraps to 0, otherwise it goes up |
| `TabKeys.OnKeyDown` | app.js:454-464 | Left and Up focus the previous tab, Right and Down the next; Enter and Space click; other keys do nothing; with at least one tab, a focus target is always a valid tab index |
| `TabKeys.MovesAreModular` | app.js:455-460 | Right/Down goes to (i + 1) mod n and Left/Up to (i − 1) mod n, so the focus wraps at both ends |
| `TabKeys.MovesAreInverse` | app.js:455-460 | Left after Right, and Right after Left, return to the starting tab |
| `TabKeys.NextTimesModular` | app.js:458-459 | pressing Right k times from tab i reaches tab (i + k) mod n |
| `TabKeys.FullCircle` | app.js:458-459 | pressing Right n times among n tabs returns to the starting tab |
| `CodeArea.LineCount` | app.js:425 | the number of lines is at least 1 and at most the length + 1 |
| `CodeArea.LineCountJoin` | app.js:425 | joining two texts with a line feed adds their line counts |
| `CodeArea.Height` | app.js:424-426 | the height is between 200 and 400. It is 200 up to 8 lines, 400 from 18 lines, and 20 per line + 40 in between |
| `CodeArea.TextareaHeight` | app.js:424-427 | the height set for a text is between 200 and 400; it is 200 for at most 8 lines and 400 for 18 lines or more |
| `CodeArea.HeightMonotone` | app.js:426 | more lines never give a smaller height |
| `CodeArea.SingleLineHeight` | app.js:425-426 | a text without line feeds has one line and gets the minimum height |

## Left out

- DOM work is left out: the HTML templates, `innerHTML`, `textContent`,
  `classList`, element lookups and tooltip titles. The display is modelled as
  data (`CartView`, `LoginCheck`, `KeyAction`, a height in pixels).
- The guard in updateCartDisplay that returns when the container elements are
  missing (app.js:264) is left out. The elements are taken to exist.
- Prices come from `parseInt` of a `data-price` attribute (app.js:223). The
  model takes an integer price instead and leaves out `NaN`. Prices,
  quantities and totals are unbounded integers, not JavaScript numbers, so
  floating-point rounding of large totals is not modelled.
- Line items are modelled as values in a sequence, not as shared objects. In
  the page, `find` returns a reference that is mutated in place. Nothing else
  holds such a reference, so the values model the same behaviour.
- The store's initial display is taken to be the empty cart. The markup the
  page starts with is not part of this model.
- Several things are left out because they are browser glue with no
  computable result: the copy-to-clipboard code (`execCommand`, the clipboard
  promise API, timers), tab switching by click, smooth scrolling, the debug
  logging, `alert` messages and the generic form-submit handler.
- The `window.*` dispatch functions and the unescaped item names interpolated
  into `onclick` attributes are left out. They are markup concerns.
- The Bootstrap login form also marks each field valid or invalid. The model
  keeps only the two error flags, which carry the same information.
- The focus and click side effects of the key handler are left out. The
  handler's result is the action to take.
