# Admin dashboard: order drafts, user table and product inventory

A verified Dafny model of the stateful pieces of a React admin dashboard:

- **The "Create New Order" modal** (`create_order_modal.dfy`, module `CreateOrderModal`).
  It keeps a list of order lines (`OrderItem`: product id, quantity, unit price) checked against a product catalogue.
  Lines can be added, removed and edited. Selecting a product copies its price and resets the quantity to 1.
  A quantity edit is checked against the product's stock first and against the lower bound 1 second.
  The total is a left fold over the lines.
  Submitting runs four checks in a fixed order, then builds a `PENDING` order and appends it to the page's order list.
  The modal is the class `OrderDraft`. The page's order list is the class `OrderBook`.
  Each state-changing method is stated against a pure specification function (`RemoveAt`, `ApplyItemChange`, `Validate`, `BuildOrder`), and the properties are proved about those functions.
- **The user-management page** (`user_management.dfy`, module `UserManagement`).
  It covers the e-mail shortener of the users table, built on a model of `String.prototype.split`.
  The two dialog flags driven by the row action menu are the class `UserDialogs`, specified by `AfterAction` and `AfterClose`.
  It also covers the numbered pagination buttons.
- **The product inventory page** (`product_inventory.dfy`, module `ProductInventory`).
  Delete-by-id is a filter over the product list. Select-for-edit records the product and opens the edit modal. This is the class `Inventory`.
- **The "Add Product" modal** (`add_product_modal.dfy`, module `AddProductModal`).
  Its form starts from fixed initial values, and submitting appends one product, whose id is the current time, to the inventory's list.
- The record types come from `src/api.ts` (`api_types.dfy`) and `src/assets/types.ts` (`asset_types.dfy`). `wrappers.dfy` holds `Option` and `Result`.

Where each source function is modelled (its properties are the lemmas in the table below):
- `shortenEmail` is `UserManagement.ShortenEmail`; see `ShortenEmailOneAt`, `ShortenEmailShape` and `ShortenEmailIgnoresSecondAt`.
- `calculateTotal` is `CreateOrderModal.Total`; see `TotalIsLineSum` and the other `Total…` lemmas.
- `getPaymentMethodLabel` is `CreateOrderModal.MethodLabel`; see `MethodsDistinguishable`.
- The checks of `handleSubmit` are `CreateOrderModal.Validate`; see `ValidateAcceptsExactly` and `ValidateOrder`.
- The `setOrders` list of the page that opens the order modal is the class `CreateOrderModal.OrderBook`.
- `handleRemoveItem`'s filter is `CreateOrderModal.RemoveAt`; see `RemoveAtSpec`.

Modelling conventions:
- Money is integer cents. Quantities and stock are integers.
- The current time (`new Date()`, `Date.now()`) is a parameter `now`.
- The modal's error string is the datatype `Notice`. `NoNotice` is the empty string.
- `products.find` returns the first product whose optional `_id` equals the id. A product without `_id` never matches.

## Model

| member | source | states |
|---|---|---|
| `CreateOrderModal.MethodsDistinguishable` | src/components/CreateOrderModal.tsx:86-97 | each of the five payment methods is offered once, and both its stored code and its label identify it |
| `CreateOrderModal.FindProduct` | src/components/CreateOrderModal.tsx:59 | `None` exactly when no product has the id; otherwise the result has the id and is the first such product in catalogue order |
| `CreateOrderModal.RemoveAtSpec` | src/components/CreateOrderModal.tsx:44-46 | removing line i drops exactly that line and keeps the others in order; an out-of-range (also negative) index leaves the list unchanged |
| `CreateOrderModal.KeepOthersSpec` | src/components/CreateOrderModal.tsx:45 | the position-numbering filter keeps every element except the one numbered `index`, and keeps everything when no element has that number |
| `CreateOrderModal.ApplyItemChange` | src/components/CreateOrderModal.tsx:48-76 | only line `index` can change. Selecting a product sets the id, the catalogue price (0 when unknown) and quantity 1. A quantity edit is refused exactly when it exceeds a known product's stock (`ExceedsStock`, checked first) or is below 1 (`BelowOne`). An accepted quantity changes only that field and lies in [1, stock]. A price edit changes nothing |
| `CreateOrderModal.FoldIsLineSum` | src/components/CreateOrderModal.tsx:83 | the left fold from any start value equals the start value plus the sum of line amounts |
| `CreateOrderModal.TotalIsLineSum` | src/components/CreateOrderModal.tsx:82-84 | the total is the sum over lines of price × quantity, and 0 for no lines |
| `CreateOrderModal.LineSumConcat` | src/components/CreateOrderModal.tsx:83 | the line sum of a concatenation is the sum of the line sums |
| `CreateOrderModal.LineSumNonNegative` | src/components/CreateOrderModal.tsx:83 | the line sum is non-negative when every price and quantity is |
| `CreateOrderModal.TotalNonNegative` | src/components/CreateOrderModal.tsx:82-84 | the total is non-negative when every price and quantity is |
| `CreateOrderModal.TotalAfterAddItem` | src/components/CreateOrderModal.tsx:40-42 | appending the blank line leaves the total unchanged |
| `CreateOrderModal.TotalAfterRemoveItem` | src/components/CreateOrderModal.tsx:44-46 | removing line i lowers the total by exactly that line's price × quantity |
| `CreateOrderModal.StockNotice` | src/components/CreateOrderModal.tsx:113-119 | no notice exactly when no line exceeds its known product's stock; otherwise the notice names the product and stock of the first such line |
| `CreateOrderModal.CheckStock` | src/components/CreateOrderModal.tsx:113-119 | the loop with early return yields the notice of the first overstocked line, or none |
| `CreateOrderModal.ValidateAcceptsExactly` | src/components/CreateOrderModal.tsx:103-124 | a draft passes if and only if it has lines, every line has a product, no line exceeds stock, and street, city, zip code and country are non-empty |
| `CreateOrderModal.ValidateOrder` | src/components/CreateOrderModal.tsx:103-124 | the checks run in order: no lines, then an unselected product, then the first overstocked line, then the address; each notice appears only when the earlier checks pass |
| `CreateOrderModal.ValidateIgnoresState` | src/components/CreateOrderModal.tsx:121 | the state/province field never affects validation |
| `CreateOrderModal.BuildOrder` | src/components/CreateOrderModal.tsx:126-135 | the built order is PENDING, has no id yet, and carries the user, the current lines, the address and the chosen method's code; its total is the sum of line amounts; both dates are the submission instant |
| `CreateOrderModal.OrderDraft.constructor` | src/components/CreateOrderModal.tsx:28-38 | the modal starts with no lines, an empty address, credit card, not loading and no notice |
| `CreateOrderModal.OrderDraft.HandleAddItem` | src/components/CreateOrderModal.tsx:40-42 | exactly one blank line `("", 1, 0)` is appended; earlier lines are unchanged |
| `CreateOrderModal.OrderDraft.HandleRemoveItem` | src/components/CreateOrderModal.tsx:44-46 | the lines become `RemoveAt` of the old lines |
| `CreateOrderModal.OrderDraft.HandleItemChange` | src/components/CreateOrderModal.tsx:48-76 | an accepted edit commits `ApplyItemChange`'s lines and clears the notice; a refused one keeps the lines and sets its notice; nothing else changes |
| `CreateOrderModal.OrderDraft.HandleAddressChange` | src/components/CreateOrderModal.tsx:78-80 | exactly the named address field takes the new value |
| `CreateOrderModal.OrderDraft.SelectPaymentMethod` | src/components/CreateOrderModal.tsx:231 | the chosen method becomes the draft's method |
| `CreateOrderModal.OrderDraft.HandleSubmit` | src/components/CreateOrderModal.tsx:99-147 | if validation fails, its notice is set and the order list is unchanged. Otherwise the built order is appended after every existing order, the notice is cleared, loading ends false and the modal closes |
| `UserManagement.Split` | src/pages/UserManagement.tsx:10 | split yields at least one part, at least two exactly when the separator occurs, and no part contains the separator |
| `UserManagement.JoinSplit` | src/pages/UserManagement.tsx:10 | joining the split parts with the separator gives back the string |
| `UserManagement.SplitAtFirst` | src/pages/UserManagement.tsx:10 | the first part is the text before the first separator |
| `UserManagement.ShortenEmailOneAt` | src/pages/UserManagement.tsx:8-12 | for one "@" and a non-empty domain, the result is the local part + "@" + the domain's first character + "..." |
| `UserManagement.ShortenEmailShape` | src/pages/UserManagement.tsx:10-11 | the result starts with the local part and "@". Its length is the local part's + 5, or + 13 when the domain part is empty and `undefined` is printed |
| `UserManagement.ShortenEmailIgnoresSecondAt` | src/pages/UserManagement.tsx:10 | text after a second "@" does not affect the result |
| `UserManagement.ActionToggles` | src/pages/UserManagement.tsx:18-25 | "edit" flips only the edit flag and "reset" only the password flag; every other value changes neither; the same choice twice restores both flags |
| `UserManagement.CloseIdempotent` | src/pages/UserManagement.tsx:26-29 | close leaves both flags false and is idempotent |
| `UserManagement.UserDialogs.constructor` | src/pages/UserManagement.tsx:15-16 | both dialogs start closed |
| `UserManagement.UserDialogs.Action` | src/pages/UserManagement.tsx:18-25 | the flags move as `AfterAction` says |
| `UserManagement.UserDialogs.Close` | src/pages/UserManagement.tsx:26-29 | the flags move as `AfterClose` says |
| `UserManagement.PaginationButtons` | src/pages/UserManagement.tsx:106 | with 30 users the page renders three buttons, labelled 1, 2, 3 in order |
| `UserManagement.PageButtonLabelsDistinct` | src/pages/UserManagement.tsx:106 | the labels increase strictly, so the button keys are distinct |
| `ProductInventory.WithoutId` | src/pages/ProductInventory.tsx:22 | a product remains exactly when it was in the list and does not carry the deleted id |
| `ProductInventory.CountIdConcat` | src/pages/ProductInventory.tsx:22 | the number of products with an id is additive over concatenation |
| `ProductInventory.WithoutIdCount` | src/pages/ProductInventory.tsx:21-23 | the list shrinks by exactly the number of products carrying the id, and none is left |
| `ProductInventory.WithoutIdConcat` | src/pages/ProductInventory.tsx:22 | the survivors keep their relative order: deleting from a concatenation deletes from each part |
| `ProductInventory.WithoutIdAbsent` | src/pages/ProductInventory.tsx:22 | deleting an id that no product carries leaves the list unchanged |
| `ProductInventory.WithoutIdIdempotent` | src/pages/ProductInventory.tsx:22 | deleting twice is deleting once |
| `ProductInventory.Inventory.constructor` | src/pages/ProductInventory.tsx:10-14 | the page starts with the given products, both modals closed and nothing being edited |
| `ProductInventory.Inventory.HandleEdit` | src/pages/ProductInventory.tsx:16-19 | the product is recorded for editing and the edit modal opens; the product list is not touched |
| `ProductInventory.Inventory.HandleDelete` | src/pages/ProductInventory.tsx:21-23 | the list becomes `WithoutId` of the old list |
| `ProductInventory.Inventory.OpenAddModal` | src/pages/ProductInventory.tsx:26 | the add modal opens |
| `ProductInventory.Inventory.CloseAddModal` | src/pages/ProductInventory.tsx:83 | the add modal closes |
| `ProductInventory.Inventory.CloseEditModal` | src/pages/ProductInventory.tsx:85 | the edit modal closes; the recorded product stays |
| `AddProductModal.AppendIgnoresDuplicates` | src/components/AddProductModal.tsx:18-21 | the append makes no uniqueness check. A taken id then occurs once more, and a later delete of that id removes the new product with the old ones |
| `AddProductModal.AddProductForm.constructor` | src/components/AddProductModal.tsx:11-15 | the form starts with name "", category "", price 0, quantity 0 and in stock |
| `AddProductModal.AddProductForm.SetName` | src/components/AddProductModal.tsx:32 | the name field takes the typed value; in stock stays true |
| `AddProductModal.AddProductForm.SetCategory` | src/components/AddProductModal.tsx:33 | the category field takes the typed value; in stock stays true |
| `AddProductModal.AddProductForm.SetPrice` | src/components/AddProductModal.tsx:34 | the price field takes the entered number; in stock stays true |
| `AddProductModal.AddProductForm.SetQuantity` | src/components/AddProductModal.tsx:35 | the quantity field takes the entered number; in stock stays true |
| `AddProductModal.AddProductForm.HandleSubmit` | src/components/AddProductModal.tsx:17-23 | exactly one product is appended after the earlier ones, which are unchanged. It has id `now`, the form's name, category, price and quantity, and in stock true. The add modal then closes |

## Left out

- Rendering, CSS and routing are left out; the model covers only the state the handlers change.
- The REST client is left out: fetch, bearer headers, the 401 redirect, token storage and JSON parsing.
- The `createOrer` backend call and its failure path are left out. The model takes the backend to return the order it is sent, and appends that order.
- CreateOrderModal.OrderDraft.HandleSubmit: the `loading` flag is shown only as it ends (false after a successful submit); its true value during the awaited backend call is not observable in a synchronous model.
- CreateOrderModal.BuildOrder: both dates are one instant `now`, although the source evaluates `new Date()` twice.
- Floating-point money is left out. Prices are integer cents and the `toFixed(2)` display formatting is ignored.
- `Number(value)` parsing is left out. Quantity and price inputs are integers, so the NaN input that slips past both quantity checks is not modelled.
- The aliasing in `handleItemChange` is not modelled. Its shallow copy shares line objects with the old list, and the edit mutates them. The model builds a new line value; the committed list is the same either way.
- `handleItemChange` throws on an index with no line when the product or the quantity is edited (lines 53 and 58). A price edit with such an index only clears the notice. Every caller passes the index of a rendered line, so `HandleItemChange` and `ApplyItemChange` require a valid index for all three fields.
- `shortenEmail` throws when the address has no "@". `ShortenEmail` therefore requires one.
- JavaScript strings are UTF-16 code units. Here a string is a sequence of `char`, so the "first domain character" is one `char`.
- The edit-product modal, the auth context and the mock-data pages are left out. They are form binding, network calls or static rendering.
- The error-message texts are left out. Each message is a `Notice` variant carrying the numbers and the product name it interpolates.
- The catalogue and order list are passed in from the page that opens the order modal. That page is not part of this model; `OrderBook` stands for its order list.
