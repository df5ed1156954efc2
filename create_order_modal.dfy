/**
 * The order-draft editor of the "Create New Order" modal
 * (src/components/CreateOrderModal.tsx): a list of order lines checked
 * against a product catalogue, the running total, and the ordered checks
 * that decide whether a draft may be submitted as a PENDING order.
 */
module CreateOrderModal {
  import opened Wrappers
  import opened ApiTypes

  // ---------------------------------------------------------------------------
  // Payment methods
  // ---------------------------------------------------------------------------

  datatype PaymentMethod = CreditCard | DebitCard | PayPal | BankTransfer | CashOnDelivery

  /** The radio buttons, in the order the form renders them. */
  const AllMethods: seq<PaymentMethod> := [CreditCard, DebitCard, PayPal, BankTransfer, CashOnDelivery]

  /** The value stored in an order's `method` field. */
  function MethodCode(m: PaymentMethod): string
  {
    match m
    case CreditCard => "credit_card"
    case DebitCard => "debit_card"
    case PayPal => "paypal"
    case BankTransfer => "bank_transfer"
    case CashOnDelivery => "cash_on_delivery"
  }

  /** The label shown next to each radio button and in the order summary. */
  function MethodLabel(m: PaymentMethod): string
  {
    match m
    case CreditCard => "Credit Card"
    case DebitCard => "Debit Card"
    case PayPal => "PayPal"
    case BankTransfer => "Bank Transfer"
    case CashOnDelivery => "Cash on Delivery"
  }

  /** Every method is offered exactly once, and codes and labels tell methods apart. */
  lemma MethodsDistinguishable(m1: PaymentMethod, m2: PaymentMethod)
    ensures multiset(AllMethods)[m1] == 1
    ensures MethodCode(m1) == MethodCode(m2) ==> m1 == m2
    ensures MethodLabel(m1) == MethodLabel(m2) ==> m1 == m2
  {
  }

  // ---------------------------------------------------------------------------
  // Catalogue lookup
  // ---------------------------------------------------------------------------

  /** No product of `products` carries the id `id`. */
  predicate NoMatch(products: seq<Product>, id: string)
  {
    forall p :: p in products ==> p.id != Some(id)
  }

  /** `products.find(p => p._id === id)`: the first product whose `_id` is `id`. */
  function FindProduct(products: seq<Product>, id: string): (r: Option<Product>)
    ensures r.None? <==> NoMatch(products, id)
    ensures r.Some? ==> r.value.id == Some(id)
    ensures r.Some? ==> exists k :: 0 <= k < |products| && products[k] == r.value && NoMatch(products[..k], id)
  {
    if products == [] then None
    else if products[0].id == Some(id) then
      assert products[..0] == [];
      Some(products[0])
    else
      var r := FindProduct(products[1..], id);
      if r.Some? then
        var k :| 0 <= k < |products[1..]| && products[1..][k] == r.value && NoMatch(products[1..][..k], id);
        assert products[..k + 1] == [products[0]] + products[1..][..k];
        r
      else
        assert products == [products[0]] + products[1..];
        r
  }

  /** The unit price copied into a line when `id` is selected: 0 for an unknown product. */
  function CataloguePrice(products: seq<Product>, id: string): int
  {
    match FindProduct(products, id)
    case Some(p) => p.price
    case None => 0
  }

  // ---------------------------------------------------------------------------
  // Notices (the `error` string of the modal)
  // ---------------------------------------------------------------------------

  /** The message the modal shows; `NoNotice` is the empty string. */
  datatype Notice =
    | NoNotice
    | ExceedsStock(requested: int, stock: int)
    | BelowOne
    | NoItems
    | UnselectedProduct
    | ShortOfStock(productName: string, stock: int)
    | AddressIncomplete

  // ---------------------------------------------------------------------------
  // Lines: add, remove, edit
  // ---------------------------------------------------------------------------

  /** The line "+ Add Item" appends. */
  const BlankItem := OrderItem("", 1, 0)

  /** Walks `s`, numbering its elements from `pos`, keeping each whose number is not `index`. */
  function KeepOthers<T>(s: seq<T>, index: int, pos: int): seq<T>
  {
    if s == [] then []
    else (if pos == index then [] else [s[0]]) + KeepOthers(s[1..], index, pos + 1)
  }

  /** `items.filter((_, i) => i !== index)`. */
  function RemoveAt<T>(s: seq<T>, index: int): seq<T>
  {
    KeepOthers(s, index, 0)
  }

  lemma {:induction false} KeepOthersSpec<T>(s: seq<T>, index: int, pos: int)
    ensures pos <= index < pos + |s| ==> KeepOthers(s, index, pos) == s[..index - pos] + s[index - pos + 1..]
    ensures !(pos <= index < pos + |s|) ==> KeepOthers(s, index, pos) == s
  {
    if s != [] {
      KeepOthersSpec(s[1..], index, pos + 1);
      if pos == index {
        assert s[index - pos + 1..] == s[1..];
      } else if pos < index < pos + |s| {
        assert s[..index - pos] == [s[0]] + s[1..][..index - pos - 1];
        assert s[index - pos + 1..] == s[1..][index - pos..];
      } else {
        assert s == [s[0]] + s[1..];
      }
    }
  }

  /** Removing line `index` drops exactly that line and keeps the rest in order;
      an index outside the list changes nothing. */
  lemma RemoveAtSpec<T>(s: seq<T>, index: int)
    ensures 0 <= index < |s| ==> RemoveAt(s, index) == s[..index] + s[index + 1..]
    ensures 0 <= index < |s| ==> |RemoveAt(s, index)| == |s| - 1
    ensures !(0 <= index < |s|) ==> RemoveAt(s, index) == s
  {
    KeepOthersSpec(s, index, 0);
  }

  /** Which field of a line the form edits, with the raw new value. */
  datatype ItemEdit = ProductIdField(productId: string) | QuantityField(quantity: int) | PriceField(price: int)

  /** The stock-and-lower-bound checks on a quantity edit of a line whose product is `productId`. */
  function QuantityCheck(products: seq<Product>, productId: string, quantity: int): Notice
  {
    match FindProduct(products, productId)
    case Some(p) =>
      if quantity > p.stock then ExceedsStock(quantity, p.stock)
      else if quantity < 1 then BelowOne
      else NoNotice
    case None =>
      if quantity < 1 then BelowOne else NoNotice
  }

  /** The lines after editing line `index`, or the notice that refuses the edit. */
  function ApplyItemChange(items: seq<OrderItem>, products: seq<Product>, index: nat, edit: ItemEdit)
    : (r: Result<seq<OrderItem>, Notice>)
    requires index < |items|
    ensures r.Ok? ==> |r.value| == |items|
    ensures r.Ok? ==> forall k :: 0 <= k < |items| && k != index ==> r.value[k] == items[k]
    ensures edit.ProductIdField? ==>
      r.Ok? && r.value[index].productId == edit.productId && r.value[index].quantity == 1 &&
      r.value[index].price == (if NoMatch(products, edit.productId) then 0
                               else FindProduct(products, edit.productId).value.price)
    ensures edit.QuantityField? ==>
      var found := FindProduct(products, items[index].productId);
      var q := edit.quantity;
      && (r.Err? <==> (found.Some? && q > found.value.stock) || q < 1)
      && (found.Some? && q > found.value.stock ==> r == Err(ExceedsStock(q, found.value.stock)))
      && (!(found.Some? && q > found.value.stock) && q < 1 ==> r == Err(BelowOne))
      && (r.Ok? ==> r.value[index] == items[index].(quantity := q))
      && (r.Ok? ==> 1 <= q && (found.Some? ==> q <= found.value.stock))
    ensures edit.PriceField? ==> r == Ok(items)
  {
    match edit
    case ProductIdField(id) =>
      Ok(items[index := OrderItem(id, 1, CataloguePrice(products, id))])
    case QuantityField(q) =>
      var notice := QuantityCheck(products, items[index].productId, q);
      if notice != NoNotice then Err(notice)
      else Ok(items[index := items[index].(quantity := q)])
    case PriceField(_) =>
      Ok(items)
  }

  // ---------------------------------------------------------------------------
  // Total
  // ---------------------------------------------------------------------------

  function Amount(item: OrderItem): int
  {
    item.price * item.quantity
  }

  /** `items.reduce((total, item) => total + price * quantity, acc)`: a left fold. */
  function Fold(acc: int, items: seq<OrderItem>): int
    decreases |items|
  {
    if items == [] then acc else Fold(acc + Amount(items[0]), items[1..])
  }

  /** `calculateTotal`. */
  function Total(items: seq<OrderItem>): int
  {
    Fold(0, items)
  }

  /** The sum of the line amounts, as an independent reference for `Total`. */
  function LineSum(items: seq<OrderItem>): int
  {
    if items == [] then 0 else Amount(items[0]) + LineSum(items[1..])
  }

  lemma {:induction false} FoldIsLineSum(acc: int, items: seq<OrderItem>)
    ensures Fold(acc, items) == acc + LineSum(items)
    decreases |items|
  {
    if items != [] {
      FoldIsLineSum(acc + Amount(items[0]), items[1..]);
    }
  }

  /** The total is the sum over the lines of price times quantity. */
  lemma TotalIsLineSum(items: seq<OrderItem>)
    ensures Total(items) == LineSum(items)
    ensures items == [] ==> Total(items) == 0
  {
    FoldIsLineSum(0, items);
  }

  lemma {:induction false} LineSumConcat(a: seq<OrderItem>, b: seq<OrderItem>)
    ensures LineSum(a + b) == LineSum(a) + LineSum(b)
  {
    if a == [] {
      assert a + b == b;
    } else {
      assert (a + b)[1..] == a[1..] + b;
      LineSumConcat(a[1..], b);
    }
  }

  /** The total of lines whose prices and quantities are non-negative is non-negative. */
  lemma {:induction false} TotalNonNegative(items: seq<OrderItem>)
    requires forall k :: 0 <= k < |items| ==> items[k].price >= 0 && items[k].quantity >= 0
    ensures Total(items) >= 0
  {
    TotalIsLineSum(items);
    LineSumNonNegative(items);
  }

  lemma {:induction false} LineSumNonNegative(items: seq<OrderItem>)
    requires forall k :: 0 <= k < |items| ==> items[k].price >= 0 && items[k].quantity >= 0
    ensures LineSum(items) >= 0
  {
    if items != [] {
      assert items[0].price >= 0 && items[0].quantity >= 0;
      LineSumNonNegative(items[1..]);
    }
  }

  /** Adding a blank line leaves the total unchanged. */
  lemma TotalAfterAddItem(items: seq<OrderItem>)
    ensures Total(items + [BlankItem]) == Total(items)
  {
    TotalIsLineSum(items);
    TotalIsLineSum(items + [BlankItem]);
    LineSumConcat(items, [BlankItem]);
  }

  /** Removing line `index` lowers the total by exactly that line's amount. */
  lemma TotalAfterRemoveItem(items: seq<OrderItem>, index: int)
    requires 0 <= index < |items|
    ensures Total(RemoveAt(items, index)) == Total(items) - Amount(items[index])
  {
    RemoveAtSpec(items, index);
    TotalIsLineSum(items);
    TotalIsLineSum(RemoveAt(items, index));
    assert items == items[..index] + ([items[index]] + items[index + 1..]);
    LineSumConcat(items[..index], [items[index]] + items[index + 1..]);
    LineSumConcat([items[index]], items[index + 1..]);
    LineSumConcat(items[..index], items[index + 1..]);
  }

  // ---------------------------------------------------------------------------
  // Submission checks
  // ---------------------------------------------------------------------------

  /** `!item.productId` is false: a product was chosen. */
  predicate Selected(item: OrderItem)
  {
    item.productId != ""
  }

  predicate AllSelected(items: seq<OrderItem>)
  {
    forall k :: 0 <= k < |items| ==> Selected(items[k])
  }

  /** The line asks for more units than its (known) product has in stock. */
  predicate Overstocked(item: OrderItem, products: seq<Product>)
  {
    match FindProduct(products, item.productId)
    case Some(p) => item.quantity > p.stock
    case None => false
  }

  /** Street, city, zip code and country are filled in; the state is optional. */
  predicate AddressComplete(a: Address)
  {
    a.street != "" && a.city != "" && a.zipCode != "" && a.country != ""
  }

  /** Line `k` is the first overstocked line. */
  predicate FirstOverstockedAt(items: seq<OrderItem>, products: seq<Product>, k: int)
  {
    && 0 <= k < |items|
    && Overstocked(items[k], products)
    && forall j :: 0 <= j < k ==> !Overstocked(items[j], products)
  }

  /** The notice naming the product of an overstocked line. */
  function ShortNotice(item: OrderItem, products: seq<Product>): Notice
    requires Overstocked(item, products)
  {
    var p := FindProduct(products, item.productId).value;
    ShortOfStock(p.name, p.stock)
  }

  /** What the stock loop of the submit handler reports: the first overstocked line wins. */
  function StockNotice(items: seq<OrderItem>, products: seq<Product>): (n: Notice)
    ensures n == NoNotice <==> forall k :: 0 <= k < |items| ==> !Overstocked(items[k], products)
    ensures n != NoNotice ==>
      exists k :: FirstOverstockedAt(items, products, k) && n == ShortNotice(items[k], products)
  {
    if items == [] then NoNotice
    else if Overstocked(items[0], products) then
      assert FirstOverstockedAt(items, products, 0);
      ShortNotice(items[0], products)
    else
      var n := StockNotice(items[1..], products);
      if n != NoNotice then
        var k :| FirstOverstockedAt(items[1..], products, k) && n == ShortNotice(items[1..][k], products);
        assert FirstOverstockedAt(items, products, k + 1);
        n
      else
        assert forall k :: 1 <= k < |items| ==> items[k] == items[1..][k - 1];
        n
  }

  /** The loop over the lines with an early return on the first overstocked one. */
  method CheckStock(items: seq<OrderItem>, products: seq<Product>) returns (n: Notice)
    ensures n == StockNotice(items, products)
  {
    var i := 0;
    while i < |items|
      invariant 0 <= i <= |items|
      invariant StockNotice(items, products) == StockNotice(items[i..], products)
    {
      var product := FindProduct(products, items[i].productId);
      if product.Some? && items[i].quantity > product.value.stock {
        return ShortOfStock(product.value.name, product.value.stock);
      }
      assert items[i..][1..] == items[i + 1..];
      i := i + 1;
    }
    return NoNotice;
  }

  /** The checks of the submit handler, in their order; `NoNotice` lets the order through. */
  function Validate(items: seq<OrderItem>, products: seq<Product>, address: Address): Notice
  {
    if |items| == 0 then NoItems
    else if !AllSelected(items) then UnselectedProduct
    else if StockNotice(items, products) != NoNotice then StockNotice(items, products)
    else if !AddressComplete(address) then AddressIncomplete
    else NoNotice
  }

  /** A draft is accepted exactly when it has lines, every line names a product,
      no line exceeds its product's stock, and the required address fields are filled. */
  lemma ValidateAcceptsExactly(items: seq<OrderItem>, products: seq<Product>, address: Address)
    ensures Validate(items, products, address) == NoNotice <==>
      && |items| > 0
      && AllSelected(items)
      && (forall k :: 0 <= k < |items| ==> !Overstocked(items[k], products))
      && AddressComplete(address)
  {
  }

  /** The checks run in order: each notice is reported only when every earlier check passed. */
  lemma ValidateOrder(items: seq<OrderItem>, products: seq<Product>, address: Address)
    ensures |items| == 0 ==> Validate(items, products, address) == NoItems
    ensures Validate(items, products, address) == UnselectedProduct <==> |items| > 0 && !AllSelected(items)
    ensures Validate(items, products, address).ShortOfStock? <==>
      |items| > 0 && AllSelected(items) && exists k :: 0 <= k < |items| && Overstocked(items[k], products)
    ensures Validate(items, products, address).ShortOfStock? ==>
      exists k :: FirstOverstockedAt(items, products, k) &&
        Validate(items, products, address) == ShortNotice(items[k], products)
    ensures Validate(items, products, address) == AddressIncomplete ==>
      |items| > 0 && AllSelected(items) && StockNotice(items, products) == NoNotice
  {
  }

  /** The state/province field never affects validation. */
  lemma ValidateIgnoresState(items: seq<OrderItem>, products: seq<Product>, address: Address, state: string)
    ensures Validate(items, products, address.(state := state)) == Validate(items, products, address)
  {
  }

  // ---------------------------------------------------------------------------
  // The order built on submit
  // ---------------------------------------------------------------------------

  /** The order built from an accepted draft; `now` is the instant of submission. */
  function BuildOrder(userId: string, items: seq<OrderItem>, address: Address, choice: PaymentMethod, now: int)
    : (o: Order)
    ensures o.status == Pending && o.id.None?
    ensures o.userId == userId && o.items == items && o.shippingAddress == address
    ensures o.totalAmount == LineSum(items)
    ensures o.paymentMethod == Some(MethodCode(choice))
    ensures o.createdAt == o.updatedAt == now
  {
    TotalIsLineSum(items);
    Order(None, userId, items, Total(items), Pending, Some(MethodCode(choice)), address, now, now)
  }

  // ---------------------------------------------------------------------------
  // The modal's state
  // ---------------------------------------------------------------------------

  /** The order list owned by the page that opens the modal. */
  class OrderBook {
    var orders: seq<Order>

    constructor(orders: seq<Order>)
      ensures this.orders == orders
    {
      this.orders := orders;
    }
  }

  datatype AddressField = Street | City | State | ZipCode | Country

  /** `{ ...address, [field]: value }`. */
  function WithAddressField(a: Address, field: AddressField, value: string): Address
  {
    match field
    case Street => a.(street := value)
    case City => a.(city := value)
    case State => a.(state := value)
    case ZipCode => a.(zipCode := value)
    case Country => a.(country := value)
  }

  const EmptyAddress := Address("", "", "", "", "")

  class OrderDraft {
    const products: seq<Product>
    const userId: string
    var items: seq<OrderItem>
    var shippingAddress: Address
    var paymentMethod: PaymentMethod
    var loading: bool
    var error: Notice
    /** False once the modal has asked its page to close it. */
    var open: bool

    constructor(products: seq<Product>, userId: string)
      ensures this.products == products && this.userId == userId
      ensures items == [] && shippingAddress == EmptyAddress && paymentMethod == CreditCard
      ensures !loading && error == NoNotice && open
    {
      this.products := products;
      this.userId := userId;
      items := [];
      shippingAddress := EmptyAddress;
      paymentMethod := CreditCard;
      loading := false;
      error := NoNotice;
      open := true;
    }

    /** Appends one blank line; the existing lines are untouched. */
    method HandleAddItem()
      modifies this`items
      ensures items == old(items) + [BlankItem]
      ensures |items| == |old(items)| + 1 && items[..|old(items)|] == old(items)
    {
      items := items + [BlankItem];
    }

    /** Drops line `index`, if there is one. */
    method HandleRemoveItem(index: int)
      modifies this`items
      ensures items == RemoveAt(old(items), index)
    {
      items := RemoveAt(items, index);
    }

    /** Edits one field of line `index`: copies the lines, updates the copy, then commits
        it and clears the notice; a refused quantity leaves the lines and sets the notice. */
    method HandleItemChange(index: nat, edit: ItemEdit)
      requires index < |items|
      modifies this`items, this`error
      ensures match ApplyItemChange(old(items), products, index, edit)
              case Ok(updated) => items == updated && error == NoNotice
              case Err(notice) => items == old(items) && error == notice
    {
      var updated := items;
      match edit {
        case ProductIdField(value) =>
          var product := FindProduct(products, value);
          var line := updated[index].(productId := value);
          line := line.(price := if product.Some? then product.value.price else 0);
          line := line.(quantity := 1);
          updated := updated[index := line];
        case QuantityField(value) =>
          var productId := updated[index].productId;
          var product := FindProduct(products, productId);
          if product.Some? && value > product.value.stock {
            error := ExceedsStock(value, product.value.stock);
            return;
          }
          if value < 1 {
            error := BelowOne;
            return;
          }
          updated := updated[index := updated[index].(quantity := value)];
        case PriceField(_) =>
      }
      items := updated;
      error := NoNotice;
    }

    /** Updates one field of the shipping address. */
    method HandleAddressChange(field: AddressField, value: string)
      modifies this`shippingAddress
      ensures shippingAddress == WithAddressField(old(shippingAddress), field, value)
    {
      shippingAddress := WithAddressField(shippingAddress, field, value);
    }

    /** The payment-method radio buttons. */
    method SelectPaymentMethod(choice: PaymentMethod)
      modifies this`paymentMethod
      ensures paymentMethod == choice
    {
      paymentMethod := choice;
    }

    /** Runs the checks in order; on success appends the built order to `book`
        and closes the modal. The backend is taken to return the order it is sent. */
    method HandleSubmit(book: OrderBook, now: int)
      modifies this`error, this`loading, this`open, book`orders
      ensures var n := Validate(items, products, shippingAddress);
        if n == NoNotice then
          && book.orders == old(book.orders) + [BuildOrder(userId, items, shippingAddress, paymentMethod, now)]
          && error == NoNotice && !loading && !open
        else
          && book.orders == old(book.orders)
          && error == n && loading == old(loading) && open == old(open)
    {
      error := NoNotice;
      if |items| == 0 {
        error := NoItems;
        return;
      }
      if exists k :: 0 <= k < |items| && items[k].productId == "" {
        error := UnselectedProduct;
        return;
      }
      var stock := CheckStock(items, products);
      if stock != NoNotice {
        error := stock;
        return;
      }
      var a := shippingAddress;
      if a.street == "" || a.city == "" || a.zipCode == "" || a.country == "" {
        error := AddressIncomplete;
        return;
      }
      var newOrder := BuildOrder(userId, items, shippingAddress, paymentMethod, now);
      loading := true;
      var created := newOrder;
      book.orders := book.orders + [created];
      open := false;
      loading := false;
    }
  }
}
