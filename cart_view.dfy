/** The read side of the cart: the aggregation shared by the cart listing and
    by checkout (`$match` on the user, `$lookup` of the product by id, `$unwind`,
    `$project`), the listing's response, and the checkout line items handed to
    the payment processor. */
module CartView {
  import opened Wrappers
  import opened ObjectIds
  import opened Http
  import opened Tables

  /** The projected product fields: `product.name`, `product.price`, `product.img`. */
  datatype ProductView = ProductView(name: string, price: int, img: string)

  /** One projected document of the aggregation: `_id`, `quantity`, `product`. */
  datatype CartLine = CartLine(id: Id, quantity: int, product: ProductView)

  /** The payment processor's line item: price data in minor currency units. */
  datatype ProductData = ProductData(name: string, images: seq<string>)
  datatype PriceData = PriceData(currency: string, productData: ProductData, unitAmount: int)
  datatype LineItem = LineItem(priceData: PriceData, quantity: int)

  const Currency := "usd"

  /** `$project` of one cart row joined with one product. */
  function Project(r: CartRow, p: Product): CartLine {
    CartLine(r.id, r.quantity, ProductView(p.name, p.price, p.img))
  }

  /** `$lookup`: every product whose `_id` equals the row's `product_id`. */
  function Lookup(products: seq<Product>, pid: Id): seq<Product> {
    Filter(products, HasProductId(pid))
  }

  /** `$unwind` followed by `$project` for one row: one output per looked-up
      product, none when the lookup came back empty. */
  function ProjectEach(r: CartRow, ps: seq<Product>): (lines: seq<CartLine>)
    ensures |lines| == |ps|
    ensures forall line :: line in lines <==> exists p :: p in ps && line == Project(r, p)
  {
    if ps == [] then []
    else [Project(r, ps[0])] + ProjectEach(r, ps[1..])
  }

  /** `$lookup`, `$unwind` and `$project` over a sequence of rows, in row order. */
  function Unwind(rows: seq<CartRow>, products: seq<Product>): seq<CartLine> {
    if rows == [] then []
    else ProjectEach(rows[0], Lookup(products, rows[0].productId)) + Unwind(rows[1..], products)
  }

  /** The whole aggregation for user `u`. */
  function Joined(cart: seq<CartRow>, products: seq<Product>, u: Id): seq<CartLine> {
    Unwind(Filter(cart, OwnedBy(u)), products)
  }

  /** Some product has the given id. */
  predicate HasProduct(products: seq<Product>, pid: Id) {
    exists p :: p in products && p.id == pid
  }

  /** A row whose product exists. */
  function ProductExists(products: seq<Product>): CartRow -> bool {
    (r: CartRow) => HasProduct(products, r.productId)
  }

  /** The unwound lines are exactly the projections of a row joined with a
      product carrying the row's `product_id`; rows with a dangling `product_id`
      contribute nothing. */
  lemma {:induction false} UnwindMembership(rows: seq<CartRow>, products: seq<Product>, line: CartLine)
    ensures line in Unwind(rows, products) <==>
              exists r, p :: r in rows && p in products && p.id == r.productId && line == Project(r, p)
  {
    if rows != [] {
      UnwindMembership(rows[1..], products, line);
      var head := ProjectEach(rows[0], Lookup(products, rows[0].productId));
      assert Unwind(rows, products) == head + Unwind(rows[1..], products);
      if line in head {
        var p :| p in Lookup(products, rows[0].productId) && line == Project(rows[0], p);
        assert rows[0] in rows;
      }
      if exists r, p :: r in rows && p in products && p.id == r.productId && line == Project(r, p) {
        var r, p :| r in rows && p in products && p.id == r.productId && line == Project(r, p);
        if r == rows[0] {
          assert p in Lookup(products, rows[0].productId);
          assert line in head;
        } else {
          assert r in rows[1..];
        }
      }
    }
  }

  /** The lines of user `u`'s aggregation are exactly the projections of `u`'s rows
      joined with an existing product. */
  lemma JoinedMembership(cart: seq<CartRow>, products: seq<Product>, u: Id, line: CartLine)
    ensures line in Joined(cart, products, u) <==>
              exists r, p :: r in cart && r.userId == u && p in products && p.id == r.productId && line == Project(r, p)
  {
    UnwindMembership(Filter(cart, OwnedBy(u)), products, line);
  }

  /** The aggregation for `u` is empty exactly when none of `u`'s rows has an
      existing product. */
  lemma JoinedEmpty(cart: seq<CartRow>, products: seq<Product>, u: Id)
    ensures Joined(cart, products, u) == [] <==>
              forall r :: r in cart && r.userId == u ==> !HasProduct(products, r.productId)
  {
    var lines := Joined(cart, products, u);
    if lines != [] {
      JoinedMembership(cart, products, u, lines[0]);
    }
    if exists r :: r in cart && r.userId == u && HasProduct(products, r.productId) {
      var r :| r in cart && r.userId == u && HasProduct(products, r.productId);
      var p :| p in products && p.id == r.productId;
      JoinedMembership(cart, products, u, Project(r, p));
    }
  }

  /** With product ids distinct, `$lookup` finds one product or none. */
  lemma {:induction false} LookupAtMostOne(products: seq<Product>, pid: Id)
    requires KeysDistinct(products, ProductKey)
    ensures |Lookup(products, pid)| == if HasProduct(products, pid) then 1 else 0
  {
    if products != [] {
      KeysDistinctCons(products, ProductKey);
      LookupAtMostOne(products[1..], pid);
      if products[0].id != pid {
        if HasProduct(products, pid) {
          var p :| p in products && p.id == pid;
          assert p in products[1..];
        }
      }
    }
  }

  /** With product ids distinct, the unwind neither duplicates nor invents rows:
      it yields exactly one line per row whose product exists. */
  lemma {:induction false} UnwindOnePerRow(rows: seq<CartRow>, products: seq<Product>)
    requires KeysDistinct(products, ProductKey)
    ensures |Unwind(rows, products)| == |Filter(rows, ProductExists(products))|
  {
    if rows != [] {
      UnwindOnePerRow(rows[1..], products);
      LookupAtMostOne(products, rows[0].productId);
    }
  }

  /** The `GET /cart/:userId` response: 400 for a missing id, 500 for an id that is
      not an ObjectId, 404 when the aggregation is empty, else the lines. */
  function CartListing(cart: seq<CartRow>, products: seq<Product>, userParam: string): (r: Result<seq<CartLine>, Status>)
    ensures userParam == "" ==> r == Failure(BadRequest)
    ensures userParam != "" && !IsHexId(userParam) ==> r == Failure(InternalError)
    ensures IsHexId(userParam) ==> r.Success? || r == Failure(NotFound)
    ensures IsHexId(userParam) ==>
              var u := ParseObjectId(userParam).value;
              && (r == Failure(NotFound) <==> forall row :: row in cart && row.userId == u ==> !HasProduct(products, row.productId))
              && (r.Success? ==> r.value == Joined(cart, products, u) && r.value != [])
              && (r.Success? ==> forall line :: line in r.value <==>
                    exists row, p :: row in cart && row.userId == u && p in products && p.id == row.productId && line == Project(row, p))
  {
    if userParam == "" then Failure(BadRequest)
    else match ParseObjectId(userParam)
      case None => Failure(InternalError)
      case Some(u) =>
        var lines := Joined(cart, products, u);
        JoinedEmpty(cart, products, u);
        assert forall line :: line in lines <==>
          exists row, p :: row in cart && row.userId == u && p in products && p.id == row.productId && line == Project(row, p)
          by { forall line { JoinedMembership(cart, products, u, line); } }
        if |lines| == 0 then Failure(NotFound) else Success(lines)
  }

  /** The line item built for one joined row: the product's name and image, its
      price in cents, and the row's quantity. */
  function ToLineItem(line: CartLine): LineItem {
    LineItem(PriceData(Currency, ProductData(line.product.name, [line.product.img]), line.product.price * 100), line.quantity)
  }

  function ToLineItems(lines: seq<CartLine>): (items: seq<LineItem>)
    ensures |items| == |lines|
    ensures forall i :: 0 <= i < |lines| ==> items[i] == ToLineItem(lines[i])
  {
    if lines == [] then [] else [ToLineItem(lines[0])] + ToLineItems(lines[1..])
  }

  /** The line items of `POST /create-checkout-session/:userId`: 500 for a user id
      that is not an ObjectId, 400 when the joined cart is empty, else one line
      item per joined row. */
  function CheckoutLineItems(cart: seq<CartRow>, products: seq<Product>, userParam: string): (r: Result<seq<LineItem>, Status>)
    ensures !IsHexId(userParam) ==> r == Failure(InternalError)
    ensures IsHexId(userParam) ==> r.Success? || r == Failure(BadRequest)
    ensures IsHexId(userParam) ==>
              (r == Failure(BadRequest) <==>
                 forall row :: row in cart && row.userId == ParseObjectId(userParam).value ==> !HasProduct(products, row.productId))
  {
    match ParseObjectId(userParam)
    case None => Failure(InternalError)
    case Some(u) =>
      var lines := Joined(cart, products, u);
      JoinedEmpty(cart, products, u);
      if |lines| == 0 then Failure(BadRequest) else Success(ToLineItems(lines))
  }

  /** Checkout and the listing agree: for a well-formed user id, checkout succeeds
      exactly when the listing does, with one line item per listed line, in the
      same order, carrying that line's quantity, product name and image, and the
      unit price in cents. */
  lemma CheckoutFollowsListing(cart: seq<CartRow>, products: seq<Product>, userParam: string)
    requires IsHexId(userParam)
    ensures CheckoutLineItems(cart, products, userParam).Success? <==> CartListing(cart, products, userParam).Success?
    ensures CheckoutLineItems(cart, products, userParam).Success? ==>
              var items := CheckoutLineItems(cart, products, userParam).value;
              var lines := CartListing(cart, products, userParam).value;
              && |items| == |lines|
              && forall i :: 0 <= i < |items| ==>
                   && items[i].quantity == lines[i].quantity
                   && items[i].priceData.unitAmount == lines[i].product.price * 100
                   && items[i].priceData.currency == Currency
                   && items[i].priceData.productData == ProductData(lines[i].product.name, [lines[i].product.img])
  {
  }

  /** After user `u`'s rows are deleted (cart cleared, or the user deleted), the
      listing for `u` reports the empty cart, and every other user's listing is
      what it was. */
  lemma ListingAfterOwnerDeleted(cart: seq<CartRow>, products: seq<Product>, u: Id, userParam: string)
    requires ParseObjectId(userParam).Some?
    ensures var v := ParseObjectId(userParam).value;
            CartListing(Filter(cart, NotOwnedBy(u)), products, userParam) ==
              if v == u then Failure(NotFound) else CartListing(cart, products, userParam)
  {
    var v := ParseObjectId(userParam).value;
    if v == u {
      DeleteOwnerRemovesAll(cart, u);
    } else {
      DeleteOwnerKeepsOthers(cart, u, v);
    }
  }

  /** A product "Widget" priced 10 with image "a.png", and one cart row of
      quantity 2 for it: the listing shows that row with price 10, and checkout
      builds one line item of 1000 cents and quantity 2. */
  lemma WidgetScenario(u: Id, pid: Id, rowId: Id)
    requires u < Pow16(HexIdLength)
    ensures var products := [Product(pid, "a.png", "Widget", 10, None, None, 0)];
            var cart := [CartRow(rowId, u, pid, 2)];
            && CartListing(cart, products, HexString(u)) == Success([CartLine(rowId, 2, ProductView("Widget", 10, "a.png"))])
            && CheckoutLineItems(cart, products, HexString(u)) ==
                 Success([LineItem(PriceData("usd", ProductData("Widget", ["a.png"]), 1000), 2)])
  {
    ParseHexStringRoundTrip(u);
    var products := [Product(pid, "a.png", "Widget", 10, None, None, 0)];
    var cart := [CartRow(rowId, u, pid, 2)];
    assert Filter(cart, OwnedBy(u)) == cart;
    assert Lookup(products, pid) == products;
    var line := CartLine(rowId, 2, ProductView("Widget", 10, "a.png"));
    assert ProjectEach(cart[0], products) == [line];
    assert Unwind(cart, products) == [line] + Unwind(cart[1..], products);
    assert Joined(cart, products, u) == [line];
    assert ToLineItems([line]) == [LineItem(PriceData("usd", ProductData("Widget", ["a.png"]), 1000), 2)];
    assert CartListing(cart, products, HexString(u)) == Success([line]);
  }
}
