/** The database as the handlers change it: one object holding the User,
    Product and Cart collections, with one method per modelled request handler
    that writes. Each method answers with the handler's status and changes the
    collections as the handler's queries do. */
module Database {
  import opened Wrappers
  import opened ObjectIds
  import opened Http
  import opened Tables
  import opened Validators

  /** The checks `POST /cart/:userId` makes before it touches the cart, in its
      order: the user id is converted first (a malformed one throws: 500), then
      a missing product id or quantity is refused (400), then the product id is
      converted (500 when malformed). */
  function DecodeAddToCart(userParam: string, productParam: Option<string>, quantity: Option<int>)
    : (r: Result<(Id, Id, int), Status>)
    ensures r == Failure(InternalError) <==>
              !IsHexId(userParam) || (TruthyText(productParam) && TruthyNumber(quantity) && !IsHexId(productParam.value))
    ensures r == Failure(BadRequest) <==> IsHexId(userParam) && (!TruthyText(productParam) || !TruthyNumber(quantity))
    ensures r.Success? <==>
              IsHexId(userParam) && TruthyText(productParam) && TruthyNumber(quantity) && IsHexId(productParam.value)
    ensures r.Success? ==>
              && IsHexId(productParam.value)
              && r.value == (ParseObjectId(userParam).value, ParseObjectId(productParam.value).value, quantity.value)
              && r.value.2 != 0
  {
    match ParseObjectId(userParam)
    case None => Failure(InternalError)
    case Some(u) =>
      if !TruthyText(productParam) || !TruthyNumber(quantity) then Failure(BadRequest)
      else match ParseObjectId(productParam.value)
        case None => Failure(InternalError)
        case Some(p) => Success((u, p, quantity.value))
  }

  /** How increment and decrement find their row: 400 when the id is not an
      ObjectId, 404 when no row carries it, else the row's position. */
  function LocateRow(cart: seq<CartRow>, itemParam: string): (r: Result<nat, Status>)
    ensures r == Failure(BadRequest) <==> !IsHexId(itemParam)
    ensures r == Failure(NotFound) <==>
              IsHexId(itemParam) && forall row :: row in cart ==> row.id != ParseObjectId(itemParam).value
    ensures r.Success? <==> IsHexId(itemParam) && exists row :: row in cart && row.id == ParseObjectId(itemParam).value
    ensures r.Success? ==> r.value < |cart| && cart[r.value].id == ParseObjectId(itemParam).value
  {
    match ParseObjectId(itemParam)
    case None => Failure(BadRequest)
    case Some(id) =>
      match FirstIndex(cart, HasRowId(id))
      case None => Failure(NotFound)
      case Some(i) => Success(i)
  }

  class Store {
    var users: seq<User>
    var products: seq<Product>
    var cart: seq<CartRow>
    /** The next identifier the store hands out; every stored id lies below it. */
    var nextId: Id

    /** Identifiers are unique in each collection, and the cart holds at most one
        row per (user, product) pair. The schema has no such constraint: the
        add-to-cart handler's find-or-increment is what keeps it. */
    ghost predicate Valid()
      reads this
    {
      && KeysDistinct(users, UserKey) && KeysDistinct(products, ProductKey)
      && KeysDistinct(cart, RowKey) && KeysDistinct(cart, PairKey)
      && AllBelow(users, UserKey, nextId) && AllBelow(products, ProductKey, nextId)
      && AllBelow(cart, RowKey, nextId)
    }

    constructor ()
      ensures Valid() && users == [] && products == [] && cart == [] && nextId == 0
    {
      users, products, cart, nextId := [], [], [], 0;
    }

    /** `POST /cart/:userId`: a row already holding the (user, product) pair gets
        the quantity added to it; otherwise one new row is inserted. */
    method AddToCart(userParam: string, productParam: Option<string>, quantity: Option<int>)
      returns (status: Status)
      requires Valid()
      modifies this
      ensures Valid() && users == old(users) && products == old(products)
      ensures DecodeAddToCart(userParam, productParam, quantity).Failure? ==>
                && status == DecodeAddToCart(userParam, productParam, quantity).error
                && cart == old(cart) && nextId == old(nextId)
      ensures DecodeAddToCart(userParam, productParam, quantity).Success? ==>
                var (u, p, q) := DecodeAddToCart(userParam, productParam, quantity).value;
                && status == Ok
                && cart == AddQuantity(old(cart), old(nextId), u, p, q)
                && nextId == if FirstIndex(old(cart), HasPair(u, p)).Some? then old(nextId) else old(nextId) + 1
    {
      var request := DecodeAddToCart(userParam, productParam, quantity);
      if request.Failure? {
        status := request.error;
        return;
      }
      var (u, p, q) := request.value;
      AddQuantityKeepsKeys(cart, nextId, u, p, q);
      var grows := FirstIndex(cart, HasPair(u, p)).None?;
      cart := AddQuantity(cart, nextId, u, p, q);
      if grows {
        nextId := nextId + 1;
      }
      status := Ok;
    }

    /** `DELETE /cart/:userId/:cartItemId`: deletes the row with that id, and
        reports success whether or not there was one. */
    method RemoveItem(itemParam: string) returns (status: Status)
      requires Valid()
      modifies this
      ensures Valid() && users == old(users) && products == old(products) && nextId == old(nextId)
      ensures !IsHexId(itemParam) ==> status == BadRequest && cart == old(cart)
      ensures IsHexId(itemParam) ==>
                var id := ParseObjectId(itemParam).value;
                && status == Ok
                && (forall r :: r in cart <==> r in old(cart) && r.id != id)
                && match FirstIndex(old(cart), HasRowId(id))
                   case None => cart == old(cart)
                   case Some(i) => cart == RemoveAt(old(cart), i)
    {
      var parsed := ParseObjectId(itemParam);
      if parsed.None? {
        status := BadRequest;
        return;
      }
      var id := parsed.value;
      var found := FirstIndex(cart, HasRowId(id));
      if found.Some? {
        RemoveAtKeys(cart, found.value, RowKey);
        RemoveAtKeys(cart, found.value, PairKey);
        cart := RemoveAt(cart, found.value);
      }
      status := Ok;
    }

    /** `PUT /cart/:userId/increment/:cartItemId`: adds one to the row's quantity
        and answers with the saved row. */
    method Increment(itemParam: string) returns (status: Status, item: Option<CartRow>)
      requires Valid()
      modifies this
      ensures Valid() && users == old(users) && products == old(products) && nextId == old(nextId)
      ensures LocateRow(old(cart), itemParam).Failure? ==>
                && status == LocateRow(old(cart), itemParam).error
                && item == None && cart == old(cart)
      ensures LocateRow(old(cart), itemParam).Success? ==>
                var i := LocateRow(old(cart), itemParam).value;
                && status == Ok
                && cart == old(cart)[i := old(cart)[i].(quantity := old(cart)[i].quantity + 1)]
                && item == Some(cart[i])
    {
      var located := LocateRow(cart, itemParam);
      if located.Failure? {
        status, item := located.error, None;
        return;
      }
      var i := located.value;
      var row := cart[i].(quantity := cart[i].quantity + 1);
      KeysDistinctReplace(cart, i, row, RowKey);
      KeysDistinctReplace(cart, i, row, PairKey);
      cart := cart[i := row];
      status, item := Ok, Some(row);
    }

    /** `PUT /cart/:userId/decrement/:cartItemId`: subtracts one from the row's
        quantity, but refuses with 400, changing nothing, when that quantity is
        already 1 or less. */
    method Decrement(itemParam: string) returns (status: Status, item: Option<CartRow>)
      requires Valid()
      modifies this
      ensures Valid() && users == old(users) && products == old(products) && nextId == old(nextId)
      ensures LocateRow(old(cart), itemParam).Failure? ==>
                && status == LocateRow(old(cart), itemParam).error
                && item == None && cart == old(cart)
      ensures LocateRow(old(cart), itemParam).Success? && old(cart)[LocateRow(old(cart), itemParam).value].quantity <= 1 ==>
                status == BadRequest && item == None && cart == old(cart)
      ensures LocateRow(old(cart), itemParam).Success? && old(cart)[LocateRow(old(cart), itemParam).value].quantity > 1 ==>
                var i := LocateRow(old(cart), itemParam).value;
                && status == Ok
                && cart == old(cart)[i := old(cart)[i].(quantity := old(cart)[i].quantity - 1)]
                && item == Some(cart[i])
    {
      var located := LocateRow(cart, itemParam);
      if located.Failure? {
        status, item := located.error, None;
        return;
      }
      var i := located.value;
      if cart[i].quantity <= 1 {
        status, item := BadRequest, None;
        return;
      }
      var row := cart[i].(quantity := cart[i].quantity - 1);
      KeysDistinctReplace(cart, i, row, RowKey);
      KeysDistinctReplace(cart, i, row, PairKey);
      cart := cart[i := row];
      status, item := Ok, Some(row);
    }

    /** `DELETE /cart/:userId`: deletes every row of the user, and nothing else. */
    method ClearCart(userParam: string) returns (status: Status)
      requires Valid()
      modifies this
      ensures Valid() && users == old(users) && products == old(products) && nextId == old(nextId)
      ensures userParam == "" ==> status == BadRequest && cart == old(cart)
      ensures userParam != "" && !IsHexId(userParam) ==> status == InternalError && cart == old(cart)
      ensures IsHexId(userParam) ==>
                status == Ok && cart == Filter(old(cart), NotOwnedBy(ParseObjectId(userParam).value))
    {
      if userParam == "" {
        status := BadRequest;
        return;
      }
      var parsed := ParseObjectId(userParam);
      if parsed.None? {
        status := InternalError;
        return;
      }
      FilterKeepsKeysDistinct(cart, NotOwnedBy(parsed.value), RowKey);
      FilterKeepsKeysDistinct(cart, NotOwnedBy(parsed.value), PairKey);
      cart := Filter(cart, NotOwnedBy(parsed.value));
      status := Ok;
    }

    /** `DELETE /api/usersdelet/:id`: deletes the user's cart rows, then the user. */
    method DeleteUser(userParam: string) returns (status: Status)
      requires Valid()
      modifies this
      ensures Valid() && products == old(products) && nextId == old(nextId)
      ensures userParam == "" ==> status == BadRequest && cart == old(cart) && users == old(users)
      ensures userParam != "" && !IsHexId(userParam) ==>
                status == InternalError && cart == old(cart) && users == old(users)
      ensures IsHexId(userParam) ==>
                var u := ParseObjectId(userParam).value;
                && status == Ok
                && cart == Filter(old(cart), NotOwnedBy(u))
                && users == Filter(old(users), NotUserId(u))
    {
      if userParam == "" {
        status := BadRequest;
        return;
      }
      var parsed := ParseObjectId(userParam);
      if parsed.None? {
        status := InternalError;
        return;
      }
      var u := parsed.value;
      FilterKeepsKeysDistinct(cart, NotOwnedBy(u), RowKey);
      FilterKeepsKeysDistinct(cart, NotOwnedBy(u), PairKey);
      cart := Filter(cart, NotOwnedBy(u));
      FilterKeepsKeysDistinct(users, NotUserId(u), UserKey);
      users := Filter(users, NotUserId(u));
      status := Ok;
    }

    /** `POST /register`: on success exactly one user is added; on every refusal
        nothing is stored. The password hash is supplied by the caller. */
    method Register(form: RegistrationForm, hashedPassword: string) returns (status: Status)
      requires Valid()
      modifies this
      ensures Valid() && cart == old(cart) && products == old(products)
      ensures status == RegistrationStatus(form, old(users))
      ensures status == Created ==>
                users == old(users) + [NewUser(old(nextId), form, hashedPassword)] && nextId == old(nextId) + 1
      ensures status != Created ==> users == old(users) && nextId == old(nextId)
    {
      status := RegistrationStatus(form, users);
      if status == Created {
        var user := NewUser(nextId, form, hashedPassword);
        assert forall j :: 0 <= j < |users| ==> users[j] in users;
        KeysDistinctAppend(users, user, UserKey);
        users := users + [user];
        nextId := nextId + 1;
      }
    }

    /** `POST /api/productsadd`: saves the product built from the form, or
        refuses with 400 and stores nothing. */
    method AddProduct(form: ProductForm) returns (status: Status, saved: Option<Product>)
      requires Valid()
      modifies this
      ensures Valid() && cart == old(cart) && users == old(users)
      ensures NewProduct(form, old(nextId)).Failure? ==>
                status == BadRequest && saved == None && products == old(products) && nextId == old(nextId)
      ensures NewProduct(form, old(nextId)).Success? ==>
                && status == Created
                && saved == Some(NewProduct(form, old(nextId)).value)
                && products == old(products) + [saved.value]
                && nextId == old(nextId) + 1
    {
      var built := NewProduct(form, nextId);
      if built.Failure? {
        status, saved := built.error, None;
        return;
      }
      assert forall j :: 0 <= j < |products| ==> products[j] in products;
      KeysDistinctAppend(products, built.value, ProductKey);
      products := products + [built.value];
      nextId := nextId + 1;
      status, saved := Created, Some(built.value);
    }

    /** `PUT /api/products/:id`: refuses an id that is not 24 hexadecimal
        characters with 400 before touching the store; 404 when no product has
        the id; otherwise applies the update to that product alone. */
    method UpdateProduct(idParam: string, update: ProductUpdate) returns (status: Status, updated: Option<Product>)
      requires Valid()
      modifies this
      ensures Valid() && cart == old(cart) && users == old(users) && nextId == old(nextId)
      ensures !IsHexId(idParam) ==> status == BadRequest && updated == None && products == old(products)
      ensures IsHexId(idParam) ==>
                match FirstIndex(old(products), HasProductId(ParseObjectId(idParam).value))
                case None => status == NotFound && updated == None && products == old(products)
                case Some(i) =>
                  && status == Ok
                  && products == old(products)[i := ApplyUpdate(old(products)[i], update)]
                  && updated == Some(products[i])
    {
      if !IsHexId(idParam) {
        status, updated := BadRequest, None;
        return;
      }
      var id := ParseObjectId(idParam).value;
      var found := FirstIndex(products, HasProductId(id));
      if found.None? {
        status, updated := NotFound, None;
        return;
      }
      var i := found.value;
      var product := ApplyUpdate(products[i], update);
      KeysDistinctReplace(products, i, product, ProductKey);
      products := products[i := product];
      status, updated := Ok, Some(product);
    }
  }

  /** Adding quantity 2 and then quantity 3 of one product for one user leaves a
      single row with quantity 5. */
  method CumulativeAddScenario(u: Id, p: Id)
    requires u < Pow16(HexIdLength) && p < Pow16(HexIdLength)
  {
    var store := new Store();
    ParseHexStringRoundTrip(u);
    ParseHexStringRoundTrip(p);
    var userText, productText := HexString(u), HexString(p);
    assert DecodeAddToCart(userText, Some(productText), Some(2)) == Success((u, p, 2));
    assert DecodeAddToCart(userText, Some(productText), Some(3)) == Success((u, p, 3));
    var first := store.AddToCart(userText, Some(productText), Some(2));
    assert store.cart == AddQuantity([], 0, u, p, 2) && store.nextId == 1;
    var second := store.AddToCart(userText, Some(productText), Some(3));
    assert first == Ok && second == Ok;
    AddQuantityCumulative([], 0, 1, u, p, 2, 3);
    assert AddQuantity([], 0, u, p, 5) == [CartRow(0, u, p, 5)];
    assert store.cart == [CartRow(0, u, p, 5)];
  }
}
