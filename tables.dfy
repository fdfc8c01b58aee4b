/** The three collections of the database as in-memory tables: users, products
    and cart rows, together with the queries the handlers run over them
    (`find` by a condition, `findOne`, `deleteMany`) and the facts about them
    that the handlers rely on. */
module Tables {
  import opened Wrappers
  import opened ObjectIds

  /** A document of the User collection. `password` holds the bcrypt hash. */
  datatype User = User(
    id: Id, username: string, email: string, password: string,
    houseNo: string, street: string, city: string, state: string,
    pincode: string, country: string, phone: string, isActive: bool)

  /** A document of the Product collection. `desc` and `category` may be absent. */
  datatype Product = Product(
    id: Id, img: string, name: string, price: int,
    desc: Option<string>, category: Option<string>, rating: int)

  /** A document of the Cart collection: one line of a user's cart. */
  datatype CartRow = CartRow(id: Id, userId: Id, productId: Id, quantity: int)

  function UserKey(u: User): Id { u.id }
  function ProductKey(p: Product): Id { p.id }
  function RowKey(r: CartRow): Id { r.id }
  function PairKey(r: CartRow): (Id, Id) { (r.userId, r.productId) }

  /** Query conditions, as the handlers pass them to the store. */
  function OwnedBy(u: Id): CartRow -> bool { (r: CartRow) => r.userId == u }
  function NotOwnedBy(u: Id): CartRow -> bool { (r: CartRow) => r.userId != u }
  function HasRowId(id: Id): CartRow -> bool { (r: CartRow) => r.id == id }
  function HasPair(u: Id, p: Id): CartRow -> bool { (r: CartRow) => r.userId == u && r.productId == p }
  function HasProductId(id: Id): Product -> bool { (p: Product) => p.id == id }
  function NotUserId(id: Id): User -> bool { (u: User) => u.id != id }

  /** The documents of a collection that satisfy a condition, in collection order. */
  function Filter<T(!new)>(s: seq<T>, keep: T -> bool): (r: seq<T>)
    ensures |r| <= |s|
    ensures forall x :: x in r <==> x in s && keep(x)
  {
    if s == [] then []
    else (if keep(s[0]) then [s[0]] else []) + Filter(s[1..], keep)
  }

  /** The position of the first document satisfying a condition (`findOne`). */
  function FirstIndex<T>(s: seq<T>, p: T -> bool): (r: Option<nat>)
    ensures r.Some? ==> r.value < |s| && p(s[r.value])
    ensures r.Some? ==> forall j :: 0 <= j < r.value ==> !p(s[j])
    ensures r.None? <==> forall j :: 0 <= j < |s| ==> !p(s[j])
  {
    if s == [] then None
    else if p(s[0]) then Some(0)
    else match FirstIndex(s[1..], p)
      case None => None
      case Some(k) => Some(k + 1)
  }

  /** The first position satisfying a condition is the one `FirstIndex` finds. */
  lemma FirstIndexIs<T>(s: seq<T>, p: T -> bool, i: nat)
    requires i < |s| && p(s[i])
    requires forall j :: 0 <= j < i ==> !p(s[j])
    ensures FirstIndex(s, p) == Some(i)
  {
  }

  /** No two documents of the collection agree on `key`. */
  ghost predicate KeysDistinct<T, K>(s: seq<T>, key: T -> K) {
    forall i, j :: 0 <= i < j < |s| ==> key(s[i]) != key(s[j])
  }

  /** Every document's `key` lies below `bound`. */
  ghost predicate AllBelow<T>(s: seq<T>, key: T -> nat, bound: nat) {
    forall x :: x in s ==> key(x) < bound
  }

  /** The document `s` without its element at `i` (`deleteOne` of that document). */
  function RemoveAt<T>(s: seq<T>, i: nat): (r: seq<T>)
    requires i < |s|
    ensures |r| == |s| - 1
    ensures forall j :: 0 <= j < i ==> r[j] == s[j]
    ensures forall j :: i <= j < |r| ==> r[j] == s[j + 1]
  {
    s[..i] + s[i + 1..]
  }

  lemma KeysDistinctCons<T, K>(s: seq<T>, key: T -> K)
    requires s != []
    ensures KeysDistinct(s, key) <==>
              KeysDistinct(s[1..], key) && forall x :: x in s[1..] ==> key(x) != key(s[0])
  {
    if KeysDistinct(s[1..], key) && forall x :: x in s[1..] ==> key(x) != key(s[0]) {
      forall i, j | 0 <= i < j < |s| ensures key(s[i]) != key(s[j]) {
        assert s[j] == s[1..][j - 1];
        if i > 0 {
          assert s[i] == s[1..][i - 1];
        }
      }
    }
    if KeysDistinct(s, key) {
      forall x | x in s[1..] ensures key(x) != key(s[0]) {
        var j :| 0 <= j < |s[1..]| && s[1..][j] == x;
        assert s[j + 1] == x;
      }
    }
  }

  /** Keeping only some documents never makes two of them share a key. */
  lemma {:induction false} FilterKeepsKeysDistinct<T(!new), K>(s: seq<T>, keep: T -> bool, key: T -> K)
    requires KeysDistinct(s, key)
    ensures KeysDistinct(Filter(s, keep), key)
  {
    if s != [] {
      KeysDistinctCons(s, key);
      FilterKeepsKeysDistinct(s[1..], keep, key);
      var rest := Filter(s[1..], keep);
      if keep(s[0]) {
        var r := [s[0]] + rest;
        assert r[1..] == rest;
        KeysDistinctCons(r, key);
      } else {
        assert Filter(s, keep) == rest;
      }
    }
  }

  /** Appending a document whose key is new keeps the keys distinct. */
  lemma KeysDistinctAppend<T, K>(s: seq<T>, x: T, key: T -> K)
    requires KeysDistinct(s, key)
    requires forall i :: 0 <= i < |s| ==> key(s[i]) != key(x)
    ensures KeysDistinct(s + [x], key)
  {
  }

  /** Replacing a document by one with the same key keeps the keys distinct. */
  lemma KeysDistinctReplace<T, K>(s: seq<T>, i: nat, x: T, key: T -> K)
    requires KeysDistinct(s, key) && i < |s| && key(x) == key(s[i])
    ensures KeysDistinct(s[i := x], key)
  {
  }

  /** Deleting one document keeps the keys distinct, and when keys are distinct the
      documents left are exactly those whose key differs from the deleted one's. */
  lemma RemoveAtKeys<T, K>(s: seq<T>, i: nat, key: T -> K)
    requires KeysDistinct(s, key) && i < |s|
    ensures KeysDistinct(RemoveAt(s, i), key)
    ensures forall x :: x in RemoveAt(s, i) <==> x in s && key(x) != key(s[i])
  {
    var r := RemoveAt(s, i);
    forall x | x in s && key(x) != key(s[i]) ensures x in r {
      var j :| 0 <= j < |s| && s[j] == x;
      if j < i { assert r[j] == x; } else { assert r[j - 1] == x; }
    }
    forall x | x in r ensures x in s && key(x) != key(s[i]) {
      var j :| 0 <= j < |r| && r[j] == x;
      if j < i { assert s[j] == x; } else { assert s[j + 1] == x; }
    }
  }

  /** `deleteMany({user_id: u})` leaves every other user's rows exactly as they
      were, in the same order. */
  lemma {:induction false} DeleteOwnerKeepsOthers(s: seq<CartRow>, u: Id, v: Id)
    requires u != v
    ensures Filter(Filter(s, NotOwnedBy(u)), OwnedBy(v)) == Filter(s, OwnedBy(v))
  {
    if s != [] {
      var kept := Filter(s[1..], NotOwnedBy(u));
      DeleteOwnerKeepsOthers(s[1..], u, v);
      if s[0].userId != u {
        assert Filter(s, NotOwnedBy(u)) == [s[0]] + kept;
        assert ([s[0]] + kept)[1..] == kept;
      } else {
        assert Filter(s, NotOwnedBy(u)) == kept;
      }
    }
  }

  /** After `deleteMany({user_id: u})` no row of `u` is left. */
  lemma {:induction false} DeleteOwnerRemovesAll(s: seq<CartRow>, u: Id)
    ensures Filter(Filter(s, NotOwnedBy(u)), OwnedBy(u)) == []
  {
    if s != [] {
      var kept := Filter(s[1..], NotOwnedBy(u));
      DeleteOwnerRemovesAll(s[1..], u);
      if s[0].userId != u {
        assert Filter(s, NotOwnedBy(u)) == [s[0]] + kept;
        assert ([s[0]] + kept)[1..] == kept;
      } else {
        assert Filter(s, NotOwnedBy(u)) == kept;
      }
    }
  }

  /** The effect of add-to-cart on the Cart collection: the first row holding the
      (user, product) pair gets `q` added to its quantity; when there is none, a
      row with identifier `freshId` and quantity `q` is appended. */
  function AddQuantity(cart: seq<CartRow>, freshId: Id, u: Id, p: Id, q: int): (r: seq<CartRow>)
    ensures FirstIndex(cart, HasPair(u, p)).Some? ==>
              var i := FirstIndex(cart, HasPair(u, p)).value;
              && |r| == |cart|
              && r[i].id == cart[i].id && r[i].userId == u && r[i].productId == p
              && r[i].quantity == cart[i].quantity + q
              && forall j :: 0 <= j < |cart| && j != i ==> r[j] == cart[j]
    ensures FirstIndex(cart, HasPair(u, p)).None? ==>
              && |r| == |cart| + 1
              && r[|cart|] == CartRow(freshId, u, p, q)
              && forall j :: 0 <= j < |cart| ==> r[j] == cart[j]
  {
    match FirstIndex(cart, HasPair(u, p))
    case Some(i) => cart[i := cart[i].(quantity := cart[i].quantity + q)]
    case None => cart + [CartRow(freshId, u, p, q)]
  }

  /** Add-to-cart keeps at most one row per (user, product) pair, and keeps row
      identifiers distinct when the fresh identifier is unused. */
  lemma AddQuantityKeepsKeys(cart: seq<CartRow>, freshId: Id, u: Id, p: Id, q: int)
    requires KeysDistinct(cart, PairKey)
    requires KeysDistinct(cart, RowKey) && AllBelow(cart, RowKey, freshId)
    ensures KeysDistinct(AddQuantity(cart, freshId, u, p, q), PairKey)
    ensures KeysDistinct(AddQuantity(cart, freshId, u, p, q), RowKey)
  {
    match FirstIndex(cart, HasPair(u, p))
    case Some(i) =>
      var row := cart[i].(quantity := cart[i].quantity + q);
      KeysDistinctReplace(cart, i, row, RowKey);
      KeysDistinctReplace(cart, i, row, PairKey);
    case None =>
      var row := CartRow(freshId, u, p, q);
      assert forall j :: 0 <= j < |cart| ==> cart[j] in cart;
      KeysDistinctAppend(cart, row, RowKey);
      KeysDistinctAppend(cart, row, PairKey);
  }

  /** Adds accumulate: adding `q1` and then `q2` of one product for one user
      gives the same rows as adding `q1 + q2` once. Repeated adds never create a
      second row for the pair. */
  lemma AddQuantityCumulative(cart: seq<CartRow>, id1: Id, id2: Id, u: Id, p: Id, q1: int, q2: int)
    ensures AddQuantity(AddQuantity(cart, id1, u, p, q1), id2, u, p, q2) == AddQuantity(cart, id1, u, p, q1 + q2)
  {
    var once := AddQuantity(cart, id1, u, p, q1);
    match FirstIndex(cart, HasPair(u, p))
    case Some(i) =>
      assert forall j :: 0 <= j < i ==> once[j] == cart[j];
      FirstIndexIs(once, HasPair(u, p), i);
    case None =>
      assert forall j :: 0 <= j < |cart| ==> once[j] == cart[j];
      FirstIndexIs(once, HasPair(u, p), |cart|);
  }

  /** After add-to-cart the pair's row exists and every row of another pair is
      unchanged. */
  lemma AddQuantityTouchesOnlyPair(cart: seq<CartRow>, freshId: Id, u: Id, p: Id, q: int)
    ensures exists r :: r in AddQuantity(cart, freshId, u, p, q) && r.userId == u && r.productId == p
    ensures forall r :: r in cart && (r.userId != u || r.productId != p) ==> r in AddQuantity(cart, freshId, u, p, q)
    ensures forall r :: r in AddQuantity(cart, freshId, u, p, q) && (r.userId != u || r.productId != p) ==> r in cart
  {
    var after := AddQuantity(cart, freshId, u, p, q);
    match FirstIndex(cart, HasPair(u, p))
    case Some(i) =>
      assert after[i] in after;
      forall r | r in cart && (r.userId != u || r.productId != p) ensures r in after {
        var j :| 0 <= j < |cart| && cart[j] == r;
        assert after[j] == r;
      }
      forall r | r in after && (r.userId != u || r.productId != p) ensures r in cart {
        var j :| 0 <= j < |after| && after[j] == r;
        assert cart[j] == r;
      }
    case None =>
      assert after[|cart|] in after;
  }

  /** What one row contributes to the total quantity of the (user, product) pair. */
  function PairShare(r: CartRow, u: Id, p: Id): int {
    if r.userId == u && r.productId == p then r.quantity else 0
  }

  /** The total quantity the cart holds of product `p` for user `u`, summed over
      all of the pair's rows. */
  function PairTotal(cart: seq<CartRow>, u: Id, p: Id): int {
    if cart == [] then 0 else PairShare(cart[0], u, p) + PairTotal(cart[1..], u, p)
  }

  lemma {:induction false} PairTotalAppend(cart: seq<CartRow>, x: CartRow, u: Id, p: Id)
    ensures PairTotal(cart + [x], u, p) == PairTotal(cart, u, p) + PairShare(x, u, p)
  {
    if cart != [] {
      assert (cart + [x])[1..] == cart[1..] + [x];
      PairTotalAppend(cart[1..], x, u, p);
    }
  }

  lemma {:induction false} PairTotalReplace(cart: seq<CartRow>, i: nat, x: CartRow, u: Id, p: Id)
    requires i < |cart|
    ensures PairTotal(cart[i := x], u, p) == PairTotal(cart, u, p) - PairShare(cart[i], u, p) + PairShare(x, u, p)
  {
    if i > 0 {
      assert cart[i := x][1..] == cart[1..][i - 1 := x];
      PairTotalReplace(cart[1..], i - 1, x, u, p);
    } else {
      assert cart[i := x][1..] == cart[1..];
    }
  }

  /** Add-to-cart raises the pair's total quantity by exactly `q` and leaves the
      total of every other pair as it was. */
  lemma AddQuantityTotal(cart: seq<CartRow>, freshId: Id, u: Id, p: Id, q: int, v: Id, w: Id)
    ensures PairTotal(AddQuantity(cart, freshId, u, p, q), v, w) ==
              PairTotal(cart, v, w) + (if v == u && w == p then q else 0)
  {
    match FirstIndex(cart, HasPair(u, p))
    case Some(i) =>
      PairTotalReplace(cart, i, cart[i].(quantity := cart[i].quantity + q), v, w);
    case None =>
      PairTotalAppend(cart, CartRow(freshId, u, p, q), v, w);
  }
}
