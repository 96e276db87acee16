/**
 * The shop's store: the four stored collections and the session as fields
 * of one object, and each exported operation as a method that reads a
 * collection, changes it and writes it back. Ids, timestamps, the password
 * hash and the placeholder image URL are passed in by the caller.
 */
module Shop {
  import opened Wrappers
  import opened Identity
  import opened Catalog
  import opened Cart

  /** An order: a snapshot of the items the caller passed, with its total. */
  datatype Order = Order(id: string, buyerId: string, items: seq<CartItem>, total: real, created: int)

  class Store {
    var users: seq<User>
    var products: seq<Product>
    var session: Option<Session>
    var cart: seq<CartItem>
    var orders: seq<Order>

    /** What every operation keeps: emails are unique and the cart has one line per product. */
    ghost predicate Valid()
      reads this
    {
      UniqueEmails(users) && UniqueLines(cart)
    }

    /** An empty store: every key unset. */
    constructor ()
      ensures Valid()
      ensures users == [] && products == [] && session == None && cart == [] && orders == []
    {
      users, products, session, cart, orders := [], [], None, [], [];
    }

    /** `signup`: refuse a registered email, otherwise append the new user. */
    method Signup(name: string, email: string, passwordHash: string, id: string, now: int)
      returns (r: Result<User>)
      modifies this`users
      ensures r.Err? <==> EmailTaken(old(users), email)
      ensures r.Err? ==> r.error == EmailAlreadyRegistered && users == old(users)
      ensures r.Ok? ==> r.value == User(id, name, email, passwordHash, now)
      ensures r.Ok? ==> users == old(users) + [r.value]
      ensures old(Valid()) ==> Valid()
    {
      var user := User(id, name, email, passwordHash, now);
      match Register(users, user)
      case Err(e) =>
        r := Err(e);
      case Ok(all) =>
        if UniqueEmails(users) {
          RegisterUnique(users, user);
        }
        users := all;
        r := Ok(user);
    }

    /** `login`: find the first user with the email and hash and start a session for them. */
    method Login(email: string, passwordHash: string, now: int) returns (r: Result<User>)
      modifies this`session
      ensures r.Ok? <==>
        exists i :: 0 <= i < |users| && users[i].email == email && users[i].password == passwordHash
      ensures r.Ok? ==> Some(r.value) == Authenticate(users, email, passwordHash)
      ensures r.Ok? ==> session == Some(Session(r.value.id, now))
      ensures r.Err? ==> r.error == InvalidCredentials && session == old(session)
    {
      var found := Authenticate(users, email, passwordHash);
      match found
      case None =>
        r := Err(InvalidCredentials);
      case Some(u) =>
        ghost var i :| 0 <= i < |users| && users[i] == u;
        session := Some(Session(u.id, now));
        assert users[i].email == email && users[i].password == passwordHash;
        r := Ok(u);
    }

    /** `logout`: delete the session; the cart and the catalog stay. */
    method Logout()
      modifies this`session
      ensures session == None
      ensures Resolve(users, session) == None
    {
      session := None;
    }

    /** `currentUser`: the user the session names, None if there is no session or no such user. */
    method CurrentUser() returns (r: Option<User>)
      ensures r.None? <==>
        session.None? || forall i :: 0 <= i < |users| ==> users[i].id != session.value.userId
      ensures r.Some? ==> r.value in users && r.value.id == session.value.userId
      ensures r == Resolve(users, session)
    {
      r := Resolve(users, session);
    }

    /** `seedProductsIfEmpty`: three demo products if the catalog is empty, otherwise nothing. */
    method SeedProductsIfEmpty(id1: string, id2: string, id3: string, now: int)
      modifies this`products
      ensures |old(products)| == 0 ==> products == Samples(id1, id2, id3, now)
      ensures |old(products)| > 0 ==> products == old(products)
    {
      if |products| == 0 {
        products := Samples(id1, id2, id3, now);
      }
    }

    /** `getProducts`: the catalog, newest first. */
    method GetProducts() returns (r: seq<Product>)
      ensures r == products
    {
      r := products;
    }

    /** `addProduct`: put a new product first; a missing or empty image becomes the placeholder. */
    method AddProduct(title: string, price: real, desc: string, image: Option<string>,
                      placeholder: string, sellerId: string, id: string, now: int)
      returns (p: Product)
      modifies this`products
      ensures p.id == id && p.title == title && p.price == price && p.desc == desc
      ensures p.sellerId == sellerId && p.created == now
      ensures p.image == if image.Some? && image.value != "" then image.value else placeholder
      ensures |products| == |old(products)| + 1
      ensures products[0] == p && products[1..] == old(products)
    {
      var picture := if image.Some? && image.value != "" then image.value else placeholder;
      p := Product(id, title, price, desc, picture, sellerId, now);
      products := [p] + products;
    }

    /** `updateProduct`: merge `data` into the first product with the id, or fail with "Not found". */
    method UpdateProduct(id: string, data: ProductPatch) returns (r: Result<Product>)
      modifies this`products
      ensures r.Err? <==> forall j :: 0 <= j < |old(products)| ==> old(products)[j].id != id
      ensures r.Err? ==> r.error == NotFound && products == old(products)
      ensures r.Ok? ==> Update(old(products), id, data) == Ok(products)
      ensures r.Ok? ==>
        var i := ProductIndex(old(products), id).value;
        r.value == Merge(old(products)[i], data) && products == old(products)[i := r.value]
    {
      match ProductIndex(products, id)
      case None =>
        r := Err(NotFound);
      case Some(i) =>
        var merged := Merge(products[i], data);
        products := products[i := merged];
        r := Ok(merged);
    }

    /** `removeProduct`: drop every product with the id, keeping the others in order. */
    method RemoveProduct(id: string)
      modifies this`products
      ensures products == Remove(old(products), id)
      ensures forall j :: 0 <= j < |products| ==> products[j].id != id
    {
      products := Remove(products, id);
    }

    /** `getCart`: the cart lines. */
    method GetCart() returns (r: seq<CartItem>)
      ensures r == cart
    {
      r := cart;
    }

    /** `addToCart`: add to the first line for the product, or append a new line; `qty` defaults to 1. */
    method AddToCart(productId: string, qty: int := 1)
      modifies this`cart
      ensures cart == Add(old(cart), productId, qty)
      ensures Contains(cart, productId)
      ensures QtyOf(cart, productId) == QtyOf(old(cart), productId) + qty
      ensures old(Valid()) ==> Valid()
      ensures old(Valid()) ==> cart[LineIndex(cart, productId).value].qty == QtyOf(old(cart), productId) + qty
    {
      ghost var before := cart;
      match LineIndex(cart, productId) {
        case Some(i) =>
          cart := cart[i := cart[i].(qty := cart[i].qty + qty)];
        case None =>
          cart := cart + [CartItem(productId, qty)];
      }
      AddQty(before, productId, qty, productId);
      assert cart[LineIndex(before, productId).GetOr(|before|)].productId == productId;
      if UniqueLines(before) {
        AddUnique(before, productId, qty);
        QtyOfUnique(cart, productId);
      }
    }

    /** `updateCart`: set the product's lines to `qty`, then drop every line whose quantity is not positive. */
    method UpdateCart(productId: string, qty: int)
      modifies this`cart
      ensures cart == SetQty(old(cart), productId, qty)
      ensures AllPositive(cart)
      ensures qty <= 0 ==> !Contains(cart, productId)
      ensures old(Valid()) ==> Valid()
      ensures old(Valid()) ==>
        QtyOf(cart, productId) == if qty > 0 && Contains(old(cart), productId) then qty else 0
    {
      if UniqueLines(cart) {
        SetQtyUnique(cart, productId, qty);
        SetQtyQty(cart, productId, qty);
      }
      cart := SetQty(cart, productId, qty);
    }

    /** `clearCart`: delete the cart. */
    method ClearCart()
      modifies this`cart
      ensures cart == []
    {
      cart := [];
    }

    /** `placeOrder`: put the order first in the history, then clear the cart. */
    method PlaceOrder(buyerId: string, items: seq<CartItem>, total: real, id: string, now: int)
      returns (o: Order)
      modifies this`orders, this`cart
      ensures o == Order(id, buyerId, items, total, now)
      ensures |orders| == |old(orders)| + 1
      ensures orders[0] == o && orders[1..] == old(orders)
      ensures cart == []
      ensures old(Valid()) ==> Valid()
    {
      o := Order(id, buyerId, items, total, now);
      orders := [o] + orders;
      ClearCart();
    }
  }
}
