/**
 * The cart atom: the in-memory list of cart items keyed by product `id`,
 * mirrored to the `cart` key of local storage, with actions that also call the
 * backend when a user and a token are both present.
 */
module CartAtom {
  import opened Util
  import opened Api
  import opened Keyed
  import opened UserAtom

  /** A cart line as the cart atom stores it. */
  datatype CartItem = CartItem(
    id: string,
    productId: string,
    name: string,
    nameAr: Option<string>,
    price: real,
    quantity: int,
    image: Option<string>,
    offer: Option<real>,
    cartItemId: Option<string>)

  datatype BackendProduct = BackendProduct(
    id: string, title: string, titleAr: Option<string>, price: real,
    imageUrl: Option<string>, stock: int, isActive: bool)

  /** A cart line as `GET /api/users/cart` returns it. */
  datatype BackendCartItem = BackendCartItem(
    id: string, quantity: int, createdAt: string, updatedAt: string, product: BackendProduct)

  /** The product an add action receives. */
  datatype ProductInput = ProductInput(
    id: string, name: string, nameAr: Option<string>, price: real,
    image: Option<string>, offer: Option<real>)

  /** The body of a successful `GET /api/users/cart`. */
  datatype CartResponse = CartResponse(success: bool, cart: seq<BackendCartItem>)

  function ItemId(c: CartItem): string { c.id }
  function Quantity(c: CartItem): int { c.quantity }

  /** The invariant of the collection: at most one line per product `id`. */
  predicate UniqueIds(items: seq<CartItem>)
  {
    UniqueKeys(items, ItemId)
  }

  predicate InCart(items: seq<CartItem>, id: string)
  {
    HasKey(items, ItemId, id)
  }

  /** `convertBackendCartItem`: a backend line becomes a cart line keyed by its product. */
  function ConvertBackendCartItem(b: BackendCartItem): (c: CartItem)
    ensures c.id == b.product.id && c.productId == b.product.id
    ensures c.quantity == b.quantity && c.cartItemId == Some(b.id)
    ensures c.name == b.product.title && c.price == b.product.price && c.offer == None
  {
    CartItem(b.product.id, b.product.id, b.product.title, b.product.titleAr,
             b.product.price, b.quantity, b.product.imageUrl, None, Some(b.id))
  }

  /** `response.cart.map(convertBackendCartItem)`. */
  function ConvertAll(bs: seq<BackendCartItem>): (items: seq<CartItem>)
    ensures |items| == |bs|
    ensures forall i :: 0 <= i < |bs| ==> items[i] == ConvertBackendCartItem(bs[i])
  {
    seq(|bs|, i requires 0 <= i < |bs| => ConvertBackendCartItem(bs[i]))
  }

  /** `cartCountAtom`: the sum of the quantities. */
  function CartCount(items: seq<CartItem>): int
  {
    Total(items, Quantity)
  }

  lemma CartCountEmpty()
    ensures CartCount([]) == 0
  {
  }

  /** The count of a list of non-negative quantities is at least each single quantity. */
  lemma {:induction false} CartCountBounds(items: seq<CartItem>)
    requires forall i :: 0 <= i < |items| ==> items[i].quantity >= 0
    ensures CartCount(items) >= 0
    ensures forall i :: 0 <= i < |items| ==> items[i].quantity <= CartCount(items)
    decreases |items|
  {
    if items != [] {
      var init := items[..|items| - 1];
      CartCountBounds(init);
      forall i | 0 <= i < |items| ensures items[i].quantity <= CartCount(items) {
        if i < |items| - 1 {
          assert init[i] == items[i];
        }
      }
    }
  }

  /** A new line for `product`: quantity 1 and `productId` set to the product's id. */
  function NewLine(p: ProductInput): (c: CartItem)
    ensures c.id == p.id && c.productId == p.id && c.quantity == 1 && c.cartItemId == None
  {
    CartItem(p.id, p.id, p.name, p.nameAr, p.price, 1, p.image, p.offer, None)
  }

  function Bump(c: CartItem): CartItem { c.(quantity := c.quantity + 1) }

  /** The new cart after `addToCartAtom`: raise an existing line by one, or append a new line. */
  function Added(items: seq<CartItem>, p: ProductInput): seq<CartItem>
  {
    if InCart(items, p.id) then Modify(items, ItemId, p.id, Bump) else items + [NewLine(p)]
  }

  /**
   * Adding a product already in the cart raises that line's quantity by one;
   * the length and every other line are unchanged.
   */
  lemma AddExisting(items: seq<CartItem>, p: ProductInput, i: nat)
    requires UniqueIds(items) && i < |items| && items[i].id == p.id
    ensures Added(items, p) == items[..i] + [items[i].(quantity := items[i].quantity + 1)] + items[i + 1..]
    ensures |Added(items, p)| == |items|
  {
    ModifyTouchesOne(items, ItemId, i, Bump);
  }

  /** Adding a product not in the cart appends exactly one line, with quantity 1. */
  lemma AddNew(items: seq<CartItem>, p: ProductInput)
    requires !InCart(items, p.id)
    ensures Added(items, p) == items + [NewLine(p)]
    ensures Added(items, p)[|items|].quantity == 1 && Added(items, p)[|items|].productId == p.id
  {
  }

  /** Adding keeps at most one line per id, and the product is in the cart afterwards. */
  lemma AddKeepsUnique(items: seq<CartItem>, p: ProductInput)
    requires UniqueIds(items)
    ensures UniqueIds(Added(items, p))
    ensures InCart(Added(items, p), p.id)
  {
    if InCart(items, p.id) {
      ModifyKeepsKeys(items, ItemId, p.id, Bump);
    } else {
      AppendFresh(items, ItemId, NewLine(p));
      assert Added(items, p)[|items|].id == p.id;
    }
  }

  /** Adding raises the cart count by exactly one. */
  lemma AddCountsOne(items: seq<CartItem>, p: ProductInput)
    requires UniqueIds(items)
    ensures CartCount(Added(items, p)) == CartCount(items) + 1
  {
    if InCart(items, p.id) {
      var i :| 0 <= i < |items| && items[i].id == p.id;
      AddExisting(items, p, i);
      TotalSplit(items, i, Bump(items[i]), Quantity);
    } else {
      TotalAppend(items, [NewLine(p)], Quantity);
      assert [NewLine(p)][..0] == [];
    }
  }

  /** The new cart after `removeFromCartAtom`. */
  function Removed(items: seq<CartItem>, id: string): seq<CartItem>
  {
    Without(items, ItemId, id)
  }

  /** Removing deletes the line with that id, keeps the others in order and lowers the count by its quantity. */
  lemma RemoveDeletesLine(items: seq<CartItem>, i: nat)
    requires UniqueIds(items) && i < |items|
    ensures Removed(items, items[i].id) == items[..i] + items[i + 1..]
    ensures CartCount(Removed(items, items[i].id)) == CartCount(items) - items[i].quantity
    ensures UniqueIds(Removed(items, items[i].id)) && !InCart(Removed(items, items[i].id), items[i].id)
  {
    WithoutDeletesOne(items, ItemId, i);
    TotalSplit(items, i, items[i], Quantity);
    WithoutUnique(items, ItemId, items[i].id);
  }

  /** The new cart after `updateQuantityAtom`: a quantity of zero or less removes the line. */
  function Updated(items: seq<CartItem>, id: string, quantity: int): seq<CartItem>
  {
    if quantity <= 0 then Removed(items, id)
    else Modify(items, ItemId, id, (c: CartItem) => c.(quantity := quantity))
  }

  /**
   * Setting a quantity of zero or less is the same as removing; a positive
   * quantity replaces the quantity of that line only, and lines keep their ids.
   */
  lemma UpdateQuantityCases(items: seq<CartItem>, id: string, quantity: int)
    ensures quantity <= 0 ==> Updated(items, id, quantity) == Removed(items, id)
    ensures quantity > 0 ==>
      && |Updated(items, id, quantity)| == |items|
      && forall i :: 0 <= i < |items| ==>
           Updated(items, id, quantity)[i] == if items[i].id == id then items[i].(quantity := quantity) else items[i]
    ensures UniqueIds(items) ==> UniqueIds(Updated(items, id, quantity))
  {
    if UniqueIds(items) {
      if quantity <= 0 {
        WithoutUnique(items, ItemId, id);
      } else {
        ModifyKeepsKeys(items, ItemId, id, (c: CartItem) => c.(quantity := quantity));
      }
    }
  }

  class CartStore {
    var items: seq<CartItem>
    var storage: Slot<CartItem>
    var requests: seq<Request>

    /** The atom's initial value, read from storage. */
    constructor (saved: Slot<CartItem>, hydrated: bool)
      ensures items == LoadFromStorage(saved, hydrated)
      ensures storage == saved && requests == []
    {
      items := LoadFromStorage(saved, hydrated);
      storage := saved;
      requests := [];
    }

    /**
     * `syncCartFromBackendAtom`: without a user and a token nothing happens; else
     * the cart is fetched, and only a successful answer replaces the cart and the
     * stored copy. `response` is None when the call failed.
     */
    method SyncFromBackend(user: Option<User>, token: Option<string>, response: Option<CartResponse>)
      modifies this
      ensures requests == old(requests) + SessionCall(user, token, Request(GET, CartPath, token, NoBody))
      ensures IsAuthenticated(user, token) && response.Some? && response.value.success ==>
        items == ConvertAll(response.value.cart) && storage == Stored(items)
      ensures !(IsAuthenticated(user, token) && response.Some? && response.value.success) ==>
        items == old(items) && storage == old(storage)
    {
      if !IsAuthenticated(user, token) {
        return;
      }
      requests := requests + [Request(GET, CartPath, token, NoBody)];
      if response.Some? && response.value.success {
        items := ConvertAll(response.value.cart);
        storage := Stored(items);
      }
    }

    /** `addToCartAtom`. */
    method AddToCart(user: Option<User>, token: Option<string>, product: ProductInput)
      modifies this
      ensures items == Added(old(items), product) && storage == Stored(items)
      ensures requests == old(requests) + SessionCall(user, token, Request(POST, CartPath, token, ProductQuantity(product.id, 1)))
      ensures UniqueIds(old(items)) ==> UniqueIds(items) && CartCount(items) == CartCount(old(items)) + 1
    {
      var newCart := Added(items, product);
      if UniqueIds(items) {
        AddKeepsUnique(items, product);
        AddCountsOne(items, product);
      }
      items := newCart;
      storage := Stored(newCart);
      if IsAuthenticated(user, token) {
        requests := requests + [Request(POST, CartPath, token, ProductQuantity(product.id, 1))];
      }
    }

    /**
     * `removeFromCartAtom`: the line goes locally in any case; the backend is
     * told only when the session is complete and the line has a `cartItemId`.
     */
    method RemoveFromCart(user: Option<User>, token: Option<string>, productId: string)
      modifies this
      ensures items == Removed(old(items), productId) && storage == Stored(items)
      ensures var line := FindFirst(old(items), ItemId, productId);
        requests == old(requests) +
          if line.Some? && Truthy(line.value.cartItemId)
          then SessionCall(user, token, Request(DELETE, CartPath, token, CartItemRef(line.value.cartItemId.value)))
          else []
      ensures !InCart(items, productId)
      ensures UniqueIds(old(items)) ==> UniqueIds(items)
    {
      var line := FindFirst(items, ItemId, productId);
      if UniqueIds(items) {
        WithoutUnique(items, ItemId, productId);
      }
      items := Removed(items, productId);
      storage := Stored(items);
      if IsAuthenticated(user, token) && line.Some? && Truthy(line.value.cartItemId) {
        requests := requests + [Request(DELETE, CartPath, token, CartItemRef(line.value.cartItemId.value))];
      }
    }

    /**
     * `updateQuantityAtom`: a quantity of zero or less deletes the line (and the
     * backend line), a positive one sets it; the backend needs a `cartItemId`.
     */
    method UpdateQuantity(user: Option<User>, token: Option<string>, id: string, quantity: int)
      modifies this
      ensures items == Updated(old(items), id, quantity) && storage == Stored(items)
      ensures var line := FindFirst(old(items), ItemId, id);
        requests == old(requests) +
          if line.Some? && Truthy(line.value.cartItemId)
          then SessionCall(user, token,
                 if quantity <= 0 then Request(DELETE, CartPath, token, CartItemRef(line.value.cartItemId.value))
                 else Request(PUT, CartPath, token, CartItemQuantity(line.value.cartItemId.value, quantity)))
          else []
      ensures UniqueIds(old(items)) ==> UniqueIds(items)
    {
      var line := FindFirst(items, ItemId, id);
      UpdateQuantityCases(items, id, quantity);
      items := Updated(items, id, quantity);
      storage := Stored(items);
      if IsAuthenticated(user, token) && line.Some? && Truthy(line.value.cartItemId) {
        if quantity <= 0 {
          requests := requests + [Request(DELETE, CartPath, token, CartItemRef(line.value.cartItemId.value))];
        } else {
          requests := requests + [Request(PUT, CartPath, token, CartItemQuantity(line.value.cartItemId.value, quantity))];
        }
      }
    }

    /** `clearCartAtom`: cart and storage are emptied whatever the session or the backend does. */
    method ClearCart(user: Option<User>, token: Option<string>)
      modifies this
      ensures items == [] && storage == Stored([]) && CartCount(items) == 0
      ensures requests == old(requests) + SessionCall(user, token, Request(DELETE, CartClearPath, token, NoBody))
    {
      items := [];
      storage := Stored([]);
      if IsAuthenticated(user, token) {
        requests := requests + [Request(DELETE, CartClearPath, token, NoBody)];
      }
    }
  }
}
