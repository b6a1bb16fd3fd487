/**
 * The cart hook: cart operations keyed by `productId` over the item shape that
 * carries a nested product and an owner `userId`, the same-user filter on the
 * stored cart, the server fetch and the guest-to-login merge keyed by `id`.
 * In guest mode the hook writes the cart it read at the start of the call to
 * storage, not the updated one (see `CartHook`).
 */
module UseCart {
  import opened Util
  import opened Api
  import opened Keyed
  import opened OrderedMap
  import opened UserAtom

  /** The product fields the hook reads (prices are not modelled). */
  datatype Product = Product(id: string, name: string, price: real, offer: real)

  /** A cart line with its owner and nested product. */
  datatype CartItem = CartItem(
    id: string,
    quantity: int,
    createdAt: Option<string>,
    updatedAt: Option<string>,
    product: Product,
    userId: Option<string>,
    productId: string)

  function IdOf(c: CartItem): string { c.id }
  function ProductIdOf(c: CartItem): string { c.productId }
  function Quantity(c: CartItem): int { c.quantity }
  function Bump(c: CartItem): CartItem { c.(quantity := c.quantity + 1) }
  function Drop(c: CartItem): CartItem { c.(quantity := c.quantity - 1) }

  /** `cartCount`: the sum of the quantities (`|| 0` changes nothing on integers). */
  function CartCount(cart: seq<CartItem>): int
  {
    Total(cart, Quantity)
  }

  /** Replacing line `i` changes the count by the difference of the two quantities. */
  lemma CountAfterUpdate(cart: seq<CartItem>, i: nat, x: CartItem)
    requires i < |cart|
    ensures cart[i := x] == cart[..i] + [x] + cart[i + 1..]
    ensures CartCount(cart[i := x]) == CartCount(cart) - cart[i].quantity + x.quantity
  {
    assert cart[i := x] == cart[..i] + [x] + cart[i + 1..];
    TotalSplit(cart, i, x, Quantity);
  }

  // ---------------------------------------------------------------------------
  // Local list transformations
  // ---------------------------------------------------------------------------

  /** The cart after `addToCart`: the first line with the product gains one, else the item is appended with quantity 1. */
  function Added(cart: seq<CartItem>, item: CartItem): seq<CartItem>
  {
    var i := IndexOf(cart, ProductIdOf, item.productId);
    if i == -1 then cart + [item.(quantity := 1)] else cart[i := Bump(cart[i])]
  }

  /** Adding a product not in the cart appends it as the last line, with quantity 1. */
  lemma AddNewLine(cart: seq<CartItem>, item: CartItem)
    requires !HasKey(cart, ProductIdOf, item.productId)
    ensures Added(cart, item) == cart + [item.(quantity := 1)]
    ensures UniqueKeys(cart, ProductIdOf) ==> UniqueKeys(Added(cart, item), ProductIdOf)
  {
    if UniqueKeys(cart, ProductIdOf) {
      AppendFresh(cart, ProductIdOf, item.(quantity := 1));
    }
  }

  /** Adding a product already in the cart raises its line by one, exactly as `increaseItemQuantity` does. */
  lemma AddExistingLine(cart: seq<CartItem>, item: CartItem)
    requires UniqueKeys(cart, ProductIdOf) && HasKey(cart, ProductIdOf, item.productId)
    ensures Added(cart, item) == Increased(cart, item.productId)
    ensures UniqueKeys(Added(cart, item), ProductIdOf)
  {
    var i := IndexOf(cart, ProductIdOf, item.productId);
    IncreaseTouchesOne(cart, i);
  }

  /** Whatever the cart, adding raises the count by one. */
  lemma AddedCount(cart: seq<CartItem>, item: CartItem)
    ensures CartCount(Added(cart, item)) == CartCount(cart) + 1
  {
    var i := IndexOf(cart, ProductIdOf, item.productId);
    if i == -1 {
      assert Added(cart, item) == cart + [item.(quantity := 1)];
      TotalSnoc(cart, item.(quantity := 1), Quantity);
    } else {
      assert Added(cart, item) == cart[i := Bump(cart[i])];
      CountAfterUpdate(cart, i, Bump(cart[i]));
    }
  }

  /** Whatever the cart, the product is in it after adding. */
  lemma AddedHasProduct(cart: seq<CartItem>, item: CartItem)
    ensures HasKey(Added(cart, item), ProductIdOf, item.productId)
  {
    var i := IndexOf(cart, ProductIdOf, item.productId);
    if i == -1 {
      assert Added(cart, item)[|cart|].productId == item.productId;
    } else {
      assert Added(cart, item)[i].productId == item.productId;
    }
  }

  /** The cart after `increaseItemQuantity`: every line with the product gains one. */
  function Increased(cart: seq<CartItem>, productId: string): seq<CartItem>
  {
    Modify(cart, ProductIdOf, productId, Bump)
  }

  /** The cart after `removeFromCart`: the lines with the product are filtered out. */
  function RemovedProduct(cart: seq<CartItem>, productId: string): seq<CartItem>
  {
    Without(cart, ProductIdOf, productId)
  }

  /** The cart after `decreaseItemQuantity`: a line at quantity 1 is removed, otherwise lines with the product lose one. */
  function Decreased(cart: seq<CartItem>, productId: string): seq<CartItem>
  {
    var item := FindFirst(cart, ProductIdOf, productId);
    if item.Some? && item.value.quantity == 1 then RemovedProduct(cart, productId)
    else Modify(cart, ProductIdOf, productId, Drop)
  }

  /** With unique product ids, increasing touches only that product's line and adds one to the count. */
  lemma IncreaseTouchesOne(cart: seq<CartItem>, i: nat)
    requires UniqueKeys(cart, ProductIdOf) && i < |cart|
    ensures Increased(cart, cart[i].productId) == cart[i := Bump(cart[i])]
    ensures CartCount(Increased(cart, cart[i].productId)) == CartCount(cart) + 1
    ensures UniqueKeys(Increased(cart, cart[i].productId), ProductIdOf)
  {
    ModifyTouchesOne(cart, ProductIdOf, i, Bump);
    CountAfterUpdate(cart, i, Bump(cart[i]));
    ModifyKeepsKeys(cart, ProductIdOf, cart[i].productId, Bump);
  }

  /** Increasing or decreasing a product not in the cart changes nothing. */
  lemma AbsentProductUnchanged(cart: seq<CartItem>, productId: string)
    requires !HasKey(cart, ProductIdOf, productId)
    ensures Increased(cart, productId) == cart
    ensures Decreased(cart, productId) == cart
    ensures RemovedProduct(cart, productId) == cart
  {
    WithoutAbsent(cart, ProductIdOf, productId);
  }

  /** With unique product ids, removing deletes that line only, keeps the order and lowers the count by its quantity. */
  lemma RemoveProductDeletesLine(cart: seq<CartItem>, i: nat)
    requires UniqueKeys(cart, ProductIdOf) && i < |cart|
    ensures RemovedProduct(cart, cart[i].productId) == cart[..i] + cart[i + 1..]
    ensures CartCount(RemovedProduct(cart, cart[i].productId)) == CartCount(cart) - cart[i].quantity
  {
    WithoutDeletesOne(cart, ProductIdOf, i);
    TotalSplit(cart, i, cart[i], Quantity);
  }

  /**
   * With unique product ids, decreasing a product in the cart lowers the count
   * by one: a line at quantity 1 disappears, any other line loses one.
   */
  lemma DecreaseCases(cart: seq<CartItem>, i: nat)
    requires UniqueKeys(cart, ProductIdOf) && i < |cart|
    ensures cart[i].quantity == 1 ==> Decreased(cart, cart[i].productId) == cart[..i] + cart[i + 1..]
    ensures cart[i].quantity != 1 ==> Decreased(cart, cart[i].productId) == cart[i := Drop(cart[i])]
    ensures CartCount(Decreased(cart, cart[i].productId)) == CartCount(cart) - 1
    ensures UniqueKeys(Decreased(cart, cart[i].productId), ProductIdOf)
  {
    var pid := cart[i].productId;
    FindFirstUnique(cart, ProductIdOf, i);
    if cart[i].quantity == 1 {
      RemoveProductDeletesLine(cart, i);
      WithoutUnique(cart, ProductIdOf, pid);
    } else {
      ModifyTouchesOne(cart, ProductIdOf, i, Drop);
      CountAfterUpdate(cart, i, Drop(cart[i]));
      ModifyKeepsKeys(cart, ProductIdOf, pid, Drop);
    }
  }

  // ---------------------------------------------------------------------------
  // Guest-to-login merge, keyed by `id`
  // ---------------------------------------------------------------------------

  /** The server line with the larger of the two quantities (the server's on a tie). */
  function Reconciled(server: CartItem, local: CartItem): (r: CartItem)
    ensures r == server.(quantity := r.quantity)
    ensures r.quantity >= server.quantity && r.quantity >= local.quantity
    ensures r.quantity == server.quantity || r.quantity == local.quantity
  {
    server.(quantity := if server.quantity > local.quantity then server.quantity else local.quantity)
  }

  /** One local line folded into the merge map. */
  function MergeStep(m: OMap<CartItem>, x: CartItem): (r: OMap<CartItem>)
    requires Valid(m)
    ensures Valid(r)
  {
    if x.id in m.vals then Put(m, x.id, Reconciled(m.vals[x.id], x)) else Put(m, x.id, x)
  }

  /** The local lines folded into the merge map in order. */
  function MergeLocal(m: OMap<CartItem>, xs: seq<CartItem>): (r: OMap<CartItem>)
    requires Valid(m)
    ensures Valid(r)
    decreases |xs|
  {
    if xs == [] then m else MergeStep(MergeLocal(m, xs[..|xs| - 1]), xs[|xs| - 1])
  }

  /** What `mergeCarts(localCart, serverCart)` returns. */
  function MergedCarts(local: seq<CartItem>, server: seq<CartItem>): seq<CartItem>
  {
    Values(MergeLocal(LoadAll(server, IdOf), local))
  }

  /** The "add" of one unit under a line's id, when the session is complete. */
  function AddCall(user: Option<User>, token: Option<string>, x: CartItem): seq<Request>
  {
    SessionCall(user, token, Request(POST, CartPath, token, ProductQuantity(x.id, 1)))
  }

  /** One "add" per line, in order. */
  function AddCalls(user: Option<User>, token: Option<string>, xs: seq<CartItem>): (r: seq<Request>)
    ensures IsAuthenticated(user, token) ==> |r| == |xs|
    ensures !IsAuthenticated(user, token) ==> r == []
    decreases |xs|
  {
    if xs == [] then [] else AddCalls(user, token, xs[..|xs| - 1]) + AddCall(user, token, xs[|xs| - 1])
  }

  /** The requests one local line causes, given the map before it. */
  function StepRequests(user: Option<User>, token: Option<string>, m: OMap<CartItem>, x: CartItem): seq<Request>
  {
    if x.id in m.vals then
      if m.vals[x.id].quantity < x.quantity
      then SessionCall(user, token, Request(PUT, CartPath, token, QuantityAction(x.id, x.quantity, SetTo)))
      else []
    else AddCall(user, token, x)
  }

  /** The requests the local lines cause, in order. */
  function MergeRequests(user: Option<User>, token: Option<string>, m: OMap<CartItem>, xs: seq<CartItem>): seq<Request>
    requires Valid(m)
    decreases |xs|
  {
    if xs == [] then []
    else
      var init := xs[..|xs| - 1];
      MergeRequests(user, token, m, init) + StepRequests(user, token, MergeLocal(m, init), xs[|xs| - 1])
  }

  /** The merge map holds the ids of the start map and of the local lines; ids the local lines lack keep their entry. */
  lemma {:induction false} MergeLocalFrame(m: OMap<CartItem>, xs: seq<CartItem>)
    requires Valid(m)
    ensures forall k :: k in MergeLocal(m, xs).vals <==> k in m.vals || HasKey(xs, IdOf, k)
    ensures forall k :: k in m.vals && !HasKey(xs, IdOf, k) ==> MergeLocal(m, xs).vals[k] == m.vals[k]
    decreases |xs|
  {
    if xs != [] {
      MergeLocalFrame(m, xs[..|xs| - 1]);
      forall k ensures HasKey(xs, IdOf, k) <==> HasKey(xs[..|xs| - 1], IdOf, k) || xs[|xs| - 1].id == k {
        HasKeySnoc(xs, IdOf, k);
      }
    }
  }

  /** Every merge-map entry is stored under its own id. */
  lemma {:induction false} MergeLocalKeyed(m: OMap<CartItem>, xs: seq<CartItem>)
    requires Valid(m) && KeyedBy(m, IdOf)
    ensures KeyedBy(MergeLocal(m, xs), IdOf)
    decreases |xs|
  {
    if xs != [] {
      MergeLocalKeyed(m, xs[..|xs| - 1]);
    }
  }

  /**
   * The merge has one line per id, and an id is in it iff it is on the server
   * or in the local cart.
   */
  lemma MergedCartsIds(local: seq<CartItem>, server: seq<CartItem>)
    ensures UniqueKeys(MergedCarts(local, server), IdOf)
    ensures forall k :: HasKey(MergedCarts(local, server), IdOf, k) <==> HasKey(server, IdOf, k) || HasKey(local, IdOf, k)
  {
    var m := LoadAll(server, IdOf);
    MergeLocalFrame(m, local);
    MergeLocalKeyed(m, local);
    ValuesKeys(MergeLocal(m, local), IdOf);
  }

  /** With unique local ids, the merge map lists the start keys, then the ids of local-only lines in local order. */
  lemma {:induction false} MergeLocalKeys(m: OMap<CartItem>, xs: seq<CartItem>, server: seq<CartItem>)
    requires Valid(m) && UniqueKeys(xs, IdOf)
    requires forall k :: k in m.vals <==> HasKey(server, IdOf, k)
    ensures MergeLocal(m, xs).keys == m.keys + KeysOf(Unmatched(xs, server, IdOf), IdOf)
    decreases |xs|
  {
    if xs != [] {
      var init := xs[..|xs| - 1];
      var x := xs[|xs| - 1];
      UniqueInit(xs, IdOf);
      MergeLocalKeys(m, init, server);
      var before := MergeLocal(m, init);
      assert x.id in before.vals <==> x.id in m.vals by {
        MergeLocalFrame(m, init);
      }
      assert MergeLocal(m, xs) == MergeStep(before, x);
      var tail := if HasKey(server, IdOf, x.id) then [] else [x];
      assert Unmatched(xs, server, IdOf) == Unmatched(init, server, IdOf) + tail;
      KeysOfAppend(Unmatched(init, server, IdOf), tail, IdOf);
    }
  }

  /**
   * With unique local ids, local line `j` ends up reconciled with the start
   * entry of its id when there is one, and as it is otherwise.
   */
  lemma {:induction false} MergeLocalVals(m: OMap<CartItem>, xs: seq<CartItem>, j: nat)
    requires Valid(m) && UniqueKeys(xs, IdOf) && j < |xs|
    ensures xs[j].id in MergeLocal(m, xs).vals
    ensures MergeLocal(m, xs).vals[xs[j].id] == if xs[j].id in m.vals then Reconciled(m.vals[xs[j].id], xs[j]) else xs[j]
    decreases |xs|
  {
    var init, x := xs[..|xs| - 1], xs[|xs| - 1];
    var prev := MergeLocal(m, init);
    assert MergeLocal(m, xs) == MergeStep(prev, x);
    UniqueInit(xs, IdOf);
    if j == |xs| - 1 {
      MergeLocalFrame(m, init);
      assert x.id in prev.vals <==> x.id in m.vals;
    } else {
      assert init[j] == xs[j];
      MergeLocalVals(m, init, j);
      assert xs[j].id != x.id;
    }
  }

  /** Server line `s` after the merge: reconciled with the first local line carrying its id, if any. */
  function Reconcile(s: CartItem, local: seq<CartItem>): CartItem
  {
    match FindFirst(local, IdOf, s.id)
    case None => s
    case Some(l) => Reconciled(s, l)
  }

  /** The merge stated without a map: server lines in server order, reconciled, then the local-only lines in local order. */
  function ReferenceMerge(local: seq<CartItem>, server: seq<CartItem>): seq<CartItem>
  {
    seq(|server|, i requires 0 <= i < |server| => Reconcile(server[i], local)) + Unmatched(local, server, IdOf)
  }

  /** With unique local ids, the merge map's keys are the server ids, then the local-only ids. */
  lemma MergedKeys(local: seq<CartItem>, server: seq<CartItem>)
    requires UniqueKeys(local, IdOf) && UniqueKeys(server, IdOf)
    ensures MergeLocal(LoadAll(server, IdOf), local).keys == KeysOf(server, IdOf) + KeysOf(Unmatched(local, server, IdOf), IdOf)
  {
    LoadAllKeys(server, IdOf);
    MergeLocalKeys(LoadAll(server, IdOf), local, server);
  }

  /** Merged line `i < |server|` is server line `i`, reconciled. */
  lemma MergedServerLine(local: seq<CartItem>, server: seq<CartItem>, i: nat)
    requires UniqueKeys(local, IdOf) && UniqueKeys(server, IdOf) && i < |server|
    ensures server[i].id in MergeLocal(LoadAll(server, IdOf), local).vals
    ensures MergeLocal(LoadAll(server, IdOf), local).vals[server[i].id] == Reconcile(server[i], local)
  {
    var m := LoadAll(server, IdOf);
    var k := server[i].id;
    LoadAllVals(server, IdOf, i);
    MergeLocalFrame(m, local);
    if HasKey(local, IdOf, k) {
      MergeLocalVals(m, local, IndexOf(local, IdOf, k));
    }
  }

  /** A local-only line is in the merge as it is. */
  lemma MergedLocalLine(local: seq<CartItem>, server: seq<CartItem>, l: CartItem)
    requires UniqueKeys(local, IdOf) && l in Unmatched(local, server, IdOf)
    ensures l.id in MergeLocal(LoadAll(server, IdOf), local).vals
    ensures MergeLocal(LoadAll(server, IdOf), local).vals[l.id] == l
  {
    var j :| 0 <= j < |local| && local[j] == l;
    MergeLocalVals(LoadAll(server, IdOf), local, j);
  }

  /**
   * With unique ids on each side, `mergeCarts` keeps every server line in
   * server order, with the larger of the two quantities where the local cart
   * has the same id and every other field from the server, followed by the
   * local-only lines in local order.
   */
  lemma MergedCartsReference(local: seq<CartItem>, server: seq<CartItem>)
    requires UniqueKeys(local, IdOf) && UniqueKeys(server, IdOf)
    ensures MergedCarts(local, server) == ReferenceMerge(local, server)
  {
    MergedKeys(local, server);
    var merged := MergedCarts(local, server);
    var ref := ReferenceMerge(local, server);
    forall i | 0 <= i < |merged| ensures merged[i] == ref[i] {
      MergedAt(local, server, i);
    }
  }

  /** One position of the merge against the reference. */
  lemma MergedAt(local: seq<CartItem>, server: seq<CartItem>, i: nat)
    requires UniqueKeys(local, IdOf) && UniqueKeys(server, IdOf)
    requires i < |server| + |Unmatched(local, server, IdOf)|
    ensures |MergedCarts(local, server)| == |server| + |Unmatched(local, server, IdOf)|
    ensures MergedCarts(local, server)[i] == ReferenceMerge(local, server)[i]
  {
    var mm := MergeLocal(LoadAll(server, IdOf), local);
    var only := Unmatched(local, server, IdOf);
    var ks, ko := KeysOf(server, IdOf), KeysOf(only, IdOf);
    assert mm.keys == ks + ko by {
      MergedKeys(local, server);
    }
    assert MergedCarts(local, server)[i] == mm.vals[mm.keys[i]];
    if i < |server| {
      assert mm.keys[i] == ks[i] == server[i].id;
      MergedServerLine(local, server, i);
    } else {
      assert mm.keys[i] == ko[i - |server|] == only[i - |server|].id;
      MergedLocalLine(local, server, only[i - |server|]);
    }
  }

  /** The request one local line causes, stated against the server list. */
  function ReferenceStep(user: Option<User>, token: Option<string>, server: seq<CartItem>, x: CartItem): seq<Request>
  {
    match FindFirst(server, IdOf, x.id)
    case Some(s) =>
      if s.quantity < x.quantity
      then SessionCall(user, token, Request(PUT, CartPath, token, QuantityAction(x.id, x.quantity, SetTo)))
      else []
    case None => AddCall(user, token, x)
  }

  /** The merge's requests stated against the server list, one step per local line in local order. */
  function ReferenceRequests(user: Option<User>, token: Option<string>, local: seq<CartItem>, server: seq<CartItem>): seq<Request>
    decreases |local|
  {
    if local == [] then []
    else ReferenceRequests(user, token, local[..|local| - 1], server) + ReferenceStep(user, token, server, local[|local| - 1])
  }

  /**
   * With unique ids on each side, the merge sends, per local line in order, a
   * "set" to the local quantity exactly when the server line has a smaller
   * quantity, and an "add" exactly when the id is not on the server; each
   * only when the session is complete.
   */
  lemma {:induction false} MergeRequestsReference(user: Option<User>, token: Option<string>, local: seq<CartItem>, server: seq<CartItem>)
    requires UniqueKeys(local, IdOf) && UniqueKeys(server, IdOf)
    ensures MergeRequests(user, token, LoadAll(server, IdOf), local) == ReferenceRequests(user, token, local, server)
    decreases |local|
  {
    if local != [] {
      var m := LoadAll(server, IdOf);
      var init := local[..|local| - 1];
      var x := local[|local| - 1];
      UniqueInit(local, IdOf);
      MergeRequestsReference(user, token, init, server);
      MergeLocalFrame(m, init);
      if HasKey(server, IdOf, x.id) {
        LoadAllVals(server, IdOf, IndexOf(server, IdOf, x.id));
      }
    }
  }

  /** Against an empty server list every local line is local-only: one "add" each. */
  lemma {:induction false} ReferenceRequestsNoServer(user: Option<User>, token: Option<string>, local: seq<CartItem>)
    ensures ReferenceRequests(user, token, local, []) == AddCalls(user, token, local)
    decreases |local|
  {
    if local != [] {
      ReferenceRequestsNoServer(user, token, local[..|local| - 1]);
    }
  }

  /** With unique local ids and nothing on the server, the merge sends one "add" per local line, in order. */
  lemma MergeRequestsNoServer(user: Option<User>, token: Option<string>, local: seq<CartItem>)
    requires UniqueKeys(local, IdOf)
    ensures MergeRequests(user, token, LoadAll([], IdOf), local) == AddCalls(user, token, local)
  {
    MergeRequestsReference(user, token, local, []);
    ReferenceRequestsNoServer(user, token, local);
  }

  /** Without a complete session the merge sends nothing. */
  lemma {:induction false} MergeRequestsNeedSession(user: Option<User>, token: Option<string>, m: OMap<CartItem>, xs: seq<CartItem>)
    requires Valid(m) && !IsAuthenticated(user, token)
    ensures MergeRequests(user, token, m, xs) == []
    decreases |xs|
  {
    if xs != [] {
      MergeRequestsNeedSession(user, token, m, xs[..|xs| - 1]);
    }
  }

  // ---------------------------------------------------------------------------
  // Storage
  // ---------------------------------------------------------------------------

  /** One more local line: the fold and its requests take one more step. */
  lemma MergeSnoc(user: Option<User>, token: Option<string>, start: OMap<CartItem>, xs: seq<CartItem>, x: CartItem)
    requires Valid(start)
    ensures MergeLocal(start, xs + [x]) == MergeStep(MergeLocal(start, xs), x)
    ensures MergeRequests(user, token, start, xs + [x])
      == MergeRequests(user, token, start, xs) + StepRequests(user, token, MergeLocal(start, xs), x)
  {
    assert (xs + [x])[..|xs|] == xs;
  }

  /** `parsedCart.every(item => item.userId === user?.id)`. */
  predicate SameUser(items: seq<CartItem>, user: Option<User>)
  {
    forall i :: 0 <= i < |items| ==> items[i].userId == UserIdOf(user)
  }

  /**
   * What `getCartFromLocal` yields for a stored value: None when the text does not
   * parse (the call throws), the stored lines when they all belong to the user,
   * and [] otherwise (a missing key reads as []).
   */
  function FromStorage(saved: Slot<CartItem>, user: Option<User>): (r: Option<seq<CartItem>>)
    ensures r.None? <==> saved.Corrupt?
    ensures r.Some? ==> SameUser(r.value, user)
    ensures r.Some? ==> r.value == [] || (saved.Stored? && r.value == saved.items)
    ensures saved.Stored? && saved.items != [] ==> (r == Some(saved.items) <==> SameUser(saved.items, user))
  {
    match saved
    case Corrupt => None
    case Absent => Some([])
    case Stored(items) => if SameUser(items, user) then Some(items) else Some([])
  }

  /**
   * The hook's state: the cart it shares with the page, the `cart` storage key
   * and the request log.
   */
  class CartHook {
    var cart: seq<CartItem>
    var storage: Slot<CartItem>
    var requests: seq<Request>

    constructor (initial: seq<CartItem>, saved: Slot<CartItem>)
      ensures cart == initial && storage == saved && requests == []
    {
      cart := initial;
      storage := saved;
      requests := [];
    }

    /** `addItemUser`: with a complete session, a POST adding one unit of the product. */
    method AddItemUser(user: Option<User>, token: Option<string>, productId: string)
      modifies this
      ensures requests == old(requests) + SessionCall(user, token, Request(POST, CartPath, token, ProductQuantity(productId, 1)))
      ensures cart == old(cart) && storage == old(storage)
    {
      if !IsAuthenticated(user, token) {
        return;
      }
      requests := requests + [Request(POST, CartPath, token, ProductQuantity(productId, 1))];
    }

    /** `updateItemUser`: with a complete session, a PUT carrying the quantity and the action. */
    method UpdateItemUser(user: Option<User>, token: Option<string>, productId: string, quantity: int, action: CartAction)
      modifies this
      ensures requests == old(requests) + SessionCall(user, token, Request(PUT, CartPath, token, QuantityAction(productId, quantity, action)))
      ensures cart == old(cart) && storage == old(storage)
    {
      if !IsAuthenticated(user, token) {
        return;
      }
      requests := requests + [Request(PUT, CartPath, token, QuantityAction(productId, quantity, action))];
    }

    /**
     * `addToCart`. In guest mode the stored list is the hook's `cart` as read
     * at the start: for an existing product that array shares its lines with
     * the updated copy, so the raised quantity is stored too; for a new
     * product the stored list lacks the new line.
     */
    method AddToCart(user: Option<User>, token: Option<string>, item: CartItem)
      modifies this
      ensures cart == Added(old(cart), item)
      ensures CartCount(cart) == CartCount(old(cart)) + 1
      ensures !IsAuthenticated(user, token) ==>
        requests == old(requests)
        && storage == Stored(if HasKey(old(cart), ProductIdOf, item.productId) then cart else old(cart))
      ensures IsAuthenticated(user, token) ==>
        storage == old(storage)
        && requests == old(requests) + [
             if HasKey(old(cart), ProductIdOf, item.productId)
             then Request(PUT, CartPath, token, QuantityAction(item.productId, 1, Increment))
             else Request(POST, CartPath, token, ProductQuantity(item.productId, 1))]
    {
      AddedCount(cart, item);
      var existing := IndexOf(cart, ProductIdOf, item.productId);
      assert HasKey(cart, ProductIdOf, item.productId) <==> existing != -1;
      if existing != -1 {
        var updatedCart := cart[existing := Bump(cart[existing])];
        assert updatedCart == Added(cart, item);
        cart := updatedCart;
        if !IsAuthenticated(user, token) {
          storage := Stored(updatedCart);
          return;
        }
        UpdateItemUser(user, token, item.productId, 1, Increment);
        return;
      }
      var before := cart;
      assert before + [item.(quantity := 1)] == Added(before, item);
      cart := cart + [item.(quantity := 1)];
      if !IsAuthenticated(user, token) {
        storage := Stored(before);
        return;
      }
      AddItemUser(user, token, item.productId);
    }

    /** `increaseItemQuantity`: a PUT "increment" by 1 with a session, the pre-call cart stored without. */
    method IncreaseItemQuantity(user: Option<User>, token: Option<string>, productId: string)
      modifies this
      ensures cart == Increased(old(cart), productId)
      ensures !IsAuthenticated(user, token) ==> requests == old(requests) && storage == Stored(old(cart))
      ensures IsAuthenticated(user, token) ==>
        storage == old(storage)
        && requests == old(requests) + [Request(PUT, CartPath, token, QuantityAction(productId, 1, Increment))]
    {
      var before := cart;
      cart := Increased(cart, productId);
      if !IsAuthenticated(user, token) {
        storage := Stored(before);
        return;
      }
      UpdateItemUser(user, token, productId, 1, Increment);
    }

    /** `removeFromCart`: a PUT "set" to 0 with a session, the pre-call cart stored without. */
    method RemoveFromCart(user: Option<User>, token: Option<string>, productId: string)
      modifies this
      ensures cart == RemovedProduct(old(cart), productId)
      ensures !HasKey(cart, ProductIdOf, productId)
      ensures !IsAuthenticated(user, token) ==> requests == old(requests) && storage == Stored(old(cart))
      ensures IsAuthenticated(user, token) ==>
        storage == old(storage)
        && requests == old(requests) + [Request(PUT, CartPath, token, QuantityAction(productId, 0, SetTo))]
    {
      var before := cart;
      cart := RemovedProduct(cart, productId);
      if !IsAuthenticated(user, token) {
        storage := Stored(before);
        return;
      }
      UpdateItemUser(user, token, productId, 0, SetTo);
    }

    /**
     * `decreaseItemQuantity`: a line at quantity 1 is filtered out, and with a
     * session `removeFromCart` runs as well (its second filter changes
     * nothing, and it sends the "set" to 0); any other case decrements.
     */
    method DecreaseItemQuantity(user: Option<User>, token: Option<string>, productId: string)
      modifies this
      ensures cart == Decreased(old(cart), productId)
      ensures !IsAuthenticated(user, token) ==> requests == old(requests) && storage == Stored(old(cart))
      ensures IsAuthenticated(user, token) ==>
        var item := FindFirst(old(cart), ProductIdOf, productId);
        storage == old(storage)
        && requests == old(requests) + [
             if item.Some? && item.value.quantity == 1
             then Request(PUT, CartPath, token, QuantityAction(productId, 0, SetTo))
             else Request(PUT, CartPath, token, QuantityAction(productId, 1, Decrement))]
    {
      var before := cart;
      var item := FindFirst(cart, ProductIdOf, productId);
      if item.Some? && item.value.quantity == 1 {
        cart := RemovedProduct(cart, productId);
        if !IsAuthenticated(user, token) {
          storage := Stored(before);
          return;
        }
        WithoutIdempotent(before, ProductIdOf, productId);
        RemoveFromCart(user, token, productId);
      } else {
        cart := Modify(cart, ProductIdOf, productId, Drop);
        if !IsAuthenticated(user, token) {
          storage := Stored(before);
          return;
        }
        UpdateItemUser(user, token, productId, 1, Decrement);
      }
    }

    /** `clearCartLocal`: the storage key is removed. */
    method ClearCartLocal()
      modifies this
      ensures storage == Absent && cart == old(cart) && requests == old(requests)
    {
      storage := Absent;
    }

    /** `clearCart`: the cart empties; a guest's storage key is removed, a session's cart is deleted on the server. */
    method ClearCart(user: Option<User>, token: Option<string>)
      modifies this
      ensures cart == [] && CartCount(cart) == 0
      ensures !IsAuthenticated(user, token) ==> storage == Absent && requests == old(requests)
      ensures IsAuthenticated(user, token) ==>
        storage == old(storage) && requests == old(requests) + [Request(DELETE, CartPath, token, NoBody)]
    {
      cart := [];
      if !IsAuthenticated(user, token) {
        ClearCartLocal();
        return;
      }
      requests := requests + [Request(DELETE, CartPath, token, NoBody)];
    }

    /**
     * `getCartFromLocal`: the stored list (a missing key reads as []) when
     * every line belongs to the current user, otherwise [] after removing the
     * key. Unparsable text makes the call throw, modelled as None.
     */
    method GetCartFromLocal(user: Option<User>) returns (r: Option<seq<CartItem>>)
      modifies this
      ensures cart == old(cart) && requests == old(requests)
      ensures r == FromStorage(old(storage), user)
      ensures storage == if old(storage).Stored? && !SameUser(old(storage).items, user) then Absent else old(storage)
    {
      var parsed: seq<CartItem>;
      match storage {
        case Corrupt => return None;
        case Absent => parsed := [];
        case Stored(items) => parsed := items;
      }
      var sameUser := SameUser(parsed, user);
      if !sameUser {
        ClearCartLocal();
      }
      r := if sameUser then Some(parsed) else Some([]);
    }

    /**
     * `fetchCartItems`: [] without a token; otherwise a GET of the cart with its
     * field selector, whose answer is returned, or [] when it threw.
     */
    method FetchCartItems(token: Option<string>, outcome: Option<seq<CartItem>>) returns (items: seq<CartItem>)
      modifies this
      ensures cart == old(cart) && storage == old(storage)
      ensures !Truthy(token) ==> items == [] && requests == old(requests)
      ensures Truthy(token) ==>
        items == (if outcome.Some? then outcome.value else [])
        && requests == old(requests) + [Request(GET, CartFieldsPath, token, NoBody)]
    {
      if !Truthy(token) {
        return [];
      }
      requests := requests + [Request(GET, CartFieldsPath, token, NoBody)];
      items := if outcome.Some? then outcome.value else [];
    }

    /** The body of the local `forEach` in `mergeCarts`: one local line folded into the map. */
    method MergeLine(user: Option<User>, token: Option<string>, m: OMap<CartItem>, x: CartItem) returns (next: OMap<CartItem>)
      requires Valid(m)
      modifies this
      ensures next == MergeStep(m, x)
      ensures requests == old(requests) + StepRequests(user, token, m, x)
      ensures cart == old(cart) && storage == old(storage)
    {
      if x.id in m.vals {
        var existing := m.vals[x.id];
        next := Put(m, x.id, Reconciled(existing, x));
        if existing.quantity < x.quantity {
          UpdateItemUser(user, token, x.id, x.quantity, SetTo);
        }
      } else {
        next := Put(m, x.id, x);
        AddItemUser(user, token, x.id);
      }
    }

    /** The local `forEach` of `mergeCarts`: every local line folded into the map, in order. */
    method MergeAll(user: Option<User>, token: Option<string>, start: OMap<CartItem>, localCart: seq<CartItem>)
      returns (m: OMap<CartItem>)
      requires Valid(start)
      modifies this
      ensures m == MergeLocal(start, localCart)
      ensures requests == old(requests) + MergeRequests(user, token, start, localCart)
      ensures cart == old(cart) && storage == old(storage)
    {
      m := start;
      var j := 0;
      ghost var done: seq<CartItem> := [];
      ghost var sent: seq<Request> := [];
      while j < |localCart|
        invariant 0 <= j <= |localCart| && done == localCart[..j]
        invariant m == MergeLocal(start, done)
        invariant sent == MergeRequests(user, token, start, done)
        invariant requests == old(requests) + sent
        invariant cart == old(cart) && storage == old(storage)
      {
        var x := localCart[j];
        ghost var step := StepRequests(user, token, m, x);
        MergeSnoc(user, token, start, done, x);
        m := MergeLine(user, token, m, x);
        AppendAssoc(old(requests), sent, step);
        TakeSnoc(localCart, j);
        done := done + [x];
        sent := sent + step;
        j := j + 1;
      }
      assert done == localCart;
    }

    /**
     * `mergeCarts`: the server lines loaded into a map by id, then each local
     * line folded in, with the "set"/"add" requests issued as it goes; the
     * map's values in insertion order are the result.
     */
    method MergeCarts(user: Option<User>, token: Option<string>, localCart: seq<CartItem>, serverCart: seq<CartItem>)
      returns (merged: seq<CartItem>)
      modifies this
      ensures merged == MergedCarts(localCart, serverCart)
      ensures requests == old(requests) + MergeRequests(user, token, LoadAll(serverCart, IdOf), localCart)
      ensures cart == old(cart) && storage == old(storage)
    {
      var m := Load(serverCart, IdOf);
      m := MergeAll(user, token, m, localCart);
      merged := Values(m);
    }
  }
}
