/**
 * The hydrator that runs after every change of user or token: it verifies a
 * token that has no user yet, and it reconciles the cart and the wishlist kept
 * in storage by a guest with the ones the server holds for the session.
 */
module Hydrator {
  import opened Util
  import opened Api
  import opened Keyed
  import opened OrderedMap
  import opened UserAtom
  import UseCart
  import UseWishlist
  import opened AuthHook

  // ---------------------------------------------------------------------------
  // Verification
  // ---------------------------------------------------------------------------

  /** The verify effect's guard: a token is present and no user is known. */
  predicate ShouldVerify(token: Option<string>, user: Option<User>)
  {
    Truthy(token) && user.None?
  }

  /**
   * The verify effect: only with a token and no user is `/api/verify-me`
   * called; the user it returns is logged in with the same token, and a
   * failure changes nothing. `outcome` is the returned user, or None when
   * the call threw.
   */
  method VerifyEffect(s: Session, outcome: Option<User>)
    modifies s
    ensures !ShouldVerify(old(s.token), old(s.user)) ==>
      s.user == old(s.user) && s.token == old(s.token) && s.requests == old(s.requests)
    ensures ShouldVerify(old(s.token), old(s.user)) ==>
      s.requests == old(s.requests) + [Request(GET, VerifyMePath, old(s.token), NoBody)]
      && s.token == old(s.token) && s.user == outcome
    ensures outcome.Some? ==> !ShouldVerify(s.token, s.user)
  {
    if !Truthy(s.token) || s.user.Some? {
      return;
    }
    s.requests := s.requests + [Request(GET, VerifyMePath, s.token, NoBody)];
    if outcome.Some? {
      s.Login(outcome, s.token.value);
    }
  }

  // ---------------------------------------------------------------------------
  // Cart synchronisation
  // ---------------------------------------------------------------------------

  /** The cart `syncCart` settles on, from the local and the server lists. */
  function FinalCart(local: seq<UseCart.CartItem>, server: seq<UseCart.CartItem>): seq<UseCart.CartItem>
  {
    if |server| == 0 && |local| > 0 then local
    else if |server| > 0 && |local| == 0 then server
    else if |server| > 0 && |local| > 0 then UseCart.MergedCarts(local, server)
    else []
  }

  /** The requests `syncCart` makes after the fetch: an "add" per local line, or the merge's. */
  function CartSyncRequests(user: Option<User>, token: Option<string>, local: seq<UseCart.CartItem>, server: seq<UseCart.CartItem>): seq<Request>
  {
    if |server| == 0 && |local| > 0 then UseCart.AddCalls(user, token, local)
    else if |server| > 0 && |local| > 0 then UseCart.MergeRequests(user, token, LoadAll(server, UseCart.IdOf), local)
    else []
  }

  /** In every case the final cart holds exactly the ids found on either side. */
  lemma FinalCartIds(local: seq<UseCart.CartItem>, server: seq<UseCart.CartItem>)
    ensures forall k :: (HasKey(FinalCart(local, server), UseCart.IdOf, k)
      <==> HasKey(server, UseCart.IdOf, k) || HasKey(local, UseCart.IdOf, k))
  {
    if |server| > 0 && |local| > 0 {
      UseCart.MergedCartsIds(local, server);
    }
  }

  /**
   * With unique ids on each side, the four-way split changes nothing: each
   * case gives what merging would give, lines and requests alike.
   */
  lemma FinalCartIsMerge(user: Option<User>, token: Option<string>, local: seq<UseCart.CartItem>, server: seq<UseCart.CartItem>)
    requires UniqueKeys(local, UseCart.IdOf) && UniqueKeys(server, UseCart.IdOf)
    ensures FinalCart(local, server) == UseCart.MergedCarts(local, server)
    ensures CartSyncRequests(user, token, local, server) == UseCart.MergeRequests(user, token, LoadAll(server, UseCart.IdOf), local)
  {
    UseCart.MergedCartsReference(local, server);
    if server == [] {
      UnmatchedNone(local, UseCart.IdOf);
      if local != [] {
        UseCart.MergeRequestsNoServer(user, token, local);
      }
    } else if local == [] {
      var ref := UseCart.ReferenceMerge(local, server);
      assert Unmatched(local, server, UseCart.IdOf) == [];
      forall i | 0 <= i < |server| ensures ref[i] == server[i] {
        assert UseCart.Reconcile(server[i], local) == server[i];
      }
    }
  }

  /** The `forEach` that sends an "add" for every local line when the server cart is empty. */
  method AddEachLine(h: UseCart.CartHook, user: Option<User>, token: Option<string>, items: seq<UseCart.CartItem>)
    modifies h
    ensures h.requests == old(h.requests) + UseCart.AddCalls(user, token, items)
    ensures h.cart == old(h.cart) && h.storage == old(h.storage)
  {
    var j := 0;
    ghost var sent: seq<Request> := [];
    while j < |items|
      invariant 0 <= j <= |items|
      invariant sent == UseCart.AddCalls(user, token, items[..j])
      invariant h.requests == old(h.requests) + sent
      invariant h.cart == old(h.cart) && h.storage == old(h.storage)
    {
      ghost var step := UseCart.AddCall(user, token, items[j]);
      h.AddItemUser(user, token, items[j].id);
      AppendAssoc(old(h.requests), sent, step);
      TakeSnoc(items, j);
      assert items[..j + 1][..j] == items[..j];
      sent := sent + step;
      j := j + 1;
    }
    assert items[..j] == items;
  }

  /**
   * `syncCart`. Without a token the cart becomes the stored one and storage is
   * cleared only when it belonged to someone else. With a token the server
   * cart is fetched, the stored one read, the final cart chosen by the
   * four-way split and the storage key removed. An unparsable stored value
   * makes the effect throw before the cart is set.
   */
  method SyncCart(h: UseCart.CartHook, user: Option<User>, token: Option<string>, outcome: Option<seq<UseCart.CartItem>>)
    modifies h
    ensures var local := UseCart.FromStorage(old(h.storage), user);
      !Truthy(token) ==>
        && h.requests == old(h.requests)
        && h.cart == (if local.Some? then local.value else old(h.cart))
        && h.storage == if old(h.storage).Stored? && !UseCart.SameUser(old(h.storage).items, user) then Absent else old(h.storage)
    ensures var local := UseCart.FromStorage(old(h.storage), user);
      var server := if outcome.Some? then outcome.value else [];
      var fetch := Request(GET, CartFieldsPath, token, NoBody);
      Truthy(token) ==>
        && (local.None? ==> h.cart == old(h.cart) && h.storage == old(h.storage) && h.requests == old(h.requests) + [fetch])
        && (local.Some? ==>
              h.cart == FinalCart(local.value, server) && h.storage == Absent
              && h.requests == old(h.requests) + [fetch] + CartSyncRequests(user, token, local.value, server))
  {
    if !Truthy(token) {
      var local := h.GetCartFromLocal(user);
      if local.None? {
        return;
      }
      h.cart := local.value;
      return;
    }
    var server := h.FetchCartItems(token, outcome);
    var local := h.GetCartFromLocal(user);
    if local.None? {
      return;
    }
    var localCart := local.value;
    var finalCart: seq<UseCart.CartItem> := [];
    if |server| == 0 && |localCart| > 0 {
      finalCart := localCart;
      AddEachLine(h, user, token, localCart);
    } else if |server| > 0 && |localCart| == 0 {
      finalCart := server;
    } else if |server| > 0 && |localCart| > 0 {
      finalCart := h.MergeCarts(user, token, localCart, server);
    }
    h.cart := finalCart;
    h.ClearCartLocal();
  }

  // ---------------------------------------------------------------------------
  // Wishlist synchronisation
  // ---------------------------------------------------------------------------

  /** The wishlist `syncWishlist` settles on, from the local and the server lists. */
  function FinalWishlist(local: seq<UseWishlist.WishlistItem>, server: seq<UseWishlist.WishlistItem>): seq<UseWishlist.WishlistItem>
  {
    if |server| == 0 && |local| > 0 then local
    else if |server| > 0 && |local| == 0 then server
    else if |server| > 0 && |local| > 0 then UseWishlist.MergedWishlists(local, server)
    else []
  }

  /** The requests `syncWishlist` makes after the fetch: an "add" per local entry, or the merge's. */
  function WishlistSyncRequests(user: Option<User>, token: Option<string>, local: seq<UseWishlist.WishlistItem>, server: seq<UseWishlist.WishlistItem>): seq<Request>
  {
    if |server| == 0 && |local| > 0 then UseWishlist.AddCalls(user, token, local)
    else if |server| > 0 && |local| > 0 then UseWishlist.MergeRequests(user, token, LoadAll(server, UseWishlist.IdOf), local)
    else []
  }

  /** In every case the final wishlist holds exactly the ids found on either side. */
  lemma FinalWishlistIds(local: seq<UseWishlist.WishlistItem>, server: seq<UseWishlist.WishlistItem>)
    ensures forall k :: (HasKey(FinalWishlist(local, server), UseWishlist.IdOf, k)
      <==> HasKey(server, UseWishlist.IdOf, k) || HasKey(local, UseWishlist.IdOf, k))
  {
    if |server| > 0 && |local| > 0 {
      UseWishlist.MergedWishlistsIds(local, server);
    }
  }

  /**
   * With unique ids on each side, every case of the split gives the server
   * entries followed by the local-only entries, and one "add" per local-only
   * entry.
   */
  lemma FinalWishlistIsMerge(user: Option<User>, token: Option<string>, local: seq<UseWishlist.WishlistItem>, server: seq<UseWishlist.WishlistItem>)
    requires UniqueKeys(local, UseWishlist.IdOf) && UniqueKeys(server, UseWishlist.IdOf)
    ensures FinalWishlist(local, server) == server + Unmatched(local, server, UseWishlist.IdOf)
    ensures WishlistSyncRequests(user, token, local, server) == UseWishlist.AddCalls(user, token, Unmatched(local, server, UseWishlist.IdOf))
  {
    if server == [] {
      UnmatchedNone(local, UseWishlist.IdOf);
    } else if local == [] {
      assert Unmatched(local, server, UseWishlist.IdOf) == [];
    } else {
      UseWishlist.MergedWishlistsReference(local, server);
      UseWishlist.MergeRequestsReference(user, token, local, server);
    }
  }

  /** The `forEach` that sends an "add" for every local entry when the server wishlist is empty. */
  method AddEachEntry(h: UseWishlist.WishlistHook, user: Option<User>, token: Option<string>, items: seq<UseWishlist.WishlistItem>)
    modifies h
    ensures h.requests == old(h.requests) + UseWishlist.AddCalls(user, token, items)
    ensures h.wishlist == old(h.wishlist) && h.storage == old(h.storage)
  {
    var j := 0;
    ghost var sent: seq<Request> := [];
    while j < |items|
      invariant 0 <= j <= |items|
      invariant sent == UseWishlist.AddCalls(user, token, items[..j])
      invariant h.requests == old(h.requests) + sent
      invariant h.wishlist == old(h.wishlist) && h.storage == old(h.storage)
    {
      ghost var step := UseWishlist.AddCall(user, token, items[j]);
      h.AddWishlistItemUser(user, token, items[j].id, UseWishlist.Add);
      AppendAssoc(old(h.requests), sent, step);
      TakeSnoc(items, j);
      assert items[..j + 1][..j] == items[..j];
      sent := sent + step;
      j := j + 1;
    }
    assert items[..j] == items;
  }

  /** `syncWishlist`: the same rule as `syncCart`, over the wishlist. */
  method SyncWishlist(h: UseWishlist.WishlistHook, user: Option<User>, token: Option<string>, outcome: Option<seq<UseWishlist.WishlistItem>>)
    modifies h
    ensures var local := UseWishlist.FromStorage(old(h.storage), user);
      !Truthy(token) ==>
        && h.requests == old(h.requests)
        && h.wishlist == (if local.Some? then local.value else old(h.wishlist))
        && h.storage == if old(h.storage).Stored? && !UseWishlist.SameUser(old(h.storage).items, user) then Absent else old(h.storage)
    ensures var local := UseWishlist.FromStorage(old(h.storage), user);
      var server := if outcome.Some? then outcome.value else [];
      var fetch := Request(GET, WishlistFieldsPath, token, NoBody);
      Truthy(token) ==>
        && (local.None? ==> h.wishlist == old(h.wishlist) && h.storage == old(h.storage) && h.requests == old(h.requests) + [fetch])
        && (local.Some? ==>
              h.wishlist == FinalWishlist(local.value, server) && h.storage == Absent
              && h.requests == old(h.requests) + [fetch] + WishlistSyncRequests(user, token, local.value, server))
  {
    if !Truthy(token) {
      var local := h.GetWishlistFromLocal(user);
      if local.None? {
        return;
      }
      h.wishlist := local.value;
      return;
    }
    var server := h.FetchWishlistItems(token, outcome);
    var local := h.GetWishlistFromLocal(user);
    if local.None? {
      return;
    }
    var localWishlist := local.value;
    var finalWishlist: seq<UseWishlist.WishlistItem> := [];
    if |server| == 0 && |localWishlist| > 0 {
      finalWishlist := localWishlist;
      AddEachEntry(h, user, token, localWishlist);
    } else if |server| > 0 && |localWishlist| == 0 {
      finalWishlist := server;
    } else if |server| > 0 && |localWishlist| > 0 {
      finalWishlist := h.MergeWishlists(user, token, localWishlist, server);
    }
    h.wishlist := finalWishlist;
    h.ClearWishlistLocal();
  }
}
