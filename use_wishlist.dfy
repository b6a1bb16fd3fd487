/**
 * The wishlist hook: the toggle keyed by `productId`, the backend add call,
 * clearing, the same-user filter on the stored wishlist, the server fetch and
 * the guest-to-login merge keyed by `id`, in which the server entry wins.
 */
module UseWishlist {
  import opened Util
  import opened Api
  import opened Keyed
  import opened OrderedMap
  import opened UserAtom
  import UseCart

  /** A wishlist entry with its owner and nested product. */
  datatype WishlistItem = WishlistItem(
    id: string,
    product: UseCart.Product,
    userId: Option<string>,
    productId: string,
    createdAt: Option<string>)

  /** What the hook reports after a toggle; it only chooses the message shown. */
  datatype WishlistAction = Add | Remove

  function IdOf(w: WishlistItem): string { w.id }
  function ProductIdOf(w: WishlistItem): string { w.productId }

  // ---------------------------------------------------------------------------
  // The toggle
  // ---------------------------------------------------------------------------

  /** The list `addToWishlist` builds: the first entry with the product spliced out, else the item appended. */
  function Toggled(wishlist: seq<WishlistItem>, item: WishlistItem): seq<WishlistItem>
  {
    var i := IndexOf(wishlist, ProductIdOf, item.productId);
    if i == -1 then wishlist + [item] else wishlist[..i] + wishlist[i + 1..]
  }

  /** The action the toggle reports. */
  function ToggleAction(wishlist: seq<WishlistItem>, item: WishlistItem): (a: WishlistAction)
    ensures a == Remove <==> HasKey(wishlist, ProductIdOf, item.productId)
  {
    if IndexOf(wishlist, ProductIdOf, item.productId) == -1 then Add else Remove
  }

  /**
   * A product already listed loses its first entry: every other entry stays,
   * in order, and the list is one shorter; with one entry per product this is
   * the entry's removal and the product is gone.
   */
  lemma ToggleRemoves(wishlist: seq<WishlistItem>, item: WishlistItem)
    requires HasKey(wishlist, ProductIdOf, item.productId)
    ensures var i := IndexOf(wishlist, ProductIdOf, item.productId);
      Toggled(wishlist, item) == wishlist[..i] + wishlist[i + 1..]
    ensures |Toggled(wishlist, item)| == |wishlist| - 1
    ensures UniqueKeys(wishlist, ProductIdOf) ==>
      Toggled(wishlist, item) == Without(wishlist, ProductIdOf, item.productId)
      && !HasKey(Toggled(wishlist, item), ProductIdOf, item.productId)
      && UniqueKeys(Toggled(wishlist, item), ProductIdOf)
  {
    var i := IndexOf(wishlist, ProductIdOf, item.productId);
    if UniqueKeys(wishlist, ProductIdOf) {
      WithoutDeletesOne(wishlist, ProductIdOf, i);
      WithoutUnique(wishlist, ProductIdOf, item.productId);
    }
  }

  /** A product not listed is appended as given, one entry longer, and listed once when it was unique before. */
  lemma ToggleAdds(wishlist: seq<WishlistItem>, item: WishlistItem)
    requires !HasKey(wishlist, ProductIdOf, item.productId)
    ensures Toggled(wishlist, item) == wishlist + [item]
    ensures HasKey(Toggled(wishlist, item), ProductIdOf, item.productId)
    ensures UniqueKeys(wishlist, ProductIdOf) ==> UniqueKeys(Toggled(wishlist, item), ProductIdOf)
  {
    assert ProductIdOf((wishlist + [item])[|wishlist|]) == item.productId;
    if UniqueKeys(wishlist, ProductIdOf) {
      AppendFresh(wishlist, ProductIdOf, item);
    }
  }

  /** With one entry per product, toggling flips whether the product is listed and keeps one entry per product. */
  lemma ToggleFlips(wishlist: seq<WishlistItem>, item: WishlistItem)
    requires UniqueKeys(wishlist, ProductIdOf)
    ensures HasKey(Toggled(wishlist, item), ProductIdOf, item.productId) <==> !HasKey(wishlist, ProductIdOf, item.productId)
    ensures UniqueKeys(Toggled(wishlist, item), ProductIdOf)
  {
    if HasKey(wishlist, ProductIdOf, item.productId) {
      ToggleRemoves(wishlist, item);
    } else {
      ToggleAdds(wishlist, item);
    }
  }

  /** Toggling a product that is not listed twice gives the list back. */
  lemma ToggleTwice(wishlist: seq<WishlistItem>, item: WishlistItem)
    requires !HasKey(wishlist, ProductIdOf, item.productId)
    ensures Toggled(Toggled(wishlist, item), item) == wishlist
  {
    ToggleAdds(wishlist, item);
    var added := wishlist + [item];
    assert IndexOf(added, ProductIdOf, item.productId) == |wishlist|;
    assert added[..|wishlist|] == wishlist;
  }

  // ---------------------------------------------------------------------------
  // Guest-to-login merge, keyed by `id`
  // ---------------------------------------------------------------------------

  /** One local entry folded into the merge map: only an id the map lacks is added. */
  function MergeStep(m: OMap<WishlistItem>, x: WishlistItem): (r: OMap<WishlistItem>)
    requires Valid(m)
    ensures Valid(r)
  {
    if x.id in m.vals then m else Put(m, x.id, x)
  }

  /** The local entries folded into the merge map in order. */
  function MergeLocal(m: OMap<WishlistItem>, xs: seq<WishlistItem>): (r: OMap<WishlistItem>)
    requires Valid(m)
    ensures Valid(r)
    decreases |xs|
  {
    if xs == [] then m else MergeStep(MergeLocal(m, xs[..|xs| - 1]), xs[|xs| - 1])
  }

  /** What `mergeWishlists(localWishlist, serverWishlist)` returns. */
  function MergedWishlists(local: seq<WishlistItem>, server: seq<WishlistItem>): seq<WishlistItem>
  {
    Values(MergeLocal(LoadAll(server, IdOf), local))
  }

  /** The request that adds one entry's id to the server wishlist, when the session is complete. */
  function AddCall(user: Option<User>, token: Option<string>, x: WishlistItem): seq<Request>
  {
    SessionCall(user, token, Request(POST, WishlistPath, token, ProductRef(x.id)))
  }

  /** The requests one local entry causes, given the map before it. */
  function StepRequests(user: Option<User>, token: Option<string>, m: OMap<WishlistItem>, x: WishlistItem): seq<Request>
  {
    if x.id in m.vals then [] else AddCall(user, token, x)
  }

  /** The requests the local entries cause, in order. */
  function MergeRequests(user: Option<User>, token: Option<string>, m: OMap<WishlistItem>, xs: seq<WishlistItem>): seq<Request>
    requires Valid(m)
    decreases |xs|
  {
    if xs == [] then []
    else
      var init := xs[..|xs| - 1];
      MergeRequests(user, token, m, init) + StepRequests(user, token, MergeLocal(m, init), xs[|xs| - 1])
  }

  /** One add call per entry, in order. */
  function AddCalls(user: Option<User>, token: Option<string>, xs: seq<WishlistItem>): (r: seq<Request>)
    ensures IsAuthenticated(user, token) ==> |r| == |xs|
    ensures !IsAuthenticated(user, token) ==> r == []
    decreases |xs|
  {
    if xs == [] then [] else AddCalls(user, token, xs[..|xs| - 1]) + AddCall(user, token, xs[|xs| - 1])
  }

  /**
   * The merge map holds the ids of the start map and of the local entries, and
   * an entry of the start map is never replaced.
   */
  lemma {:induction false} MergeLocalFrame(m: OMap<WishlistItem>, xs: seq<WishlistItem>)
    requires Valid(m)
    ensures forall k :: k in MergeLocal(m, xs).vals <==> k in m.vals || HasKey(xs, IdOf, k)
    ensures forall k :: k in m.vals ==> MergeLocal(m, xs).vals[k] == m.vals[k]
    decreases |xs|
  {
    if xs != [] {
      MergeLocalFrame(m, xs[..|xs| - 1]);
      forall k ensures HasKey(xs, IdOf, k) <==> HasKey(xs[..|xs| - 1], IdOf, k) || xs[|xs| - 1].id == k {
        HasKeySnoc(xs, IdOf, k);
      }
    }
  }

  /** Every merge-map entry is stored under its own id. */
  lemma {:induction false} MergeLocalKeyed(m: OMap<WishlistItem>, xs: seq<WishlistItem>)
    requires Valid(m) && KeyedBy(m, IdOf)
    ensures KeyedBy(MergeLocal(m, xs), IdOf)
    decreases |xs|
  {
    if xs != [] {
      MergeLocalKeyed(m, xs[..|xs| - 1]);
    }
  }

  /**
   * The merge has one entry per id, an id is in it iff it is on the server or
   * in the local wishlist, and each server entry is in it unchanged when the
   * server lists each id once.
   */
  lemma MergedWishlistsIds(local: seq<WishlistItem>, server: seq<WishlistItem>)
    ensures UniqueKeys(MergedWishlists(local, server), IdOf)
    ensures forall k :: HasKey(MergedWishlists(local, server), IdOf, k) <==> HasKey(server, IdOf, k) || HasKey(local, IdOf, k)
  {
    var m := LoadAll(server, IdOf);
    MergeLocalFrame(m, local);
    MergeLocalKeyed(m, local);
    ValuesKeys(MergeLocal(m, local), IdOf);
  }

  /**
   * With unique local ids, folding the local entries into the loaded server
   * map is loading the server entries followed by the local-only entries.
   */
  lemma {:induction false} MergeLocalLoads(server: seq<WishlistItem>, xs: seq<WishlistItem>)
    requires UniqueKeys(xs, IdOf)
    ensures MergeLocal(LoadAll(server, IdOf), xs) == LoadAll(server + Unmatched(xs, server, IdOf), IdOf)
    decreases |xs|
  {
    if xs != [] {
      var init, x := xs[..|xs| - 1], xs[|xs| - 1];
      var u := Unmatched(init, server, IdOf);
      var ys := server + u;
      assert MergeLocal(LoadAll(server, IdOf), xs) == MergeStep(LoadAll(ys, IdOf), x) by {
        UniqueInit(xs, IdOf);
        MergeLocalLoads(server, init);
      }
      assert x.id in LoadAll(ys, IdOf).vals <==> HasKey(server, IdOf, x.id) by {
        UniqueInit(xs, IdOf);
        HasKeyConcat(server, u, IdOf, x.id);
        UnmatchedHasKey(init, server, IdOf, x.id);
      }
      if HasKey(server, IdOf, x.id) {
        assert MergeStep(LoadAll(ys, IdOf), x) == LoadAll(ys, IdOf);
        assert server + Unmatched(xs, server, IdOf) == ys by {
          assert Unmatched(xs, server, IdOf) == u;
        }
      } else {
        assert MergeStep(LoadAll(ys, IdOf), x) == Put(LoadAll(ys, IdOf), x.id, x);
        assert server + Unmatched(xs, server, IdOf) == ys + [x] by {
          assert Unmatched(xs, server, IdOf) == u + [x];
          AppendAssoc(server, u, [x]);
        }
        LoadAllSnoc(ys, x, IdOf);
      }
    } else {
      assert server + Unmatched(xs, server, IdOf) == server;
    }
  }

  /**
   * With unique ids on each side, `mergeWishlists` returns the server entries
   * unchanged and in server order, followed by the local entries whose id is
   * not on the server, in local order: on a shared id the server entry wins.
   */
  lemma MergedWishlistsReference(local: seq<WishlistItem>, server: seq<WishlistItem>)
    requires UniqueKeys(local, IdOf) && UniqueKeys(server, IdOf)
    ensures MergedWishlists(local, server) == server + Unmatched(local, server, IdOf)
  {
    var only := Unmatched(local, server, IdOf);
    MergeLocalLoads(server, local);
    UnmatchedUnique(local, server, IdOf);
    UniqueConcat(server, only, IdOf);
    LoadAllValues(server + only, IdOf);
  }

  /**
   * With unique local ids, the merge sends one "add" per local entry whose id
   * is not on the server, in local order, and only when the session is complete.
   */
  lemma {:induction false} MergeRequestsReference(user: Option<User>, token: Option<string>, local: seq<WishlistItem>, server: seq<WishlistItem>)
    requires UniqueKeys(local, IdOf)
    ensures MergeRequests(user, token, LoadAll(server, IdOf), local) == AddCalls(user, token, Unmatched(local, server, IdOf))
    decreases |local|
  {
    if local != [] {
      var m := LoadAll(server, IdOf);
      var init := local[..|local| - 1];
      var x := local[|local| - 1];
      UniqueInit(local, IdOf);
      MergeRequestsReference(user, token, init, server);
      var before := MergeLocal(m, init);
      assert x.id in before.vals <==> HasKey(server, IdOf, x.id) by {
        MergeLocalFrame(m, init);
      }
      assert MergeRequests(user, token, m, local) == MergeRequests(user, token, m, init) + StepRequests(user, token, before, x);
      var only := Unmatched(init, server, IdOf);
      if HasKey(server, IdOf, x.id) {
        assert Unmatched(local, server, IdOf) == only;
      } else {
        assert Unmatched(local, server, IdOf) == only + [x];
        assert (only + [x])[..|only|] == only;
        assert AddCalls(user, token, only + [x]) == AddCalls(user, token, only) + AddCall(user, token, x);
      }
    }
  }

  /** One more local entry: the fold and its requests take one more step. */
  lemma MergeSnoc(user: Option<User>, token: Option<string>, start: OMap<WishlistItem>, xs: seq<WishlistItem>, x: WishlistItem)
    requires Valid(start)
    ensures MergeLocal(start, xs + [x]) == MergeStep(MergeLocal(start, xs), x)
    ensures MergeRequests(user, token, start, xs + [x])
      == MergeRequests(user, token, start, xs) + StepRequests(user, token, MergeLocal(start, xs), x)
  {
    assert (xs + [x])[..|xs|] == xs;
  }

  // ---------------------------------------------------------------------------
  // Storage
  // ---------------------------------------------------------------------------

  /** `parsedWishlist.every(item => item.userId === user?.id)`. */
  predicate SameUser(items: seq<WishlistItem>, user: Option<User>)
  {
    forall i :: 0 <= i < |items| ==> items[i].userId == UserIdOf(user)
  }

  /**
   * What `getWishlistFromLocal` yields for a stored value: None when the text does not
   * parse (the call throws), the stored entries when they all belong to the user,
   * and [] otherwise (a missing key reads as []).
   */
  function FromStorage(saved: Slot<WishlistItem>, user: Option<User>): (r: Option<seq<WishlistItem>>)
    ensures r.None? <==> saved.Corrupt?
    ensures r.Some? ==> SameUser(r.value, user)
    ensures r.Some? ==> r.value == [] || (saved.Stored? && r.value == saved.items)
    ensures saved.Stored? && saved.items != [] ==> (r == Some(saved.items) <==> SameUser(saved.items, user))
  {
    match saved
    case Corrupt => None
    case Absent => Some([])
    case Stored(items) => if SameUser(items, user) then Some(items) else Some([])
  }

  /** The hook's state: the wishlist it shares with the page, the `wishlist` storage key and the request log. */
  class WishlistHook {
    var wishlist: seq<WishlistItem>
    var storage: Slot<WishlistItem>
    var requests: seq<Request>

    constructor (initial: seq<WishlistItem>, saved: Slot<WishlistItem>)
      ensures wishlist == initial && storage == saved && requests == []
    {
      wishlist := initial;
      storage := saved;
      requests := [];
    }

    /** `wishlistCount`. */
    function Count(): nat
      reads this
    {
      |wishlist|
    }

    /**
     * `addWishlistItemUser`: with a complete session, a POST of the product id,
     * whether the action is an add or a remove; the action only picks the message.
     */
    method AddWishlistItemUser(user: Option<User>, token: Option<string>, productId: string, action: WishlistAction)
      modifies this
      ensures requests == old(requests) + SessionCall(user, token, Request(POST, WishlistPath, token, ProductRef(productId)))
      ensures wishlist == old(wishlist) && storage == old(storage)
    {
      if !IsAuthenticated(user, token) {
        return;
      }
      requests := requests + [Request(POST, WishlistPath, token, ProductRef(productId))];
    }

    /**
     * `addToWishlist`, a toggle: the first entry with the product is spliced
     * out of a copy, or the item is appended. A guest's updated list is stored
     * and nothing is sent; with a session the POST goes out for either action.
     */
    method AddToWishlist(user: Option<User>, token: Option<string>, item: WishlistItem)
      modifies this
      ensures wishlist == Toggled(old(wishlist), item)
      ensures !IsAuthenticated(user, token) ==> storage == Stored(wishlist) && requests == old(requests)
      ensures IsAuthenticated(user, token) ==>
        storage == old(storage)
        && requests == old(requests) + [Request(POST, WishlistPath, token, ProductRef(item.productId))]
    {
      var existingIndex := IndexOf(wishlist, ProductIdOf, item.productId);
      var updated: seq<WishlistItem>;
      var action: WishlistAction;
      if existingIndex != -1 {
        updated := wishlist[..existingIndex] + wishlist[existingIndex + 1..];
        action := Remove;
      } else {
        updated := wishlist + [item];
        action := Add;
      }
      wishlist := updated;
      if !IsAuthenticated(user, token) {
        storage := Stored(updated);
        return;
      }
      AddWishlistItemUser(user, token, item.productId, action);
    }

    /** `clearWishlistLocal`: the storage key is removed. */
    method ClearWishlistLocal()
      modifies this
      ensures storage == Absent && wishlist == old(wishlist) && requests == old(requests)
    {
      storage := Absent;
    }

    /** `clearWishlist`: the list empties first; a guest's storage key is removed, a session's wishlist deleted on the server. */
    method ClearWishlist(user: Option<User>, token: Option<string>)
      modifies this
      ensures wishlist == [] && Count() == 0
      ensures !IsAuthenticated(user, token) ==> storage == Absent && requests == old(requests)
      ensures IsAuthenticated(user, token) ==>
        storage == old(storage) && requests == old(requests) + [Request(DELETE, WishlistPath, token, NoBody)]
    {
      wishlist := [];
      if !IsAuthenticated(user, token) {
        ClearWishlistLocal();
        return;
      }
      requests := requests + [Request(DELETE, WishlistPath, token, NoBody)];
    }

    /**
     * `getWishlistFromLocal`: the stored list (a missing key reads as []) when
     * every entry belongs to the current user, otherwise [] after removing the
     * key. Unparsable text makes the call throw, modelled as None.
     */
    method GetWishlistFromLocal(user: Option<User>) returns (r: Option<seq<WishlistItem>>)
      modifies this
      ensures wishlist == old(wishlist) && requests == old(requests)
      ensures r == FromStorage(old(storage), user)
      ensures storage == if old(storage).Stored? && !SameUser(old(storage).items, user) then Absent else old(storage)
    {
      var parsed: seq<WishlistItem>;
      match storage {
        case Corrupt => return None;
        case Absent => parsed := [];
        case Stored(items) => parsed := items;
      }
      var sameUser := SameUser(parsed, user);
      if !sameUser {
        ClearWishlistLocal();
      }
      r := if sameUser then Some(parsed) else Some([]);
    }

    /**
     * `fetchWishlistItems`: [] without a token; otherwise a GET of the wishlist
     * with its field selector, whose answer is returned, or [] when it threw.
     */
    method FetchWishlistItems(token: Option<string>, outcome: Option<seq<WishlistItem>>) returns (items: seq<WishlistItem>)
      modifies this
      ensures wishlist == old(wishlist) && storage == old(storage)
      ensures !Truthy(token) ==> items == [] && requests == old(requests)
      ensures Truthy(token) ==>
        items == (if outcome.Some? then outcome.value else [])
        && requests == old(requests) + [Request(GET, WishlistFieldsPath, token, NoBody)]
    {
      if !Truthy(token) {
        return [];
      }
      requests := requests + [Request(GET, WishlistFieldsPath, token, NoBody)];
      items := if outcome.Some? then outcome.value else [];
    }

    /** The body of the local `forEach` in `mergeWishlists`: an id the map lacks is added and sent. */
    method MergeEntry(user: Option<User>, token: Option<string>, m: OMap<WishlistItem>, x: WishlistItem) returns (next: OMap<WishlistItem>)
      requires Valid(m)
      modifies this
      ensures next == MergeStep(m, x)
      ensures requests == old(requests) + StepRequests(user, token, m, x)
      ensures wishlist == old(wishlist) && storage == old(storage)
    {
      next := m;
      if x.id !in m.vals {
        next := Put(m, x.id, x);
        AddWishlistItemUser(user, token, x.id, Add);
      }
    }

    /** The local `forEach` of `mergeWishlists`: every local entry folded into the map, in order. */
    method MergeAll(user: Option<User>, token: Option<string>, start: OMap<WishlistItem>, localWishlist: seq<WishlistItem>)
      returns (m: OMap<WishlistItem>)
      requires Valid(start)
      modifies this
      ensures m == MergeLocal(start, localWishlist)
      ensures requests == old(requests) + MergeRequests(user, token, start, localWishlist)
      ensures wishlist == old(wishlist) && storage == old(storage)
    {
      m := start;
      var j := 0;
      ghost var done: seq<WishlistItem> := [];
      ghost var sent: seq<Request> := [];
      while j < |localWishlist|
        invariant 0 <= j <= |localWishlist| && done == localWishlist[..j]
        invariant m == MergeLocal(start, done)
        invariant sent == MergeRequests(user, token, start, done)
        invariant requests == old(requests) + sent
        invariant wishlist == old(wishlist) && storage == old(storage)
      {
        var x := localWishlist[j];
        ghost var step := StepRequests(user, token, m, x);
        MergeSnoc(user, token, start, done, x);
        m := MergeEntry(user, token, m, x);
        AppendAssoc(old(requests), sent, step);
        TakeSnoc(localWishlist, j);
        done := done + [x];
        sent := sent + step;
        j := j + 1;
      }
      assert done == localWishlist;
    }

    /**
     * `mergeWishlists`: the server entries loaded into a map by id, then each
     * local entry whose id is missing added, with an "add" request each; the
     * map's values in insertion order are the result.
     */
    method MergeWishlists(user: Option<User>, token: Option<string>, localWishlist: seq<WishlistItem>, serverWishlist: seq<WishlistItem>)
      returns (merged: seq<WishlistItem>)
      modifies this
      ensures merged == MergedWishlists(localWishlist, serverWishlist)
      ensures requests == old(requests) + MergeRequests(user, token, LoadAll(serverWishlist, IdOf), localWishlist)
      ensures wishlist == old(wishlist) && storage == old(storage)
    {
      var m := Load(serverWishlist, IdOf);
      m := MergeAll(user, token, m, localWishlist);
      merged := Values(m);
    }
  }
}
