/**
 * The wishlist atom: the in-memory list of saved products keyed by product
 * `id`, mirrored to the `wishlist` key of local storage. Adds are reverted
 * when the backend call throws; removes are not.
 */
module WishlistAtom {
  import opened Util
  import opened Api
  import opened Keyed
  import opened UserAtom

  /** A wishlist entry as the wishlist atom stores it. */
  datatype WishlistItem = WishlistItem(
    id: string,
    name: string,
    nameAr: Option<string>,
    price: real,
    image: Option<string>,
    offer: Option<real>,
    wishlistItemId: Option<string>,
    createdAt: Option<string>)

  datatype BackendProduct = BackendProduct(
    id: string, title: string, titleAr: Option<string>, price: real,
    imageUrl: Option<string>, stock: int, isActive: bool)

  /** A wishlist entry as `GET /api/users/wishlist` returns it. */
  datatype BackendWishlistItem = BackendWishlistItem(id: string, createdAt: string, product: BackendProduct)

  /** The product an add or toggle action receives. */
  datatype ProductInput = ProductInput(
    id: string, name: string, nameAr: Option<string>, price: real,
    image: Option<string>, offer: Option<real>)

  /** The body of a successful `GET /api/users/wishlist`. */
  datatype WishlistResponse = WishlistResponse(success: bool, wishlist: seq<BackendWishlistItem>)

  /** What the `POST /api/users/wishlist` of an add came back with. */
  datatype AddOutcome =
    | AddThrew
    | AddAnswered(success: bool, wishlistItemId: string)

  function ItemId(w: WishlistItem): string { w.id }

  predicate UniqueIds(items: seq<WishlistItem>)
  {
    UniqueKeys(items, ItemId)
  }

  /** `convertBackendWishlistItem`: a backend entry becomes an entry keyed by its product. */
  function ConvertBackendWishlistItem(b: BackendWishlistItem): (w: WishlistItem)
    ensures w.id == b.product.id && w.wishlistItemId == Some(b.id) && w.createdAt == Some(b.createdAt)
    ensures w.name == b.product.title && w.price == b.product.price && w.offer == None
  {
    WishlistItem(b.product.id, b.product.title, b.product.titleAr, b.product.price,
                 b.product.imageUrl, None, Some(b.id), Some(b.createdAt))
  }

  /** `response.wishlist.map(convertBackendWishlistItem)`. */
  function ConvertAll(bs: seq<BackendWishlistItem>): (items: seq<WishlistItem>)
    ensures |items| == |bs|
    ensures forall i :: 0 <= i < |bs| ==> items[i] == ConvertBackendWishlistItem(bs[i])
  {
    seq(|bs|, i requires 0 <= i < |bs| => ConvertBackendWishlistItem(bs[i]))
  }

  /** `isInWishlistAtom`: a search for the first entry with that id. */
  function IsInWishlist(items: seq<WishlistItem>, productId: string): (b: bool)
    ensures b <==> exists i :: 0 <= i < |items| && items[i].id == productId
  {
    IndexOf(items, ItemId, productId) != -1
  }

  /** `wishlistCountAtom`. */
  function WishlistCount(items: seq<WishlistItem>): nat
  {
    |items|
  }

  /** The entry an add creates: the product's fields, no backend id, stamped with `now`. */
  function NewEntry(p: ProductInput, now: string): (w: WishlistItem)
    ensures w.id == p.id && w.wishlistItemId == None && w.createdAt == Some(now)
  {
    WishlistItem(p.id, p.name, p.nameAr, p.price, p.image, p.offer, None, Some(now))
  }

  /** The list right after the local step of an add: unchanged if present, else one entry appended. */
  function Added(items: seq<WishlistItem>, p: ProductInput, now: string): seq<WishlistItem>
  {
    if IsInWishlist(items, p.id) then items else items + [NewEntry(p, now)]
  }

  /** Adding an id that is present changes nothing; a new id appends one entry, raises the count by one and keeps ids unique. */
  lemma AddCases(items: seq<WishlistItem>, p: ProductInput, now: string)
    ensures IsInWishlist(items, p.id) ==> Added(items, p, now) == items
    ensures !IsInWishlist(items, p.id) ==>
      && Added(items, p, now) == items + [NewEntry(p, now)]
      && WishlistCount(Added(items, p, now)) == WishlistCount(items) + 1
    ensures UniqueIds(items) ==> UniqueIds(Added(items, p, now))
    ensures IsInWishlist(Added(items, p, now), p.id)
  {
    var r := Added(items, p, now);
    if !IsInWishlist(items, p.id) {
      if UniqueIds(items) {
        AppendFresh(items, ItemId, NewEntry(p, now));
      }
      assert r[|items|].id == p.id;
    }
  }

  /** Records the backend id on the entries carrying `productId`. */
  function Attach(items: seq<WishlistItem>, productId: string, wishlistItemId: string): seq<WishlistItem>
  {
    Modify(items, ItemId, productId, (w: WishlistItem) => w.(wishlistItemId := Some(wishlistItemId)))
  }

  /** Only the entry with the product's id gains the backend id; all entries keep their place and id. */
  lemma AttachOnlyMatching(items: seq<WishlistItem>, productId: string, wishlistItemId: string)
    ensures |Attach(items, productId, wishlistItemId)| == |items|
    ensures forall i :: 0 <= i < |items| ==>
      Attach(items, productId, wishlistItemId)[i] ==
        if items[i].id == productId then items[i].(wishlistItemId := Some(wishlistItemId)) else items[i]
    ensures forall k :: IsInWishlist(Attach(items, productId, wishlistItemId), k) <==> IsInWishlist(items, k)
    ensures UniqueIds(items) ==> UniqueIds(Attach(items, productId, wishlistItemId))
  {
    var f := (w: WishlistItem) => w.(wishlistItemId := Some(wishlistItemId));
    ModifyKeepsKeys(items, ItemId, productId, f);
  }

  /**
   * The list `addToWishlistAtom` leaves for an absent product: the optimistic
   * append, with the backend id attached on a successful answer, or the old
   * list back when the call throws.
   */
  function AfterAdd(items: seq<WishlistItem>, authenticated: bool, p: ProductInput, now: string, outcome: AddOutcome): seq<WishlistItem>
  {
    if !authenticated then Added(items, p, now)
    else match outcome
      case AddThrew => items
      case AddAnswered(success, wid) =>
        if success then Attach(Added(items, p, now), p.id, wid)
        else Added(items, p, now)
  }

  /** The list after `removeFromWishlistAtom`. */
  function Removed(items: seq<WishlistItem>, productId: string): seq<WishlistItem>
  {
    Without(items, ItemId, productId)
  }

  /** Removing a present id deletes that entry, keeps the others in order and lowers the count by one. */
  lemma RemoveDeletesEntry(items: seq<WishlistItem>, i: nat)
    requires UniqueIds(items) && i < |items|
    ensures Removed(items, items[i].id) == items[..i] + items[i + 1..]
    ensures WishlistCount(Removed(items, items[i].id)) == WishlistCount(items) - 1
    ensures !IsInWishlist(Removed(items, items[i].id), items[i].id)
  {
    WithoutDeletesOne(items, ItemId, i);
  }

  /** Removing an absent id changes nothing. */
  lemma RemoveAbsent(items: seq<WishlistItem>, productId: string)
    requires !IsInWishlist(items, productId)
    ensures Removed(items, productId) == items
  {
    WithoutAbsent(items, ItemId, productId);
  }

  class WishlistStore {
    var items: seq<WishlistItem>
    var storage: Slot<WishlistItem>
    var requests: seq<Request>

    /** The atom's initial value, read from storage. */
    constructor (saved: Slot<WishlistItem>, hydrated: bool)
      ensures items == LoadFromStorage(saved, hydrated)
      ensures storage == saved && requests == []
    {
      items := LoadFromStorage(saved, hydrated);
      storage := saved;
      requests := [];
    }

    /**
     * `syncWishlistFromBackendAtom`: without a user and a token nothing
     * happens; only a successful answer replaces the list and the stored copy.
     * `response` is None when the call failed.
     */
    method SyncFromBackend(user: Option<User>, token: Option<string>, response: Option<WishlistResponse>)
      modifies this
      ensures requests == old(requests) + SessionCall(user, token, Request(GET, WishlistPath, token, NoBody))
      ensures IsAuthenticated(user, token) && response.Some? && response.value.success ==>
        items == ConvertAll(response.value.wishlist) && storage == Stored(items)
      ensures !(IsAuthenticated(user, token) && response.Some? && response.value.success) ==>
        items == old(items) && storage == old(storage)
    {
      if !IsAuthenticated(user, token) {
        return;
      }
      requests := requests + [Request(GET, WishlistPath, token, NoBody)];
      if response.Some? && response.value.success {
        items := ConvertAll(response.value.wishlist);
        storage := Stored(items);
      }
    }

    /**
     * `addToWishlistAtom`: a present id is left alone; otherwise the entry is
     * appended and stored, and with a session the backend is told. A successful
     * answer records the backend id on the new entry; a thrown call puts the
     * old list back (and stores it).
     */
    method AddToWishlist(user: Option<User>, token: Option<string>, product: ProductInput, now: string, outcome: AddOutcome)
      modifies this
      ensures IsInWishlist(old(items), product.id) ==>
        items == old(items) && storage == old(storage) && requests == old(requests)
      ensures !IsInWishlist(old(items), product.id) ==>
        requests == old(requests) + SessionCall(user, token, Request(POST, WishlistPath, token, ProductRef(product.id)))
      ensures !IsInWishlist(old(items), product.id) ==>
        items == AfterAdd(old(items), IsAuthenticated(user, token), product, now, outcome)
      ensures !IsInWishlist(old(items), product.id) ==> storage == Stored(items)
      ensures UniqueIds(old(items)) ==> UniqueIds(items)
      ensures !(IsAuthenticated(user, token) && outcome.AddThrew?) ==> IsInWishlist(items, product.id)
    {
      if IsInWishlist(items, product.id) {
        return;
      }
      var wishlist := items;
      var newWishlist := Added(wishlist, product, now);
      AddCases(wishlist, product, now);
      items := newWishlist;
      storage := Stored(newWishlist);
      if IsAuthenticated(user, token) {
        requests := requests + [Request(POST, WishlistPath, token, ProductRef(product.id))];
        match outcome {
          case AddThrew =>
            items := wishlist;
            storage := Stored(wishlist);
          case AddAnswered(success, wid) =>
            if success {
              AttachOnlyMatching(newWishlist, product.id, wid);
              items := Attach(newWishlist, product.id, wid);
              storage := Stored(items);
            }
        }
      }
    }

    /** `removeFromWishlistAtom`: the entry goes locally and stays gone whatever the backend does. */
    method RemoveFromWishlist(user: Option<User>, token: Option<string>, productId: string)
      modifies this
      ensures items == Removed(old(items), productId) && storage == Stored(items)
      ensures requests == old(requests) + SessionCall(user, token, Request(DELETE, WishlistPath, token, ProductRef(productId)))
      ensures !IsInWishlist(items, productId)
      ensures UniqueIds(old(items)) ==> UniqueIds(items)
    {
      if UniqueIds(items) {
        WithoutUnique(items, ItemId, productId);
      }
      items := Removed(items, productId);
      storage := Stored(items);
      if IsAuthenticated(user, token) {
        requests := requests + [Request(DELETE, WishlistPath, token, ProductRef(productId))];
      }
    }

    /**
     * `toggleWishlistAtom`: a present id is removed, an absent one added; unless
     * the add's backend call throws, membership of the id flips.
     */
    method ToggleWishlist(user: Option<User>, token: Option<string>, product: ProductInput, now: string, outcome: AddOutcome)
      modifies this
      ensures IsInWishlist(old(items), product.id) ==>
        items == Removed(old(items), product.id) && storage == Stored(items)
        && requests == old(requests) + SessionCall(user, token, Request(DELETE, WishlistPath, token, ProductRef(product.id)))
      ensures !IsInWishlist(old(items), product.id) ==>
        requests == old(requests) + SessionCall(user, token, Request(POST, WishlistPath, token, ProductRef(product.id)))
      ensures !IsInWishlist(old(items), product.id) ==>
        items == AfterAdd(old(items), IsAuthenticated(user, token), product, now, outcome) && storage == Stored(items)
      ensures !(IsAuthenticated(user, token) && outcome.AddThrew?) ==>
        (IsInWishlist(items, product.id) <==> !IsInWishlist(old(items), product.id))
      ensures UniqueIds(old(items)) ==> UniqueIds(items)
    {
      if IsInWishlist(items, product.id) {
        RemoveFromWishlist(user, token, product.id);
      } else {
        AddToWishlist(user, token, product, now, outcome);
      }
    }

    /**
     * `checkWishlistAtom`: without a session, or when the call throws, the
     * answer is local membership; otherwise the backend's `inWishlist`.
     * `outcome` is None when the call threw.
     */
    method CheckWishlist(user: Option<User>, token: Option<string>, productId: string, outcome: Option<bool>) returns (inWishlist: bool)
      modifies this
      ensures items == old(items) && storage == old(storage)
      ensures requests == old(requests) + SessionCall(user, token, Request(GET, WishlistCheckPath + productId, token, NoBody))
      ensures inWishlist == if IsAuthenticated(user, token) && outcome.Some? then outcome.value else IsInWishlist(items, productId)
    {
      if !IsAuthenticated(user, token) {
        return IsInWishlist(items, productId);
      }
      requests := requests + [Request(GET, WishlistCheckPath + productId, token, NoBody)];
      if outcome.Some? {
        inWishlist := outcome.value;
      } else {
        inWishlist := IsInWishlist(items, productId);
      }
    }

    /** `clearWishlistAtom`: list and storage are emptied whatever the session or the backend does. */
    method ClearWishlist(user: Option<User>, token: Option<string>)
      modifies this
      ensures items == [] && storage == Stored([]) && WishlistCount(items) == 0
      ensures requests == old(requests) + SessionCall(user, token, Request(DELETE, WishlistPath, token, NoBody))
    {
      items := [];
      storage := Stored([]);
      if IsAuthenticated(user, token) {
        requests := requests + [Request(DELETE, WishlistPath, token, NoBody)];
      }
    }
  }
}
