# nitLibrary storefront core, modelled in Dafny

This project models the sequential core of the nitLibrary web storefront
(a Next.js and React shop front for a book and stationery store), and
proves properties of that model. The modelled parts are:

- **Cart and wishlist atoms** (`CartAtom`, `WishlistAtom`). These are the
  in-memory lists keyed by product id and mirrored to `localStorage`. The
  model covers add, remove, set quantity, toggle, the membership check, count,
  clear and the backend sync.
- **Cart and wishlist hooks** (`UseCart`, `UseWishlist`). These are the
  operations keyed by `productId`, the same-user filter on the stored list,
  and the guest-to-login merges `mergeCarts` and `mergeWishlists`.
- **The hydrator** (`Hydrator`). This is the verification effect and the
  four-way case split that picks the final cart and wishlist after sign-in.
- **The auth atoms** (`UserAtom`) and the `useAuth` hook (`AuthHook`). They
  cover the token read and write rules, `isAuthenticated`, and the
  verify, login, logout and init transitions.
- **Validators and normalisers** (`PhoneUtils`, `AuthSchema`, `LoginForm`,
  `ForgotPassword`). They cover the "+2" phone prefix, the e-mail regular
  expression, call-code detection, removal of the Saudi trunk zero, the zod
  schemas, and the sign-in and password-reset forms with their step machine.
- **Small builders and components** (`ProductsList`, `CategoriesList`,
  `Navbar`, `GoogleSignIn`). They cover the query lists of the product and
  category listings, the locale switch, the menu, and the acceptance rule for
  messages from the Google popup.

Modelling conventions:

- **Backend calls** are never performed. Each call appends a `Request` (HTTP
  method, endpoint, bearer token, body) to a `requests` log on the object
  that makes it. What the backend answered is a parameter of the operation
  (`outcome`).
- **Storage.** `localStorage` is a `Slot`: an absent key, a stored list, or
  a value `JSON.parse` rejects.
- **The token cookies.** The user atom's `token` cookie is a `Cookie` with
  a value and a lifetime in days: 360 when it is set. The `useAuth` cookie
  read and written through lib/clientCookie.ts (`AuthHook.Session.token`)
  is an optional string without an expiry.
- **Client only.** Every operation is modelled as it runs in the browser.
- **Functions outside the repository.** libphonenumber's validity test,
  zod's e-mail test and `decodeURIComponent` are function-valued parameters
  that the model does not interpret.
- **Shared modules.** `Util` holds options, JavaScript truthiness and string
  helpers. `Api` holds requests. `Keyed` holds lists looked up by a key
  function. `OrderedMap` is a JavaScript `Map` with its insertion order.
- **State changed in place** becomes a class whose methods state their whole
  new state. The stores, the hooks, the form components, `URLSearchParams`
  and the auth session are classes. Pure rules are functions, and lemmas
  relate them. For example, the cart merge loop is proved equal to an
  independent description of the merged list: server lines in server order,
  each taking the larger quantity, followed by the local-only lines in local
  order.

## Model

| member | source | states |
|---|---|---|
| UserAtom.SessionCall | atoms/userAtom.ts:57-61 | a guarded backend call sends its request exactly when user and token are both set, and nothing otherwise |
| UserAtom.UserIdOf | hooks/useCart.ts:169 | `user?.id` is present exactly when there is a user |
| UserAtom.ReadTokenPrefersInternal | atoms/userAtom.ts:16-37 | the token read is the in-memory value when it is truthy, else the cookie value when that is truthy, else null; the read value is never the empty string |
| UserAtom.AuthStore.constructor | atoms/userAtom.ts:7-13 | no user, no in-memory token, a sync counter of 0 and whatever cookie the browser holds |
| UserAtom.AuthStore.SetToken | atoms/userAtom.ts:38-53 | the in-memory token takes the new value; a truthy token writes a 360-day cookie, any other value deletes it; the counter rises by 1; the token read afterwards is the new token if truthy, else null |
| UserAtom.AuthStore.Verify | atoms/userAtom.ts:64-89 | without a token the user is cleared, null is returned and nothing is sent; otherwise a GET of the verify endpoint is logged with the token, a success stores and returns the user, and a failure clears both user and token; the result is a user exactly when the store is then authenticated |
| UserAtom.AuthStore.Login | atoms/userAtom.ts:92-109 | the token (and its cookie) is set before verification; the verified user is returned; a failed verification leaves no user, no token and no cookie |
| UserAtom.AuthStore.Logout | atoms/userAtom.ts:112-115 | user, token and cookie are cleared and the store is not authenticated |
| UserAtom.AuthStore.Init | atoms/userAtom.ts:118-128 | a truthy cookie token is copied into the in-memory token and the counter rises by 1; otherwise nothing changes |
| Hydrator.VerifyEffect | components/auth/UserHydrator.tsx:32-50 | verification runs only with a token and no user: then a GET of the verify endpoint is logged with the token, and the token is kept; a returned user is logged in (after which no further verification is due); a failure leaves user and token as they were |
| Hydrator.FinalCartIds | components/auth/UserHydrator.tsx:63-76 | in every one of the four cases the final cart holds exactly the ids found on the server or locally |
| Hydrator.FinalCartIsMerge | components/auth/UserHydrator.tsx:63-76 | with unique ids on each side, the four-way case split picks the same cart, and sends the same requests, as merging the local cart into the server cart in every case |
| Hydrator.AddEachLine | components/auth/UserHydrator.tsx:68-70 | one add request per local line, in order, when user and token are set; cart and storage are unchanged |
| Hydrator.SyncCart | components/auth/UserHydrator.tsx:52-86 | without a token the cart becomes the stored cart for the user, nothing is sent and storage is cleared only when it held another user's lines; with a token the server cart is fetched, the final cart follows the four-way rule (local only with one add per line, server only, merge, or []), and storage is cleared afterwards; unparsable storage aborts the effect |
| Hydrator.FinalWishlistIds | components/auth/UserHydrator.tsx:99-112 | in every one of the four cases the final wishlist holds exactly the ids found on the server or locally |
| Hydrator.FinalWishlistIsMerge | components/auth/UserHydrator.tsx:99-112 | with unique ids on each side, the final wishlist is the server list followed by the local-only entries, and one add is sent per local-only entry |
| Hydrator.AddEachEntry | components/auth/UserHydrator.tsx:104-106 | one add request per local entry, in order, when user and token are set; wishlist and storage are unchanged |
| Hydrator.SyncWishlist | components/auth/UserHydrator.tsx:88-122 | the same rule as the cart: the stored wishlist as a guest; with a token the four-way rule and an unconditional clear of storage |
| AuthHook.Session.constructor | hooks/useAuth.ts:12-14 | the session starts from the given user atom and token cookie with an empty request log |
| AuthHook.Session.Login | hooks/useAuth.ts:20-24 | the token cookie takes the token and the user atom the given user; no backend request is logged |
| AuthHook.Session.Logout | hooks/useAuth.ts:15-18 | user and token are both cleared, so the session is no longer authenticated, and nothing is sent |
| CartAtom.ConvertBackendCartItem | atoms/cartAtom.ts:59-68 | a backend line becomes a cart line whose `id` and `productId` are the product's id, whose quantity is the backend quantity and whose `cartItemId` is the backend line's id |
| CartAtom.ConvertAll | atoms/cartAtom.ts:92 | the converted list has one line per backend line, each the conversion of the line at the same position |
| CartAtom.CartCountEmpty | atoms/cartAtom.ts:101-104 | the count of an empty cart is 0 |
| CartAtom.CartCountBounds | atoms/cartAtom.ts:101-104 | with non-negative quantities the count is non-negative and at least every single quantity |
| CartAtom.NewLine | atoms/cartAtom.ts:143-150 | a new line carries the product's id as `id` and `productId`, quantity 1 and no backend line id |
| CartAtom.AddExisting | atoms/cartAtom.ts:135-141 | adding a product already in the cart raises only that line's quantity by 1; the length and every other line are unchanged |
| CartAtom.AddNew | atoms/cartAtom.ts:142-151 | adding a product not in the cart appends exactly one line, with quantity 1 and `productId` equal to the id |
| CartAtom.AddKeepsUnique | atoms/cartAtom.ts:135-151 | adding keeps at most one line per id, and the product is in the cart afterwards |
| CartAtom.AddCountsOne | atoms/cartAtom.ts:135-151 | adding raises the cart count by exactly 1 |
| CartAtom.RemoveDeletesLine | atoms/cartAtom.ts:191 | removing an id deletes exactly its line, keeps the other lines in order, keeps ids unique and lowers the count by the line's quantity |
| CartAtom.UpdateQuantityCases | atoms/cartAtom.ts:225-228 | a quantity of 0 or less is the same as removing the id; a positive quantity replaces that line's quantity and leaves every other line as it was; ids stay unique |
| CartAtom.CartStore.constructor | atoms/cartAtom.ts:35-49 | the initial cart is what storage holds once the page has loaded, and [] when nothing or unreadable data is stored |
| CartAtom.CartStore.SyncFromBackend | atoms/cartAtom.ts:73-99 | with user and token a GET is logged; a successful response replaces cart and storage with the converted lines; without a session, on failure or on an unsuccessful response nothing else changes |
| CartAtom.CartStore.AddToCart | atoms/cartAtom.ts:116-178 | cart and storage become the added cart; a POST of the product with quantity 1 is logged only when user and token are set; ids stay unique and the count rises by 1 |
| CartAtom.CartStore.RemoveFromCart | atoms/cartAtom.ts:180-212 | cart and storage lose the id's line; a DELETE naming the line's `cartItemId` is logged only with user, token and a `cartItemId`; the id is gone afterwards |
| CartAtom.CartStore.UpdateQuantity | atoms/cartAtom.ts:214-265 | cart and storage become the updated cart; with user, token and a `cartItemId`, a DELETE is logged for a quantity of 0 or less and a PUT with the quantity otherwise |
| CartAtom.CartStore.ClearCart | atoms/cartAtom.ts:267-288 | cart and storage are empty and the count is 0 whatever the session; a DELETE of the clear endpoint is logged only with user and token |
| WishlistAtom.ConvertBackendWishlistItem | atoms/wishlistAtom.ts:56-66 | a backend entry becomes a wishlist entry whose `id` is the product's id, whose `wishlistItemId` is the backend entry's id and whose `createdAt` is copied |
| WishlistAtom.ConvertAll | atoms/wishlistAtom.ts:91 | the converted list has one entry per backend entry, each the conversion of the entry at the same position |
| WishlistAtom.IsInWishlist | atoms/wishlistAtom.ts:101-104 | a product is in the wishlist exactly when some entry carries its id |
| WishlistAtom.NewEntry | atoms/wishlistAtom.ts:138-141 | a new entry carries the product's id, the creation time and no backend id |
| WishlistAtom.AddCases | atoms/wishlistAtom.ts:132-145 | adding an id already present changes nothing; adding a new id appends exactly one entry and raises the count by 1; ids stay unique and the product is present afterwards |
| WishlistAtom.AttachOnlyMatching | atoms/wishlistAtom.ts:168-177 | attaching the backend id changes only the entries with the product's id, keeps the length, the membership of every id and the uniqueness of ids |
| WishlistAtom.RemoveDeletesEntry | atoms/wishlistAtom.ts:197 | removing an id deletes exactly its entry, keeps the other entries in order and lowers the count by 1 |
| WishlistAtom.RemoveAbsent | atoms/wishlistAtom.ts:197 | removing an id that is not present changes nothing |
| WishlistAtom.WishlistStore.constructor | atoms/wishlistAtom.ts:32-46 | the initial wishlist is what storage holds once the page has loaded, and [] when nothing or unreadable data is stored |
| WishlistAtom.WishlistStore.SyncFromBackend | atoms/wishlistAtom.ts:71-98 | with user and token a GET is logged; a successful response replaces wishlist and storage with the converted entries; otherwise nothing else changes |
| WishlistAtom.WishlistStore.AddToWishlist | atoms/wishlistAtom.ts:113-186 | an id already present changes nothing and sends nothing; otherwise the entry is appended and stored, a POST is logged only with user and token, a successful answer attaches the backend id to that entry only, and a thrown call reverts wishlist and storage to their value before the call; ids stay unique |
| WishlistAtom.WishlistStore.RemoveFromWishlist | atoms/wishlistAtom.ts:189-218 | wishlist and storage lose the id; a DELETE is logged only with user and token, and a failure reverts nothing |
| WishlistAtom.WishlistStore.ToggleWishlist | atoms/wishlistAtom.ts:221-246 | an existing id is removed; any other id gets `addToWishlistAtom`'s list (appended, its backend id attached on success, reverted on a throw) and storage follows the list; unless a logged-in add throws, membership of the id flips; ids stay unique |
| WishlistAtom.WishlistStore.CheckWishlist | atoms/wishlistAtom.ts:249-284 | without user and token, or when the call throws, the answer is local membership; otherwise it is the backend's answer; the list is not changed |
| WishlistAtom.WishlistStore.ClearWishlist | atoms/wishlistAtom.ts:287-308 | wishlist and storage are empty whatever the session; a DELETE is logged only with user and token |
| UseCart.AddNewLine | hooks/useCart.ts:27 | adding a product not in the cart appends it with quantity 1, and keeps `productId`s unique |
| UseCart.AddExistingLine | hooks/useCart.ts:16-21 | adding a product already in the cart is the same as increasing its line, and keeps `productId`s unique |
| UseCart.AddedCount | hooks/useCart.ts:15-27 | adding raises the cart count by exactly 1 |
| UseCart.AddedHasProduct | hooks/useCart.ts:15-27 | after adding, the product is in the cart |
| UseCart.IncreaseTouchesOne | hooks/useCart.ts:87-94 | increasing changes only the matching line, by +1, raises the count by 1 and keeps `productId`s unique |
| UseCart.AbsentProductUnchanged | hooks/useCart.ts:87-131 | increasing, decreasing or removing a product that is not in the cart changes nothing |
| UseCart.RemoveProductDeletesLine | hooks/useCart.ts:103 | removing deletes exactly the product's line, keeps the other lines in order and lowers the count by the line's quantity |
| UseCart.DecreaseCases | hooks/useCart.ts:110-131 | a line of quantity 1 is removed, any other line loses 1; either way the count drops by 1 and `productId`s stay unique |
| UseCart.Reconciled | hooks/useCart.ts:213-221 | a line present on both sides keeps every field of the server line and takes the larger of the two quantities |
| UseCart.AddCalls | hooks/useCart.ts:37-57 | one add request per line when user and token are set, none otherwise |
| UseCart.MergedCartsIds | hooks/useCart.ts:204-232 | the merge holds at most one line per id, and exactly the ids found on the server or locally |
| UseCart.MergedServerLine | hooks/useCart.ts:207-221 | every server line is in the merge, reconciled with the local line of the same id if there is one |
| UseCart.MergedLocalLine | hooks/useCart.ts:225-228 | every local line whose id is not on the server is in the merge unchanged |
| UseCart.MergedCartsReference | hooks/useCart.ts:204-232 | with unique ids on each side, the merge is the server lines in server order, each reconciled, followed by the local-only lines in local order |
| UseCart.MergeRequestsReference | hooks/useCart.ts:212-230 | with unique ids on each side, the merge sends, per local line in local order, a "set" to the local quantity exactly when the server quantity is smaller, and an "add" exactly when the id is not on the server |
| UseCart.MergeRequestsNoServer | hooks/useCart.ts:212-230 | against an empty server cart the merge sends exactly one add per local line |
| UseCart.MergeRequestsNeedSession | hooks/useCart.ts:37-64 | without user and token the merge sends nothing |
| UseCart.FromStorage | hooks/useCart.ts:164-173 | unparsable stored text throws; otherwise the result belongs entirely to the user, and a non-empty stored list is returned exactly when every line carries the user's id |
| UseCart.CartHook.constructor | hooks/useCart.ts:10-11 | the hook starts from the shared cart and the stored value, with no request sent |
| UseCart.CartHook.AddItemUser | hooks/useCart.ts:37-57 | a POST of the product with quantity 1 is logged only with user and token; cart and storage are unchanged |
| UseCart.CartHook.UpdateItemUser | hooks/useCart.ts:59-85 | a PUT with the product, quantity and action is logged only with user and token; cart and storage are unchanged |
| UseCart.CartHook.AddToCart | hooks/useCart.ts:15-35 | the cart becomes the added cart and its count rises by 1; as a guest, storage receives the cart as it was before the call, incremented quantity included because the line is shared, and nothing is sent; logged in, one "increment" PUT or one POST is logged and storage is untouched |
| UseCart.CartHook.IncreaseItemQuantity | hooks/useCart.ts:87-100 | only the matching line rises by 1; as a guest storage receives the pre-call cart, logged in one "increment" PUT is logged |
| UseCart.CartHook.RemoveFromCart | hooks/useCart.ts:102-108 | the product's line is gone; as a guest storage receives the pre-call cart, logged in a "set" PUT to 0 is logged |
| UseCart.CartHook.DecreaseItemQuantity | hooks/useCart.ts:110-131 | the cart becomes the decreased cart; logged in, a line of quantity 1 sends a "set" to 0 and any other a "decrement"; as a guest storage receives the pre-call cart |
| UseCart.CartHook.ClearCartLocal | hooks/useCart.ts:175-179 | the storage key is removed and nothing else changes |
| UseCart.CartHook.ClearCart | hooks/useCart.ts:133-150 | the cart is empty and its count 0; as a guest the storage key is removed, logged in a DELETE is logged and storage is untouched |
| UseCart.CartHook.GetCartFromLocal | hooks/useCart.ts:164-173 | returns what the stored value yields for the user, and removes the key exactly when a stored list holds a line of another user |
| UseCart.CartHook.FetchCartItems | hooks/useCart.ts:180-197 | without a token nothing is sent and the result is []; with one a GET is logged and the result is the backend's lines, or [] when the call throws |
| UseCart.CartHook.MergeLine | hooks/useCart.ts:212-230 | one local line is folded into the map and its request, if any, is logged |
| UseCart.CartHook.MergeAll | hooks/useCart.ts:212-230 | the loop over the local lines yields the folded map and logs the requests in local order |
| UseCart.CartHook.MergeCarts | hooks/useCart.ts:199-237 | returns the merged cart and logs the merge's requests; cart and storage are unchanged |
| UseWishlist.ToggleAction | hooks/useWishlist.ts:16-31 | the action is "remove" exactly when the product is already in the wishlist |
| UseWishlist.ToggleRemoves | hooks/useWishlist.ts:22-26 | an existing product is spliced out at its first position, the length drops by 1, and with unique ids the product is gone and ids stay unique |
| UseWishlist.ToggleAdds | hooks/useWishlist.ts:27-30 | a product not present is appended, is present afterwards, and ids stay unique |
| UseWishlist.ToggleFlips | hooks/useWishlist.ts:15-31 | with unique ids, toggling flips the product's membership and keeps ids unique |
| UseWishlist.ToggleTwice | hooks/useWishlist.ts:15-31 | toggling a product that is not present twice gives the wishlist back |
| UseWishlist.AddCalls | hooks/useWishlist.ts:43-64 | one add request per entry when user and token are set, none otherwise |
| UseWishlist.MergedWishlistsIds | hooks/useWishlist.ts:127-142 | the merge holds at most one entry per id, and exactly the ids found on the server or locally |
| UseWishlist.MergeLocalLoads | hooks/useWishlist.ts:130-140 | folding the local entries into the server map gives the map loaded from the server entries followed by the local entries whose id is not on the server |
| UseWishlist.MergedWishlistsReference | hooks/useWishlist.ts:127-142 | with unique ids on each side, the merge is the server list followed by the local-only entries in local order, so a server entry wins on a shared id |
| UseWishlist.MergeRequestsReference | hooks/useWishlist.ts:135-140 | with unique local ids, the merge sends exactly one add per local-only entry, in local order |
| UseWishlist.FromStorage | hooks/useWishlist.ts:87-96 | unparsable stored text throws; otherwise the result belongs entirely to the user, and a non-empty stored list is returned exactly when every entry carries the user's id |
| UseWishlist.WishlistHook.constructor | hooks/useWishlist.ts:10-11 | the hook starts from the shared wishlist and the stored value, with no request sent |
| UseWishlist.WishlistHook.AddWishlistItemUser | hooks/useWishlist.ts:43-64 | a POST naming the product is logged only with user and token, for the "add" and the "remove" action alike; wishlist and storage are unchanged |
| UseWishlist.WishlistHook.AddToWishlist | hooks/useWishlist.ts:15-41 | the wishlist is toggled; as a guest storage receives the updated list and nothing is sent; logged in, one POST is logged and storage is untouched |
| UseWishlist.WishlistHook.ClearWishlistLocal | hooks/useWishlist.ts:98-102 | the storage key is removed and nothing else changes |
| UseWishlist.WishlistHook.ClearWishlist | hooks/useWishlist.ts:66-83 | the wishlist is empty and its count 0; as a guest the storage key is removed, logged in a DELETE is logged and storage is untouched |
| UseWishlist.WishlistHook.GetWishlistFromLocal | hooks/useWishlist.ts:87-96 | returns what the stored value yields for the user, and removes the key exactly when a stored list holds an entry of another user |
| UseWishlist.WishlistHook.FetchWishlistItems | hooks/useWishlist.ts:103-120 | without a token nothing is sent and the result is []; with one a GET is logged and the result is the backend's entries, or [] when the call throws |
| UseWishlist.WishlistHook.MergeEntry | hooks/useWishlist.ts:135-140 | one local entry is folded into the map and its add request, if any, is logged |
| UseWishlist.WishlistHook.MergeAll | hooks/useWishlist.ts:135-140 | the loop over the local entries yields the folded map and logs the requests in local order |
| UseWishlist.WishlistHook.MergeWishlists | hooks/useWishlist.ts:122-148 | returns the merged wishlist and logs the merge's requests; wishlist and storage are unchanged |
| PhoneUtils.FormatPhoneForApi | lib/phoneUtils.ts:3-5 | the result always starts with "+2" and ends with the input, at most two characters longer; it equals the input exactly when the input already started with "+2" |
| PhoneUtils.FormatPhoneIdempotent | lib/phoneUtils.ts:3-5 | formatting a formatted number changes nothing |
| PhoneUtils.ValidatePhone | lib/phoneUtils.ts:7-12 | a number is returned exactly when its "+2" form is valid, and then it is that "+2" form |
| PhoneUtils.IsValidEmailShape | lib/phoneUtils.ts:28-29 | the e-mail regular expression matches exactly the strings with no white space, exactly one "@" with something before it, and a "." after it with something on both sides |
| PhoneUtils.EmailMatchHasShape | lib/phoneUtils.ts:28-29 | a string the regular expression matches has that shape |
| PhoneUtils.EmailShapeMatches | lib/phoneUtils.ts:28-29 | a string of that shape is matched by the regular expression |
| PhoneUtils.ValidatePhoneOrEmail | lib/phoneUtils.ts:14-41 | the empty value gets the invalid-format message; a value holding "@" is accepted exactly when it has the e-mail shape, else gets the invalid-email message; any other value is accepted exactly when its "+2" form is a valid number, else gets the invalid-phone message |
| PhoneUtils.DetectCallCode | components/auth/Login/LoginForm.tsx:82-93 | an Egyptian mobile prefix selects "+2", a Saudi prefix "+966", and anything else keeps the previous code |
| PhoneUtils.PrefixesDisjoint | components/auth/Login/LoginForm.tsx:83-91 | no input has both an Egyptian and a Saudi prefix, so the order of the tests is immaterial |
| PhoneUtils.DetectCallCodeStable | components/auth/Login/LoginForm.tsx:82-93 | running the effect twice on the same input gives the code it gave once, and an empty field keeps the previous code |
| PhoneUtils.StripSaudiZero | components/auth/Login/LoginForm.tsx:103-107 | a value starting with "05" loses exactly its first character and then starts with "5"; any other value is kept |
| PhoneUtils.StripSaudiZeroStable | components/auth/Login/LoginForm.tsx:44-48 | stripping is idempotent, and the call code detected for the stripped value is the one detected for the typed value |
| AuthSchema.Check | schemas/auth.ts:10-27 | one field check yields no issue exactly when its condition holds |
| AuthSchema.ParseRegister | schemas/auth.ts:8-32 | the registration form parses exactly when every field is within its bounds and valid and the two passwords agree; it then yields the fields with the phone in "+2" form; a failure has at least one issue, and valid fields with differing passwords yield exactly the mismatch issue on the confirmation field |
| AuthSchema.LoginPhoneValue | schemas/auth.ts:48-50 | an e-mail address leaves as typed, anything else in "+2" form |
| AuthSchema.ParseLogin | schemas/auth.ts:36-52 | the sign-in form parses exactly when the phone field has 1 to 100 characters and the password 6 to 12, whatever the field holds, because the refinement never rejects; it yields the transformed phone and the password |
| ForgotPassword.FormattedContact | components/auth/Login/ForgotPassword.tsx:120-127 | an e-mail address is sent as typed; a phone number starting with "05" loses its leading zero; anything else is sent as typed |
| ForgotPassword.ValidateContact | components/auth/Login/ForgotPassword.tsx:80-98 | an empty field is rejected; a value with "@" is accepted exactly when it has the e-mail shape; any other value exactly when the call code followed by the number without its Saudi trunk zero is valid; every rejection carries a message |
| ForgotPassword.CodeFieldsProceed | components/auth/Login/ForgotPassword.tsx:153-166 | code-step fields that pass the form's rules (six-digit code, password of at least six characters, matching confirmation) always get past the handler's own checks |
| ForgotPassword.ForgotPasswordDialog.constructor | components/auth/Login/ForgotPassword.tsx:31-58 | the dialog opens on the contact step with no saved contact, no call code, an empty form and nothing sent |
| ForgotPassword.ForgotPasswordDialog.Edit | components/auth/Login/ForgotPassword.tsx:60-74 | typing replaces the form and re-runs the call-code detection on the contact field; step, contact and requests stay |
| ForgotPassword.ForgotPasswordDialog.HandleSendOtp | components/auth/Login/ForgotPassword.tsx:112-150 | an empty contact sends nothing; otherwise one POST to the forget-password endpoint carries the formatted contact, and only a successful reply saves the typed contact and moves to the code step; the dialog stays valid (never in the declared but unused password step, in the code step only with a saved contact) |
| ForgotPassword.ForgotPasswordDialog.HandleVerifyAndReset | components/auth/Login/ForgotPassword.tsx:152-199 | without a code, a password or a matching confirmation nothing is sent; otherwise one PATCH carries the code, the formatted saved contact and the new password, and only a successful reply clears the form and returns to the sign-in view |
| ForgotPassword.ForgotPasswordDialog.HandleReset | components/auth/Login/ForgotPassword.tsx:201-205 | back to the contact step with no saved contact and an empty form, nothing sent |
| ForgotPassword.ForgotPasswordDialog.SubmitContact | components/auth/Login/ForgotPassword.tsx:221-233 | the contact step's submit reaches the handler only when the contact passes validation, and then the request is sent for a non-empty contact; a truthy answer moves to the code step with the typed contact saved, any other answer leaves step and saved contact as they were |
| ForgotPassword.ForgotPasswordDialog.SubmitCode | components/auth/Login/ForgotPassword.tsx:271-332 | the code step's submit sends the reset request exactly when the six-digit code, the password rules and the confirmation rule pass; the saved contact is then non-empty; a truthy answer empties the form and returns to sign-in, any other answer leaves both as they were |
| LoginForm.ValidateLoginPhone | components/auth/Login/LoginForm.tsx:94-114 | a value that is not a string is rejected; a value with "@" is accepted exactly when it has the e-mail shape; any other exactly when the call code plus the number without its Saudi trunk zero is valid; rejections carry a message |
| LoginForm.EmailLosesLeadingZero | components/auth/Login/LoginForm.tsx:44-48 | an e-mail address starting with "05" passes validation and is then sent without its first character |
| LoginForm.LoginFormState.constructor | components/auth/Login/LoginForm.tsx:28-37 | empty fields, no call code, not loading, nothing sent |
| LoginForm.LoginFormState.Edit | components/auth/Login/LoginForm.tsx:75-93 | typing replaces the fields and re-runs call-code detection on the phone field |
| LoginForm.LoginFormState.OnSubmit | components/auth/Login/LoginForm.tsx:40-73 | one POST to the login endpoint with the phone without its Saudi trunk zero and the password; a returned token logs in with no user and reports success; a failure changes no session state; loading ends either way |
| LoginForm.LoginFormState.Submit | components/auth/Login/LoginForm.tsx:117-133 | the request is sent exactly when the phone passes validation and the password has at least six characters; a returned token logs in with no user and marks success, a throw leaves session and success as they were, and loading ends; otherwise nothing is sent and the session, success and loading flags are untouched |
| ProductsList.ParamOr | components/products/ProductsList.tsx:18-19 | a requested value is used as given, a missing one falls back to the default |
| ProductsList.QueryParams.Append | components/products/ProductsList.tsx:25-30 | append adds one entry at the end; the first value of that name changes only when there was none |
| ProductsList.QueryParams.Set | components/products/ProductsList.tsx:31-34 | set leaves exactly one entry of that name, with the new value, and every entry of another name as it was |
| ProductsList.SetParamFacts | components/products/ProductsList.tsx:31-34 | the same facts about the pure set operation |
| ProductsList.InitialMembers | components/products/ProductsList.tsx:14-24 | the record holds the stock and active filters, the field selector, the requested or default limit and skip, the home-page flag exactly when asked, the category name exactly when given, and no sort |
| ProductsList.ProductQueryMembers | components/products/ProductsList.tsx:14-30 | the final query keeps those fixed entries, the category name when given, and the flag of the requested listing kind |
| ProductsList.ProductQueryFlags | components/products/ProductsList.tsx:15-23 | the home-page flag is present exactly when asked for, and without a category there is no category filter |
| ProductsList.ProductQuerySort | components/products/ProductsList.tsx:27-34 | there is at most one sort; it is the requested sort when one is given, else "-createdAt" for the latest listing, else none |
| ProductsList.WithSortSort | components/products/ProductsList.tsx:31-34 | the sort step leaves at most one sort, the requested one when given, otherwise the one already there |
| ProductsList.WithSortKeeps | components/products/ProductsList.tsx:31-34 | the sort step keeps every entry of another name |
| ProductsList.AppendKind | components/products/ProductsList.tsx:25-30 | the kind's entries are appended after the record |
| ProductsList.ApplySort | components/products/ProductsList.tsx:31-34 | the entries after the sort step are the specified ones |
| ProductsList.BuildProductQuery | components/products/ProductsList.tsx:14-34 | the query is the specified one, with the caller's home-page flag (true when none) and the trimmed, decoded category; it fails exactly when a given category does not decode |
| ProductsList.FetchProducts | components/products/ProductsList.tsx:7-44 | the backend's page is returned, or the empty page when building the query or the call throws |
| CategoriesList.CategoryQueryFacts | components/categories/CategoriesList.tsx:12-19 | the category query has the home-page flag exactly when asked, and exactly one limit, sort, skip and field selector, with the requested values or "10", "-createdAt" and "0" |
| CategoriesList.FetchCategories | components/categories/CategoriesList.tsx:7-29 | the query uses the caller's home-page flag, true when none is passed, so the flag is sent unless false is passed; the backend's page is returned, or no categories and zero counts when the call throws |
| Navbar.StripLocale | components/common/Navbar.tsx:53 | the path without its locale is never empty |
| Navbar.StripPrefixed | components/common/Navbar.tsx:53 | any leading slash and two lower-case letters are removed, a bare prefix leaving "/" |
| Navbar.StripUnprefixed | components/common/Navbar.tsx:53 | a path without such a prefix is kept, the empty path becoming "/" |
| Navbar.LocaleTargetFacts | components/common/Navbar.tsx:53-54 | the target starts with the chosen locale, strips back to the path it came from, and a second switch lands where one switch would |
| Navbar.NavbarState.constructor | components/common/Navbar.tsx:30-37 | the menu starts closed at the given locale and path, with no navigation |
| Navbar.NavbarState.ToggleMenu | components/common/Navbar.tsx:38 | the menu flag flips and nothing else changes |
| Navbar.NavbarState.CloseMenu | components/common/Navbar.tsx:39 | the menu is closed and nothing else changes |
| Navbar.NavbarState.HandleLanguageChange | components/common/Navbar.tsx:47-56 | choosing the current locale navigates nowhere; another locale pushes the current path under that locale; the menu is closed either way |
| Navbar.NavbarState.HandleLogout | components/common/Navbar.tsx:41-45 | user and token are cleared, the menu is closed, and the locale, path and navigation stay |
| GoogleSignIn.AllowedOrigin | components/auth/signInWithGoogle.tsx:18 | the configured base URL when set, else the non-empty local default |
| GoogleSignIn.AcceptedAsWrittenIsSubstring | components/auth/signInWithGoogle.tsx:20-23 | the written origin test accepts exactly the origins that occur somewhere inside the allowed origin |
| GoogleSignIn.ShorterOriginAccepted | components/auth/signInWithGoogle.tsx:20-23 | a message from "http://localhost:3" passes the written test against the default origin though it is another origin |
| GoogleSignIn.OriginAllowedExact | components/auth/signInWithGoogle.tsx:20-23 | the exact test accepts a subset of what the written test accepts: the accepted origins of the allowed origin's own length |
| GoogleSignIn.GoogleSignInButton.constructor | components/auth/signInWithGoogle.tsx:12 | the button starts not loading |
| GoogleSignIn.GoogleSignInButton.HandleMessage | components/auth/signInWithGoogle.tsx:16-34 | a message from the allowed origin with the success text and a token stops loading and logs in with that token and no user; any other message changes nothing |
| GoogleSignIn.GoogleSignInButton.SignIn | components/auth/signInWithGoogle.tsx:44-72 | loading is on afterwards exactly when the popup opened |
| Util.LoadFromStorage | atoms/cartAtom.ts:35-49 | the stored list is read only once the page is hydrated; an absent, empty or unreadable entry yields [], a stored list yields exactly that list |
| Util.Trim | components/products/ProductsList.tsx:22 | the trimmed category name is a slice of the given one with only white space before and after it, and it neither starts nor ends with white space |
| Keyed.Without | atoms/cartAtom.ts:191 | filtering by id leaves no entry with that id and only entries that were there |
| Keyed.WithoutDeletesOne | atoms/cartAtom.ts:191 | with unique ids, filtering out an entry's id removes exactly that entry and keeps the order of the others |
| Keyed.Modify | atoms/cartAtom.ts:227-228 | updating by id changes exactly the entries with that id and keeps the length |
| Keyed.ModifyTouchesOne | atoms/cartAtom.ts:227-228 | with unique ids, the update replaces exactly one entry in place |
| OrderedMap.Put | hooks/useCart.ts:208 | setting a key binds it to the value and appends it to the insertion order only when it was new |
| OrderedMap.Values | hooks/useCart.ts:232 | the values come out in the keys' insertion order |
| OrderedMap.LoadAll | hooks/useCart.ts:204-209 | loading the server cart binds exactly the ids that occur in it |
| OrderedMap.LoadAllValues | hooks/useCart.ts:204-209 | with unique ids, loading a list and reading its values back gives the list itself |
| OrderedMap.Load | hooks/useCart.ts:204-209 | the loop that fills the map builds the same map as the specification |

## Left out

- Cart totals (`cartTotalAtom`, `cartTotal`) and every other price calculation are left out: they are floating-point arithmetic. Prices are carried as values and never combined.
- Concurrency and React reactivity are left out: effect re-entry, Jotai re-rendering and hydration gating.
  - The `forEach(async …)` loops of the merges and the hydrator are modelled as sequential loops. Their requests appear in the log in list order, and the model assumes every call completes.
  - Request ordering between concurrent calls is not modelled.
- Shared state between the atoms and the hooks is modelled separately.
  - In the source, the atoms and the hooks share one Jotai atom and one `localStorage` key per collection, but the two layers use different item shapes.
  - The model gives each layer its own class and its own storage slot, so it does not capture one layer seeing the other's writes.
- Toasts, translations (`t(...)`), console output and rendering are left out. A translated message is represented by its translation key.
- Foreign functions are left uninterpreted: libphonenumber validity, zod's `.email()` and `decodeURIComponent`. Each is a function parameter, so properties hold for any such function.
- The timing of the cookies is left out.
  - The user atom's cookie records its 360-day lifetime, but the model has no clock, so the cookie never expires in it. The `useAuth` cookie (`AuthHook.Session.token`) is one optional string with no lifetime at all.
- Server-side rendering is left out: the `typeof window === "undefined"` branches are dropped and every operation is modelled as it runs in the browser.
  - On the server the user atom's token getter returns `null`, its setter skips the cookie write and `initAuthAtom` does nothing (atoms/userAtom.ts:28, 43, 119). None of these is modelled.
  - On the server `getCartFromLocal` and `getWishlistFromLocal` return `[]` (hooks/useCart.ts:165, hooks/useWishlist.ts:88), and so do the atoms' storage readers (atoms/cartAtom.ts:36, atoms/wishlistAtom.ts:33). Their storage writes and removals are skipped (atoms/cartAtom.ts:53, atoms/wishlistAtom.ts:50, hooks/useCart.ts:176, hooks/useWishlist.ts:99). The model always reads and writes storage.
  - The server-side cookie calls (`setTokenServer`, `logoutServer`) are not modelled; app/actions/cookie.ts and app/actions/logout.ts are not part of this model.
- The HTTP plumbing (`apiFetch`, `clientApiFetch`) is left out. URL serialisation and encoding of the query lists are also left out: the lists are modelled as the sequence of name and value pairs `URLSearchParams` holds.
- The `setInterval` polling that clears the loading flag of the Google button when the popup closes is left out: it is timer-driven I/O.
- String lengths are lengths in characters; JavaScript counts UTF-16 code units, and the two differ only outside the Basic Multilingual Plane.
- Registration's component (components/auth/register/Register.tsx), the contact form and the login view switcher are left out: they are network calls and view state around the modelled schema.
- UseCart.MergedCartsReference: the merge is related to its reference description only when each side has unique ids, the invariant every store keeps. With duplicate ids the model still computes what the loop computes, but no reference is stated for it.
- UseWishlist.MergedWishlistsReference: same restriction to unique ids on each side.
- Hydrator.FinalCartIsMerge: stated for lists with unique ids on each side, as above; `Hydrator.FinalCartIds` holds for all lists.
- Hydrator.FinalWishlistIsMerge: stated for lists with unique ids on each side; `Hydrator.FinalWishlistIds` holds for all lists.
- AuthSchema.ParseRegister: the issues of a failed parse are stated to be non-empty, not listed one by one. zod's order of issues and the exact wording of its default messages are not modelled.
- Navbar.NavbarState.HandleLanguageChange: the current path is a field; reading it through `usePathname` (which already includes the locale prefix) is not modelled.
- GoogleSignIn.GoogleSignInButton.HandleMessage: uses the exact origin test (see Findings) rather than the substring test the handler writes. `GoogleSignIn.OriginAcceptedAsWritten` keeps the written test.

## Findings

| source | as written | input that shows it | evidently intended | confidence | as-written member | corrected member |
|---|---|---|---|---|---|---|
| components/auth/signInWithGoogle.tsx:20-23 | a message is refused only when its origin differs from the allowed origin and does not occur inside it, so every substring of the allowed origin passes | origin "http://localhost:3" against the default allowed origin "http://localhost:3100": a different port, yet accepted | accept messages from the allowed origin only | high (proved on the model; not executed) | GoogleSignIn.ShorterOriginAccepted | GoogleSignIn.OriginAllowedExact |
