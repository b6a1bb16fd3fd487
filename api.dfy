/**
 * Backend calls as data. The model never performs a call: every operation that
 * talks to the REST backend appends one `Request` to a log, and whatever the
 * backend answered is handed to the operation as a parameter.
 */
module Api {
  import opened Util

  datatype HttpMethod = GET | POST | PUT | DELETE | PATCH

  /** The `action` field of a hook-level cart update. */
  datatype CartAction = Increment | Decrement | SetTo

  /** The JSON bodies the storefront sends, one constructor per shape. */
  datatype Body =
    | NoBody
    | ProductQuantity(productId: string, quantity: int)
    | CartItemRef(cartItemId: string)
    | CartItemQuantity(cartItemId: string, quantity: int)
    | QuantityAction(productId: string, quantity: int, action: CartAction)
    | ProductRef(productId: string)
    | ContactRef(phoneOrEmail: string)
    | PasswordReset(code: string, phone: string, password: string)
    | Credentials(phone: string, password: string)

  /** One call: HTTP method, endpoint, the bearer token sent (if any) and the body. */
  datatype Request = Request(verb: HttpMethod, endpoint: string, bearer: Option<string>, body: Body)

  const CartPath := "/api/users/cart"
  const CartClearPath := "/api/users/cart/clear"
  const CartFieldsPath := "/api/users/cart?fields=id,quantity,createdAt,user,product,productId,userId"
  const WishlistPath := "/api/users/wishlist"
  const WishlistFieldsPath := "/api/users/wishlist?fields=id,createdAt,user,product,productId,userId"
  const WishlistCheckPath := "/api/users/wishlist/check/"
  const VerifyMePath := "/api/verify-me"
  const LoginPath := "/api/auth/login"
  const ForgetPasswordPath := "/api/users/forget-password?lang="
  const ResetPasswordPath := "/api/users/forget-password/reset-password?lang="
}
