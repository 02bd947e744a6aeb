/** The values the cart core passes around: products, cart lines, member
    information, HTTP errors, and the cart-domain helpers the core calls but
    whose bodies are not part of this model. */
module CartTypes {
  import opened MemberRank

  datatype Option<+T> = None | Some(value: T)

  /** A catalog product; only the fields the cart core reads are kept. */
  datatype Product = Product(id: int, name: string, price: int)

  /** CartItemData: a cart line with the id the remote store assigned to it. */
  datatype CartLine = CartLine(id: int, quantity: int, product: Product)

  /** The current member's information, an input of the checkout summary. */
  datatype MemberInformation = MemberInformation(rank: Rank, cumulativePurchaseAmount: int)

  /** HTTPError: the status code of a failed remote call and its message. */
  datatype HttpError = HttpError(statusCode: int, message: string)

  /** The outcome of one awaited remote call. */
  datatype Remote<+T> = Ok(value: T) | Failed(error: HttpError)

  const BAD_REQUEST := 400
  const NOT_FOUND := 404
  const INTERNAL_SERVER_ERROR := 500

  /** Some line of the cart carries this id. */
  predicate HasLine(cart: seq<CartLine>, cartItemId: int)
  {
    exists i :: 0 <= i < |cart| && cart[i].id == cartItemId
  }

  /** The helpers of domain/cart that the core calls. Each returns the new
      cart list, or None (null in the source) when it cannot apply the change. */
  datatype CartDomain = CartDomain(
    addCartItem: (seq<CartLine>, int) -> Option<seq<CartLine>>,
    changeCartItemQuantity: (seq<CartLine>, int, int) -> Option<seq<CartLine>>,
    removeCartItem: (seq<CartLine>, int) -> Option<seq<CartLine>>)
  {
    /** The one thing the core relies on about changeCartItemQuantity:
        it fails exactly when no line has the given id. */
    ghost predicate ChangeFailsOnlyOnMissingLine()
    {
      forall cart, cartItemId, quantity ::
        changeCartItemQuantity(cart, cartItemId, quantity).None? <==> !HasLine(cart, cartItemId)
    }
  }
}
