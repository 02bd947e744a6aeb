/** The mock server's cart endpoints: GET, POST, PATCH and DELETE over one
    stored cart list, each answering with an exact status code. */
module MockCartHandlers {
  import opened CartTypes
  import opened Location

  datatype ResponseBody = CartListBody(cartList: seq<CartLine>) | ErrorBody(errorMessage: string) | NoBody

  datatype Response = Response(status: int, location: Option<string>, body: ResponseBody)

  const OK := 200
  const CREATED := 201
  const NO_CONTENT := 204

  const NoSuchProduct := "해당하는 상품이 없습니다."
  const EmptyCartOrNoSuchLine := "장바구니가 비어있거나 해당하는 상품이 장바구니에 없습니다."

  /** `${CART_POST}/${newCartList.at(-1)?.id}`: the id of the last line, or
      the text "undefined" when the list is empty. */
  function PostLocation(cartPostPath: string, newCartList: seq<CartLine>): (header: string)
    ensures newCartList != [] ==> header == LocationOf(cartPostPath, newCartList[|newCartList| - 1].id)
  {
    if newCartList == [] then cartPostPath + "/" + "undefined"
    else LocationOf(cartPostPath, newCartList[|newCartList| - 1].id)
  }

  /** The hook reads back the id of the last stored line from a POST's Location. */
  lemma PostLocationNamesLastLine(cartPostPath: string, newCartList: seq<CartLine>)
    requires newCartList != []
    ensures CartItemIdOf(Some(PostLocation(cartPostPath, newCartList))) == Some(newCartList[|newCartList| - 1].id)
  {
    LocationRoundTrip(cartPostPath, newCartList[|newCartList| - 1].id);
  }

  /** An empty list yields ".../undefined", which the hook reads as NaN. */
  lemma EmptyPostLocationIsNaN(cartPostPath: string)
    ensures CartItemIdOf(Some(PostLocation(cartPostPath, []))) == None
  {
    LastSegmentAfterSlash(cartPostPath, "undefined");
    assert !IsDigit("undefined"[0]);
  }

  /** The module-level cart data behind getCartData/setCartData. */
  class CartServer {
    var cartData: seq<CartLine>
    const domain: CartDomain
    /** API_ENDPOINT.CART_POST */
    const cartPostPath: string

    constructor (domain: CartDomain, cartPostPath: string, initial: seq<CartLine>)
      ensures this.domain == domain && this.cartPostPath == cartPostPath && cartData == initial
    {
      this.domain := domain;
      this.cartPostPath := cartPostPath;
      cartData := initial;
    }

    /** GET: the stored list, unchanged, with 200. */
    method Get() returns (r: Response)
      ensures r.status == OK && r.body == CartListBody(cartData) && r.location == None
    {
      r := Response(OK, None, CartListBody(cartData));
    }

    /** POST { productId }: 404 when addCartItem cannot resolve the product,
        otherwise store the new list and answer 201 with its Location. */
    method Post(productId: int) returns (r: Response)
      modifies this
      ensures domain.addCartItem(old(cartData), productId).None? ==>
                r == Response(NOT_FOUND, None, ErrorBody(NoSuchProduct)) && cartData == old(cartData)
      ensures domain.addCartItem(old(cartData), productId).Some? ==>
                && cartData == domain.addCartItem(old(cartData), productId).value
                && r == Response(CREATED, Some(PostLocation(cartPostPath, cartData)), CartListBody(cartData))
    {
      var newCartList := domain.addCartItem(cartData, productId);
      if newCartList.None? {
        return Response(NOT_FOUND, None, ErrorBody(NoSuchProduct));
      }
      cartData := newCartList.value;
      r := Response(CREATED, Some(PostLocation(cartPostPath, cartData)), CartListBody(cartData));
    }

    /** PATCH /:id { quantity }: 404 when changeCartItemQuantity finds no line,
        otherwise store the new list and answer 200 with it. */
    method Patch(cartItemId: int, quantity: int) returns (r: Response)
      modifies this
      ensures domain.changeCartItemQuantity(old(cartData), cartItemId, quantity).None? ==>
                r == Response(NOT_FOUND, None, ErrorBody(NoSuchProduct)) && cartData == old(cartData)
      ensures domain.changeCartItemQuantity(old(cartData), cartItemId, quantity).Some? ==>
                && cartData == domain.changeCartItemQuantity(old(cartData), cartItemId, quantity).value
                && r == Response(OK, None, CartListBody(cartData))
      ensures domain.ChangeFailsOnlyOnMissingLine() ==>
                (r.status == NOT_FOUND <==> !HasLine(old(cartData), cartItemId))
    {
      var newCartList := domain.changeCartItemQuantity(cartData, cartItemId, quantity);
      if newCartList.None? {
        return Response(NOT_FOUND, None, ErrorBody(NoSuchProduct));
      }
      cartData := newCartList.value;
      r := Response(OK, None, CartListBody(cartData));
    }

    /** DELETE /:id: 404 when the store is empty or removeCartItem finds
        nothing, otherwise store the reduced list and answer 204 with no body. */
    method Delete(cartItemId: int) returns (r: Response)
      modifies this
      ensures old(cartData) == [] || domain.removeCartItem(old(cartData), cartItemId).None? ==>
                r == Response(NOT_FOUND, None, ErrorBody(EmptyCartOrNoSuchLine)) && cartData == old(cartData)
      ensures old(cartData) != [] && domain.removeCartItem(old(cartData), cartItemId).Some? ==>
                cartData == domain.removeCartItem(old(cartData), cartItemId).value && r == Response(NO_CONTENT, None, NoBody)
    {
      var current := cartData;
      var newCartList := domain.removeCartItem(current, cartItemId);
      if |current| == 0 || newCartList.None? {
        return Response(NOT_FOUND, None, ErrorBody(EmptyCartOrNoSuchLine));
      }
      cartData := newCartList.value;
      r := Response(NO_CONTENT, None, NoBody);
    }
  }
}
