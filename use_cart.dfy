/** The cart hook: each user action is one remote call (its outcome is a
    parameter here) followed by the local reaction the hook performs on the
    cart list atom and on the error-modal message. */
module UseCart {
  import opened CartTypes
  import opened Location
  import opened CartStore

  /** An APIErrorMessage table: the message shown for a status code. */
  type ErrorMessageTable = map<int, string>

  /** CART_API_ERROR_MESSAGE.ADD/UPDATE/DELETE and ORDER_API_ERROR_MESSAGE.ADD. */
  datatype ActionMessages = ActionMessages(
    add: ErrorMessageTable, update: ErrorMessageTable, delete: ErrorMessageTable, order: ErrorMessageTable)

  /** OrderCartItemsData: the ids to order and the six checkout-cost fields. */
  datatype OrderCartItemsData = OrderCartItemsData(
    cartItemIds: seq<int>,
    totalItemPrice: int,
    totalItemDiscountAmount: int,
    totalMemberDiscountAmount: int,
    discountedTotalItemPrice: int,
    shippingFee: int,
    totalPrice: int)

  /** The error-modal message after handleCartError: only a 400 or a 500
      replaces it, with the action's message for that status or else the
      error's own message; every other status leaves it as it was. */
  function MessageAfterError(current: string, error: HttpError, table: ErrorMessageTable): (m: string)
    ensures error.statusCode != BAD_REQUEST && error.statusCode != INTERNAL_SERVER_ERROR ==> m == current
    ensures (error.statusCode == BAD_REQUEST || error.statusCode == INTERNAL_SERVER_ERROR) ==>
              m == if error.statusCode in table then table[error.statusCode] else error.message
  {
    if error.statusCode == BAD_REQUEST || error.statusCode == INTERNAL_SERVER_ERROR then
      if error.statusCode in table then table[error.statusCode] else error.message
    else current
  }

  /** `Promise.all` over the delete calls, taken in sequence: the first
      failure, or None when every call succeeded. */
  method AwaitAll(responses: seq<Remote<()>>) returns (failure: Option<HttpError>)
    ensures failure.None? <==> forall i :: 0 <= i < |responses| ==> responses[i].Ok?
    ensures failure.Some? ==> exists i :: 0 <= i < |responses| && responses[i] == Failed(failure.value)
                                          && forall j :: 0 <= j < i ==> responses[j].Ok?
  {
    failure := None;
    var i := 0;
    while i < |responses| && failure.None?
      invariant 0 <= i <= |responses|
      invariant failure.None? ==> forall j :: 0 <= j < i ==> responses[j].Ok?
      invariant failure.Some? ==> 0 < i && responses[i - 1] == Failed(failure.value)
                                  && forall j :: 0 <= j < i - 1 ==> responses[j].Ok?
    {
      if responses[i].Failed? {
        failure := Some(responses[i].error);
      }
      i := i + 1;
    }
  }

  /** The state useCart reads and writes. */
  class CartHook {
    /** cartListState, shared with the store. */
    const cartListState: CartListState
    const helpers: CostHelpers
    const policy: ShippingPolicy
    const messages: ActionMessages
    /** errorModalMessageState */
    var errorModalMessage: string
    /** How many times currentMemberInformationState and orderListState were refreshed. */
    var memberInformationRefreshes: nat
    var orderListRefreshes: nat

    constructor (cartListState: CartListState, helpers: CostHelpers, policy: ShippingPolicy,
                 messages: ActionMessages, errorModalMessage: string)
      ensures this.cartListState == cartListState && this.helpers == helpers && this.policy == policy
      ensures this.messages == messages && this.errorModalMessage == errorModalMessage
      ensures memberInformationRefreshes == 0 && orderListRefreshes == 0
    {
      this.cartListState := cartListState;
      this.helpers := helpers;
      this.policy := policy;
      this.messages := messages;
      this.errorModalMessage := errorModalMessage;
      memberInformationRefreshes := 0;
      orderListRefreshes := 0;
    }

    /** refreshCart: replace the cart list with the freshly fetched one. */
    method RefreshCart(newCartList: seq<CartLine>)
      modifies cartListState`cartList
      ensures cartListState.cartList == newCartList
    {
      cartListState.cartList := newCartList;
    }

    /** updateCart: append one line at the end, never merging it with another. */
    method UpdateCart(cartItem: CartLine)
      modifies cartListState`cartList
      ensures cartListState.cartList == old(cartListState.cartList) + [cartItem]
    {
      cartListState.cartList := cartListState.cartList + [cartItem];
    }

    /** handleCartError */
    method HandleCartError(error: HttpError, table: ErrorMessageTable)
      modifies this`errorModalMessage
      ensures errorModalMessage == MessageAfterError(old(errorModalMessage), error, table)
    {
      if error.statusCode == BAD_REQUEST {
        errorModalMessage := if error.statusCode in table then table[error.statusCode] else error.message;
      }
      if error.statusCode == INTERNAL_SERVER_ERROR {
        errorModalMessage := if error.statusCode in table then table[error.statusCode] else error.message;
      }
    }

    /** addItem: POST the product; on success append a line with quantity 1
        whose id is the number in the last segment of the Location header. */
    method AddItem(product: Product, response: Remote<Option<string>>)
      modifies this`errorModalMessage, cartListState`cartList
      ensures response.Ok? && CartItemIdOf(response.value).Some? ==>
                cartListState.cartList == old(cartListState.cartList) + [CartLine(CartItemIdOf(response.value).value, 1, product)]
      ensures response.Ok? && CartItemIdOf(response.value).None? ==> cartListState.cartList == old(cartListState.cartList)
      ensures response.Ok? ==> errorModalMessage == old(errorModalMessage)
      ensures response.Failed? ==> cartListState.cartList == old(cartListState.cartList)
      ensures response.Failed? ==> errorModalMessage == MessageAfterError(old(errorModalMessage), response.error, messages.add)
    {
      match response
      case Ok(location) =>
        var cartItemId := CartItemIdOf(location);
        if cartItemId.Some? {
          UpdateCart(CartLine(cartItemId.value, 1, product));
        }
      case Failed(error) =>
        HandleCartError(error, messages.add);
    }

    /** updateItemQuantity: write the quantity locally first, then PATCH; a
        failed PATCH only sets the error message and restores nothing. */
    method UpdateItemQuantity(cartItemId: int, quantity: int, response: Remote<()>)
      modifies this`errorModalMessage, cartListState`cartList
      ensures cartListState.cartList
           == AfterQuantityWrite(cartListState.domain, old(cartListState.cartList), cartItemId, Quantity(quantity))
      ensures response.Ok? ==> errorModalMessage == old(errorModalMessage)
      ensures response.Failed? ==> errorModalMessage == MessageAfterError(old(errorModalMessage), response.error, messages.update)
    {
      cartListState.SetItemQuantity(cartItemId, Quantity(quantity));
      if response.Failed? {
        HandleCartError(response.error, messages.update);
      }
    }

    /** removeItem: DELETE one line; refresh the cart only on success. */
    method RemoveItem(cartItemId: int, response: Remote<()>, refetched: seq<CartLine>)
      modifies this`errorModalMessage, cartListState`cartList
      ensures response.Ok? ==> cartListState.cartList == refetched && errorModalMessage == old(errorModalMessage)
      ensures response.Failed? ==> cartListState.cartList == old(cartListState.cartList)
      ensures response.Failed? ==> errorModalMessage == MessageAfterError(old(errorModalMessage), response.error, messages.delete)
    {
      match response
      case Ok(_) =>
        RefreshCart(refetched);
      case Failed(error) =>
        HandleCartError(error, messages.delete);
    }

    /** removeCheckedItems: DELETE every id; one failure fails the whole
        action, so the cart is refreshed only when every delete succeeded. */
    method RemoveCheckedItems(cartItemIds: seq<int>, responses: seq<Remote<()>>, refetched: seq<CartLine>)
      requires |responses| == |cartItemIds|
      modifies this`errorModalMessage, cartListState`cartList
      ensures (forall i :: 0 <= i < |responses| ==> responses[i].Ok?) ==>
                cartListState.cartList == refetched && errorModalMessage == old(errorModalMessage)
      ensures (exists i :: 0 <= i < |responses| && responses[i].Failed?) ==>
                cartListState.cartList == old(cartListState.cartList)
      ensures (exists i :: 0 <= i < |responses| && responses[i].Failed?) ==>
                exists i :: 0 <= i < |responses| && responses[i].Failed? && (forall j :: 0 <= j < i ==> responses[j].Ok?)
                            && errorModalMessage == MessageAfterError(old(errorModalMessage), responses[i].error, messages.delete)
    {
      var failure := AwaitAll(responses);
      match failure
      case None =>
        RefreshCart(refetched);
      case Some(error) =>
        HandleCartError(error, messages.delete);
    }

    /** orderCheckedItems: build the order from a copy of the ids and the
        current checkout summary, POST it, and on success refresh the cart and
        invalidate the member-information and order-list caches. */
    method OrderCheckedItems(cartItemIds: seq<int>, checked: set<int>, member: MemberInformation,
                             response: Remote<string>, refetched: seq<CartLine>)
      returns (request: OrderCartItemsData)
      modifies this, cartListState`cartList
      ensures var costs := CheckoutCostsOf(old(cartListState.cartList), checked, member, helpers, policy);
              request == OrderCartItemsData(cartItemIds, costs.totalItemPrice, costs.totalItemDiscountAmount,
                                            costs.totalMemberDiscountAmount, costs.discountedTotalItemPrice,
                                            costs.shippingFee, costs.totalPrice)
      ensures request.totalPrice == request.discountedTotalItemPrice + request.shippingFee
      ensures response.Ok? ==>
                && cartListState.cartList == refetched
                && memberInformationRefreshes == old(memberInformationRefreshes) + 1
                && orderListRefreshes == old(orderListRefreshes) + 1
                && errorModalMessage == old(errorModalMessage)
      ensures response.Failed? ==>
                && cartListState.cartList == old(cartListState.cartList)
                && memberInformationRefreshes == old(memberInformationRefreshes)
                && orderListRefreshes == old(orderListRefreshes)
                && errorModalMessage == MessageAfterError(old(errorModalMessage), response.error, messages.order)
    {
      var costs := CheckoutCostsOf(cartListState.cartList, checked, member, helpers, policy);
      request := OrderCartItemsData(cartItemIds, costs.totalItemPrice, costs.totalItemDiscountAmount,
                                    costs.totalMemberDiscountAmount, costs.discountedTotalItemPrice,
                                    costs.shippingFee, costs.totalPrice);
      match response
      case Ok(_) =>
        RefreshCart(refetched);
        memberInformationRefreshes := memberInformationRefreshes + 1;
        orderListRefreshes := orderListRefreshes + 1;
      case Failed(error) =>
        HandleCartError(error, messages.order);
    }
  }
}
