/** The cart list state and what is derived from it: the id list, the line
    lookup by product, the item count, the per-line quantity (read and
    write), and the checkout-cost summary of the checked lines. */
module CartStore {
  import opened CartTypes

  /** cartIdListState: the ids of the cart lines, in cart order. */
  function CartIdList(cart: seq<CartLine>): (ids: seq<int>)
    ensures |ids| == |cart|
    ensures forall i :: 0 <= i < |cart| ==> ids[i] == cart[i].id
  {
    if cart == [] then [] else [cart[0].id] + CartIdList(cart[1..])
  }

  /** cartItemIdState(productId): the id of the first line holding the
      product, or None (null) when no line holds it. */
  function CartItemId(cart: seq<CartLine>, productId: int): (r: Option<int>)
    ensures r.None? <==> forall i :: 0 <= i < |cart| ==> cart[i].product.id != productId
    ensures r.Some? ==> exists i :: 0 <= i < |cart| && cart[i].product.id == productId && cart[i].id == r.value
                                    && forall j :: 0 <= j < i ==> cart[j].product.id != productId
  {
    if cart == [] then None
    else if cart[0].product.id == productId then Some(cart[0].id)
    else
      var r := CartItemId(cart[1..], productId);
      assert r.Some? ==> exists i :: 1 <= i < |cart| && cart[i].product.id == productId && cart[i].id == r.value
                                     && forall j :: 1 <= j < i ==> cart[j].product.id != productId by {
        if r.Some? {
          var k :| 0 <= k < |cart[1..]| && cart[1..][k].product.id == productId && cart[1..][k].id == r.value
                   && forall j :: 0 <= j < k ==> cart[1..][j].product.id != productId;
          assert forall j :: 1 <= j < k + 1 ==> cart[j].product.id != productId by {
            forall j | 1 <= j < k + 1 ensures cart[j].product.id != productId {
              assert cart[j] == cart[1..][j - 1];
            }
          }
        }
      }
      r
  }

  /** Appending a line never hides an earlier line of the same product: the
      lookup answers the earlier line when there is one, and the new line otherwise. */
  lemma {:induction false} CartItemIdAfterAppend(cart: seq<CartLine>, line: CartLine)
    ensures CartItemId(cart + [line], line.product.id)
         == if CartItemId(cart, line.product.id).Some? then CartItemId(cart, line.product.id) else Some(line.id)
    decreases |cart|
  {
    if cart == [] {
      assert cart + [line] == [line];
    } else {
      assert (cart + [line])[1..] == cart[1..] + [line];
      CartItemIdAfterAppend(cart[1..], line);
    }
  }

  /** cartListItemCountState: one count per cart line, so as many as there are ids. */
  function ItemCount(cart: seq<CartLine>): (n: nat)
    ensures n == |CartIdList(cart)|
  {
    |cart|
  }

  /** cartItemQuantityState(cartItemId) read: the quantity of the first line
      with that id, or 0 when no line has it. */
  function ItemQuantity(cart: seq<CartLine>, cartItemId: int): (q: int)
    ensures !HasLine(cart, cartItemId) ==> q == 0
    ensures forall i :: (0 <= i < |cart| && cart[i].id == cartItemId
                         && forall j :: 0 <= j < i ==> cart[j].id != cartItemId) ==> q == cart[i].quantity
  {
    if cart == [] then 0
    else if cart[0].id == cartItemId then cart[0].quantity
    else
      var q := ItemQuantity(cart[1..], cartItemId);
      assert !HasLine(cart, cartItemId) ==> !HasLine(cart[1..], cartItemId) by {
        if HasLine(cart[1..], cartItemId) {
          var k :| 0 <= k < |cart[1..]| && cart[1..][k].id == cartItemId;
          assert cart[k + 1].id == cartItemId;
        }
      }
      assert forall i :: (1 <= i < |cart| && cart[i].id == cartItemId
                          && forall j :: 1 <= j < i ==> cart[j].id != cartItemId) ==> q == cart[i].quantity by {
        forall i | 1 <= i < |cart| && cart[i].id == cartItemId && (forall j :: 1 <= j < i ==> cart[j].id != cartItemId)
          ensures q == cart[i].quantity
        {
          assert cart[1..][i - 1] == cart[i];
          forall j | 0 <= j < i - 1 ensures cart[1..][j].id != cartItemId {
            assert cart[1..][j] == cart[j + 1];
          }
        }
      }
      q
  }

  /** The quantity read finds a line exactly for the ids the id list shows;
      the ids it does not show read as 0. */
  lemma QuantityOfListedIds(cart: seq<CartLine>, cartItemId: int)
    ensures HasLine(cart, cartItemId) <==> cartItemId in CartIdList(cart)
    ensures cartItemId !in CartIdList(cart) ==> ItemQuantity(cart, cartItemId) == 0
  {
    var ids := CartIdList(cart);
    if cartItemId in ids {
      var k :| 0 <= k < |ids| && ids[k] == cartItemId;
      assert cart[k].id == cartItemId;
    }
  }

  /** The value written through cartItemQuantityState: a number, or Recoil's
      DefaultValue when the state is reset. */
  datatype QuantityInput = Reset | Quantity(n: int)

  /** `!quantity || quantity instanceof DefaultValue`: the writes the setter ignores.
      Of the falsy numbers only 0 is an integer. */
  predicate IsIgnoredWrite(value: QuantityInput): (ignored: bool)
    ensures !ignored <==> value.Quantity? && value.n != 0
  {
    value.Reset? || value.n == 0
  }

  /** The cart list after a quantity write: unchanged for an ignored write or
      when changeCartItemQuantity finds no line, otherwise its result. */
  ghost function AfterQuantityWrite(domain: CartDomain, prev: seq<CartLine>, cartItemId: int, value: QuantityInput): (r: seq<CartLine>)
    ensures r != prev ==> !IsIgnoredWrite(value) && domain.changeCartItemQuantity(prev, cartItemId, value.n) == Some(r)
    ensures !IsIgnoredWrite(value) && domain.changeCartItemQuantity(prev, cartItemId, value.n).Some? ==>
              r == domain.changeCartItemQuantity(prev, cartItemId, value.n).value
  {
    if IsIgnoredWrite(value) then prev
    else match domain.changeCartItemQuantity(prev, cartItemId, value.n)
      case Some(updated) => updated
      case None => prev
  }

  /** A write the setter ignores leaves the list exactly as it was. */
  lemma IgnoredWriteKeepsCart(domain: CartDomain, prev: seq<CartLine>, cartItemId: int, value: QuantityInput)
    requires IsIgnoredWrite(value)
    ensures AfterQuantityWrite(domain, prev, cartItemId, value) == prev
  {
  }

  /** Writing a quantity for an id no line has keeps the previous list,
      since changeCartItemQuantity reports exactly that case as a failure. */
  lemma MissingLineWriteKeepsCart(domain: CartDomain, prev: seq<CartLine>, cartItemId: int, value: QuantityInput)
    requires domain.ChangeFailsOnlyOnMissingLine()
    requires !HasLine(prev, cartItemId)
    ensures AfterQuantityWrite(domain, prev, cartItemId, value) == prev
  {
    if !IsIgnoredWrite(value) {
      assert domain.changeCartItemQuantity(prev, cartItemId, value.n).None?;
    }
  }

  /** cartListState: the atom holding the cart list. */
  class CartListState {
    var cartList: seq<CartLine>
    /** The domain/cart helpers the setter calls. */
    const domain: CartDomain

    constructor (domain: CartDomain, initial: seq<CartLine>)
      ensures this.domain == domain && cartList == initial
    {
      this.domain := domain;
      cartList := initial;
    }

    /** cartItemQuantityState(cartItemId) write. */
    method SetItemQuantity(cartItemId: int, value: QuantityInput)
      modifies this`cartList
      ensures cartList == AfterQuantityWrite(domain, old(cartList), cartItemId, value)
      ensures IsIgnoredWrite(value) ==> cartList == old(cartList)
      ensures domain.ChangeFailsOnlyOnMissingLine() && !HasLine(old(cartList), cartItemId) ==> cartList == old(cartList)
    {
      if IsIgnoredWrite(value) {
        return;
      }
      var updated := domain.changeCartItemQuantity(cartList, cartItemId, value.n);
      if updated.Some? {
        cartList := updated.value;
      }
      if domain.ChangeFailsOnlyOnMissingLine() && !HasLine(old(cartList), cartItemId) {
        MissingLineWriteKeepsCart(domain, old(cartList), cartItemId, value);
      }
    }
  }

  /** The lines whose id is in the checked set, in cart order. */
  function CheckedCartItems(cart: seq<CartLine>, checked: set<int>): (items: seq<CartLine>)
    ensures |items| <= |cart|
    ensures forall line :: line in items <==> line in cart && line.id in checked
  {
    if cart == [] then []
    else if cart[0].id in checked then [cart[0]] + CheckedCartItems(cart[1..], checked)
    else CheckedCartItems(cart[1..], checked)
  }

  /** Filtering a concatenation filters each part and keeps their order. */
  lemma {:induction false} CheckedCartItemsAppend(a: seq<CartLine>, b: seq<CartLine>, checked: set<int>)
    ensures CheckedCartItems(a + b, checked) == CheckedCartItems(a, checked) + CheckedCartItems(b, checked)
    decreases |a|
  {
    if a != [] {
      assert (a + b)[1..] == a[1..] + b;
      CheckedCartItemsAppend(a[1..], b, checked);
    } else {
      assert a + b == b;
    }
  }

  /** The checked lines of the checked lines are the checked lines. */
  lemma {:induction false} CheckedCartItemsIdempotent(cart: seq<CartLine>, checked: set<int>)
    ensures CheckedCartItems(CheckedCartItems(cart, checked), checked) == CheckedCartItems(cart, checked)
    decreases |cart|
  {
    if cart != [] {
      CheckedCartItemsIdempotent(cart[1..], checked);
      if cart[0].id in checked {
        var rest := CheckedCartItems(cart[1..], checked);
        assert ([cart[0]] + rest)[1..] == rest;
      }
    }
  }

  /** When every line is checked, the checked lines are the whole cart. */
  lemma {:induction false} AllCheckedIsWholeCart(cart: seq<CartLine>, checked: set<int>)
    requires forall i :: 0 <= i < |cart| ==> cart[i].id in checked
    ensures CheckedCartItems(cart, checked) == cart
    decreases |cart|
  {
    if cart != [] {
      AllCheckedIsWholeCart(cart[1..], checked);
      assert [cart[0]] + cart[1..] == cart;
    }
  }

  /** The six fields of the checkout summary. */
  datatype CheckoutCosts = CheckoutCosts(
    totalItemPrice: int,
    totalItemDiscountAmount: int,
    totalMemberDiscountAmount: int,
    discountedTotalItemPrice: int,
    shippingFee: int,
    totalPrice: int)

  /** The helpers of utils/costs, called on the checked lines. Their
      arithmetic is not part of this model. */
  datatype CostHelpers = CostHelpers(
    totalItemDiscountAmount: seq<CartLine> -> int,
    totalMemberDiscountAmount: (seq<CartLine>, MemberInformation) -> int,
    totalItemPrice: seq<CartLine> -> int,
    discountedTotalItemPrice: (int, int, int) -> int)

  /** SHIPPING_FEE and SHIPPING_FEE_EXEMPTION_CONDITION. */
  datatype ShippingPolicy = ShippingPolicy(fee: int, exemptionCondition: int)

  /** cartListCheckoutCostsState: the summary of the checked lines for the
      given member. Shipping is free strictly above the exemption condition
      or when nothing is checked; the total is the discounted price plus shipping. */
  function CheckoutCostsOf(cart: seq<CartLine>, checked: set<int>, member: MemberInformation,
                           helpers: CostHelpers, policy: ShippingPolicy): (c: CheckoutCosts)
    ensures var items := CheckedCartItems(cart, checked);
            && c.totalItemPrice == helpers.totalItemPrice(items)
            && c.totalItemDiscountAmount == helpers.totalItemDiscountAmount(items)
            && c.totalMemberDiscountAmount == helpers.totalMemberDiscountAmount(items, member)
            && c.discountedTotalItemPrice
               == helpers.discountedTotalItemPrice(c.totalItemDiscountAmount, c.totalMemberDiscountAmount, c.totalItemPrice)
    ensures c.discountedTotalItemPrice > policy.exemptionCondition ==> c.shippingFee == 0
    ensures checked == {} ==> c.shippingFee == 0
    ensures checked != {} && c.discountedTotalItemPrice <= policy.exemptionCondition ==> c.shippingFee == policy.fee
    ensures c.totalPrice == c.discountedTotalItemPrice + c.shippingFee
  {
    var items := CheckedCartItems(cart, checked);
    var totalItemDiscountAmount := helpers.totalItemDiscountAmount(items);
    var totalMemberDiscountAmount := helpers.totalMemberDiscountAmount(items, member);
    var totalItemPrice := helpers.totalItemPrice(items);
    var discountedTotalItemPrice := helpers.discountedTotalItemPrice(totalItemDiscountAmount, totalMemberDiscountAmount, totalItemPrice);
    var shippingFee := if discountedTotalItemPrice > policy.exemptionCondition || |checked| == 0 then 0 else policy.fee;
    CheckoutCosts(totalItemPrice, totalItemDiscountAmount, totalMemberDiscountAmount,
                  discountedTotalItemPrice, shippingFee, discountedTotalItemPrice + shippingFee)
  }

  /** The summary depends on the cart only through its checked lines. */
  lemma CostsDependOnlyOnCheckedLines(cart: seq<CartLine>, checked: set<int>, member: MemberInformation,
                                      helpers: CostHelpers, policy: ShippingPolicy)
    ensures CheckoutCostsOf(cart, checked, member, helpers, policy)
         == CheckoutCostsOf(CheckedCartItems(cart, checked), checked, member, helpers, policy)
  {
    CheckedCartItemsIdempotent(cart, checked);
  }

  /** A line that is not checked never changes any field of the summary. */
  lemma UncheckedLineDoesNotCount(cart: seq<CartLine>, line: CartLine, checked: set<int>, member: MemberInformation,
                                  helpers: CostHelpers, policy: ShippingPolicy)
    requires line.id !in checked
    ensures CheckoutCostsOf(cart + [line], checked, member, helpers, policy)
         == CheckoutCostsOf(cart, checked, member, helpers, policy)
  {
    CheckedCartItemsAppend(cart, [line], checked);
    assert CheckedCartItems([line], checked) == [];
    assert CheckedCartItems(cart, checked) + [] == CheckedCartItems(cart, checked);
  }

  /** A price equal to the exemption condition still pays the shipping fee. */
  lemma ThresholdStillPays(cart: seq<CartLine>, checked: set<int>, member: MemberInformation,
                           helpers: CostHelpers, policy: ShippingPolicy)
    requires checked != {}
    requires CheckoutCostsOf(cart, checked, member, helpers, policy).discountedTotalItemPrice == policy.exemptionCondition
    ensures CheckoutCostsOf(cart, checked, member, helpers, policy).shippingFee == policy.fee
    ensures CheckoutCostsOf(cart, checked, member, helpers, policy).totalPrice == policy.exemptionCondition + policy.fee
  {
  }

  /** A non-empty checked set none of whose ids is in the cart prices no line,
      yet the shipping fee is charged unless the price of nothing exceeds the
      exemption condition: the waiver looks at the set, not at the lines. */
  lemma StaleSelectionStillPays(cart: seq<CartLine>, checked: set<int>, member: MemberInformation,
                                helpers: CostHelpers, policy: ShippingPolicy)
    requires checked != {}
    requires forall i :: 0 <= i < |cart| ==> cart[i].id !in checked
    requires helpers.discountedTotalItemPrice(helpers.totalItemDiscountAmount([]), helpers.totalMemberDiscountAmount([], member),
                                              helpers.totalItemPrice([])) <= policy.exemptionCondition
    ensures CheckedCartItems(cart, checked) == []
    ensures CheckoutCostsOf(cart, checked, member, helpers, policy).shippingFee == policy.fee
  {
  }
}
