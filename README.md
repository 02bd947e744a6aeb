# Shopping-cart core, modelled in Dafny

This project models the cart core of a React storefront. It covers four parts:

- the cart list atom and what is derived from it (`src/store/cart.ts`): the id list, the line lookup by product, the item count, the per-line quantity read and write, and the checkout-cost summary of the checked lines;
- the cart hook (`src/hooks/useCart.ts`): add, quantity update, remove, remove-checked and order, each one remote call followed by its local reaction;
- the mock server's cart endpoints (`src/mocks/handlers/cart.ts`): GET, POST, PATCH and DELETE over one stored cart list;
- the member rank tables (`src/constants/member.ts`), with a derived `RankFor` lookup.

Files:

- `member.dfy` (module `MemberRank`) holds the tiers, thresholds, discount rates and `RankFor`.
- `types.dfy` (module `CartTypes`) holds products, cart lines, member information, HTTP errors, remote outcomes and the `domain/cart` helpers.
- `location.dfy` (module `Location`) holds the Location header as the server writes it and as the hook reads it back.
- `cart_store.dfy` (module `CartStore`) holds the derived state, the quantity setter (class `CartListState`, the atom) and the checkout summary.
- `mock_cart.dfy` (module `MockCartHandlers`) holds class `CartServer`, one method per endpoint.
- `use_cart.dfy` (module `UseCart`) holds class `CartHook`, one method per action.

Collaborators whose code is not part of this model are parameters:

- the four cost helpers of `utils/costs`;
- `addCartItem`, `changeCartItemQuantity` and `removeCartItem` of `domain/cart`;
- `SHIPPING_FEE` and `SHIPPING_FEE_EXEMPTION_CONDITION`;
- the per-action error-message tables and the `CART_POST` path.

The functions are fields of the datatypes `CostHelpers` and `CartDomain`. The only property assumed of `changeCartItemQuantity` is `CartDomain.ChangeFailsOnlyOnMissingLine`: it returns None exactly when no line has the id. Lemmas that need it take it as a precondition. No rounding or discount formula is assumed.

Every remote call is an input of the method that makes it: a success with its payload, or an `HttpError` with a status code. The same holds for the list a `refreshCart` fetches, the checked-id set and the member information.

Behaviour kept as the code has it:

- The quantity update is optimistic. The local write happens before the PATCH, and a failed PATCH does not roll it back.
- Adding a product that is already in the cart appends a second line for it.
- Shipping is waived when the checked-id SET is empty, not when no line is checked. A selection whose ids are all stale still pays the fee (`StaleSelectionStillPays`). With an empty selection the total is the discounted price of no lines. It is 0 only if the helpers make it so.
- `orderCheckedItems` takes its ids from its argument but prices the checked-id set of the store. The model keeps both inputs separate.

## Model

| member | source | states |
|---|---|---|
| MemberRank.RanksListEachTierOnce | src/constants/member.ts:3 | RANK has exactly five distinct tiers, labelled 일반, 실버, 골드, 플래티넘, 다이아몬드 in that order |
| MemberRank.PurchaseCondition | src/constants/member.ts:5-11 | the base tier needs 0, and the k-th tier above it needs 10^(k+5): 1,000,000 for 실버 up to 1,000,000,000 for 다이아몬드 |
| MemberRank.DiscountRate | src/constants/member.ts:13-19 | the rate is a percentage; five points per tier up to 플래티넘 (0, 5, 10, 15) and 30 for 다이아몬드 |
| MemberRank.PurchaseConditionsIncrease | src/constants/member.ts:5-11 | the base tier's threshold is 0 and thresholds strictly increase along RANK |
| MemberRank.DiscountRatesIncrease | src/constants/member.ts:13-19 | discount rates strictly increase along RANK and every rate lies in 0..100 |
| MemberRank.RankFor | src/constants/member.ts:5-11 | rankFor(amount) is a tier whose threshold is at most the amount, and no tier above it qualifies (total for every non-negative amount) |
| MemberRank.RankForMonotone | src/constants/member.ts:5-19 | a larger amount never yields a lower tier nor a smaller discount rate |
| Location.CartItemIdOf | src/hooks/useCart.ts:67-69 | a missing header is NaN; a header without a slash is `Number` of the whole header; a header ending in a slash has an empty last segment and reads as 0 |
| Location.LastSegment | src/hooks/useCart.ts:67 | `split('/').pop()` is the longest slash-free suffix of the header |
| Location.ParseNumber | src/hooks/useCart.ts:69 | `Number()`: the empty string is 0, digit strings are non-negative, anything accepted is digits with an optional leading minus |
| Location.NatToString | src/mocks/handlers/cart.ts:38 | the printed id is a non-empty digit string without a leading zero |
| Location.IntToString | src/mocks/handlers/cart.ts:38 | the printed id has no slash; a non-negative id prints as digits, a negative one as a minus sign followed by digits |
| Location.LocationOf | src/mocks/handlers/cart.ts:38 | the header starts with the path, and its last segment is exactly the printed id, whatever the path holds |
| Location.DigitsRoundTrip | src/mocks/handlers/cart.ts:38 | reading back the printed digits of n gives n |
| Location.NumberRoundTrip | src/hooks/useCart.ts:69 | `Number` of a printed integer id is that id |
| Location.LastSegmentAfterSlash | src/hooks/useCart.ts:67 | the last segment of `prefix/segment` is the segment when it has no slash |
| Location.LocationRoundTrip | src/mocks/handlers/cart.ts:38 | for any path, the hook reads back exactly the id the server printed into the Location header |
| CartStore.CartIdList | src/store/cart.ts:32-39 | the id list has the cart's length and lists the line ids in cart order |
| CartStore.CartItemId | src/store/cart.ts:41-50 | the id of the first line holding the product, and None exactly when no line holds it |
| CartStore.CartItemIdAfterAppend | src/hooks/useCart.ts:42-46 | after an append the product lookup still answers the earlier line of that product, and the new line only when none existed |
| CartStore.ItemCount | src/store/cart.ts:52-55 | the item count equals the length of the id list |
| CartStore.ItemQuantity | src/store/cart.ts:57-65 | the quantity of the first line with the id, or 0 when no line has it |
| CartStore.QuantityOfListedIds | src/store/cart.ts:57-65 | a line exists for an id exactly when the id list shows it, and unlisted ids read as quantity 0 |
| CartStore.IsIgnoredWrite | src/store/cart.ts:69 | a write is acted on exactly when it is a number other than 0; a reset is ignored |
| CartStore.AfterQuantityWrite | src/store/cart.ts:69-75 | the list changes only for a write that is not ignored, and then only to changeCartItemQuantity's result; a successful change is always taken |
| CartStore.IgnoredWriteKeepsCart | src/store/cart.ts:69 | a reset or a falsy (0) quantity write leaves the cart list unchanged |
| CartStore.MissingLineWriteKeepsCart | src/store/cart.ts:71-75 | writing the quantity of an id no line has keeps the previous list exactly |
| CartStore.CartListState.SetItemQuantity | src/store/cart.ts:66-76 | the new list is changeCartItemQuantity's result, or the old list for an ignored write or a failed change |
| CartStore.CheckedCartItems | src/store/cart.ts:85 | a line is among the checked items exactly when it is in the cart and its id is checked |
| CartStore.CheckedCartItemsAppend | src/store/cart.ts:85 | filtering a concatenation filters each part in order, so the checked items keep cart order |
| CartStore.CheckedCartItemsIdempotent | src/store/cart.ts:85 | filtering the checked items again changes nothing |
| CartStore.AllCheckedIsWholeCart | src/store/cart.ts:85 | when every line is checked the checked items are the whole cart |
| CartStore.CheckoutCostsOf | src/store/cart.ts:79-113 | all price fields come from the same checked-item list; shipping is 0 strictly above the exemption condition or with an empty checked set and the fee otherwise; total = discounted price + shipping |
| CartStore.CostsDependOnlyOnCheckedLines | src/store/cart.ts:85-97 | the summary of the cart equals the summary of its checked lines alone |
| CartStore.UncheckedLineDoesNotCount | src/store/cart.ts:85-97 | adding an unchecked line changes no field of the summary |
| CartStore.ThresholdStillPays | src/store/cart.ts:98-101 | a discounted price equal to the exemption condition still pays the fee |
| CartStore.StaleSelectionStillPays | src/store/cart.ts:98-101 | a non-empty checked set none of whose ids is in the cart prices no line yet still pays the fee |
| MockCartHandlers.PostLocation | src/mocks/handlers/cart.ts:38 | the Location header names the id of the last line of the new list |
| MockCartHandlers.PostLocationNamesLastLine | src/mocks/handlers/cart.ts:34-39 | the hook parses a successful POST's Location to the id of the last stored line |
| MockCartHandlers.EmptyPostLocationIsNaN | src/mocks/handlers/cart.ts:38 | an empty new list yields `.../undefined`, which the hook reads as NaN |
| MockCartHandlers.CartServer.Get | src/mocks/handlers/cart.ts:15-19 | GET answers 200 with the stored list and no Location |
| MockCartHandlers.CartServer.Post | src/mocks/handlers/cart.ts:21-41 | unresolvable product: 404 and the store unchanged; otherwise the new list is stored and 201 carries its Location and body |
| MockCartHandlers.CartServer.Patch | src/mocks/handlers/cart.ts:43-60 | a failed change gives 404 with the store unchanged, and 404 happens exactly for a missing line; otherwise the new list is stored and returned with 200 |
| MockCartHandlers.CartServer.Delete | src/mocks/handlers/cart.ts:62-77 | an empty store or a failed removal gives 404 with the store unchanged; otherwise the reduced list is stored and 204 has no body |
| UseCart.MessageAfterError | src/hooks/useCart.ts:50-61 | only 400 and 500 change the message, to the action's message for that status or else the error's own; any other status keeps it |
| UseCart.AwaitAll | src/hooks/useCart.ts:120-126 | no failure exactly when every delete succeeded; otherwise the first failing delete's error |
| UseCart.CartHook.RefreshCart | src/hooks/useCart.ts:33-40 | the cart list becomes the refetched list |
| UseCart.CartHook.UpdateCart | src/hooks/useCart.ts:42-48 | the cart list becomes the old list with the one line appended at the end |
| UseCart.CartHook.HandleCartError | src/hooks/useCart.ts:50-61 | the error-modal message becomes MessageAfterError of the old message |
| UseCart.CartHook.AddItem | src/hooks/useCart.ts:63-82 | success appends a line with quantity 1, the product and the Location id, leaving the message; failure leaves the cart and sets the add message |
| UseCart.CartHook.UpdateItemQuantity | src/hooks/useCart.ts:84-101 | the local quantity write happens whatever the PATCH outcome; a failure only sets the update message |
| UseCart.CartHook.RemoveItem | src/hooks/useCart.ts:103-118 | success replaces the cart with the refetched list; failure leaves the cart and sets the delete message |
| UseCart.CartHook.RemoveCheckedItems | src/hooks/useCart.ts:120-135 | the cart is refreshed only when every delete succeeded; one failure leaves the cart untouched and reports that failure |
| UseCart.CartHook.OrderCheckedItems | src/hooks/useCart.ts:137-171 | the request is the given ids plus exactly the six fields of the current summary; success refreshes the cart and both caches once each, failure only sets the order message |

## Left out

- UseCart.CartHook.AddItem: when the Location header is missing or its last segment is not a number, the source appends a line whose id is NaN. The model has no NaN id and leaves the cart unchanged in that case.
- Location.ParseNumber: covers the empty string, decimal digits and a leading minus. The other forms JavaScript's `Number` accepts (surrounding whitespace, `+`, hexadecimal, exponents, fractions) read as NaN here. The mock server prints an id in those forms only when its magnitude is 10^21 or more, where a template literal switches to exponent notation.
- Ids, quantities and prices are unbounded integers. A JavaScript number is exact only below 2^53 in magnitude, and a template literal prints it as plain digits only below 10^21, so `Location.NumberRoundTrip` and `Location.LocationRoundTrip` hold in the source only for ids in that range. Fractional numbers are not modelled.
- CartStore.IsIgnoredWrite: NaN, the other falsy number, cannot be written as an integer quantity, so only 0 and the reset value are ignored writes.
- UseCart.AwaitAll: `Promise.all` rejects with the failure that happens first in time. The model reports the first failure in request order, because the deletes run in sequence here.
- The arithmetic of `utils/costs` and the bodies of `domain/cart` are not part of this model. They are function parameters, and nothing about rounding, clamping or discount formulas is assumed.
- The values of `HTTP_STATUS_CODE`, `SHIPPING_FEE`, `SHIPPING_FEE_EXEMPTION_CONDITION` and the message tables: `constants/api` and `constants/index` are not part of this model. The status codes use their standard values (400, 404, 500, 200, 204). The source writes 201 as a literal.
- A failure of the GET inside `refreshCart` during an `onSuccess` reaction is not modelled. `useMutationFetch` is not part of this model, and the refetched list is an input.
- The toast (`setIsAdded`), `navigate` to the order-success page and the parsing of the order id are not modelled. They have no effect on the cart or on the error message.
- Recoil selector caching, memoisation and the initial `cartListQuery` fetch are not modelled. The atom's initial list is a constructor argument.
- The concurrency of in-flight mutations is not modelled. Every action runs to completion before the next one.
- `checkedCartIdListState` (the selection) and `currentMemberInformationState` (a remote fetch with credentials) are inputs. Keeping the selection consistent with the cart is not part of this core.
- The mock server's request parsing (`req.json`, the route parameter's string-to-number conversion) and its `ctx.delay`/`ctx.json` plumbing are not modelled.
- `src/api/orderAPI.ts`, `src/store/member.ts` and the UI components are outside the core.
