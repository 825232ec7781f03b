# Cupcake order state holder, in Dafny

This project models the order state holder of the Cupcakes Android app:
the `OrderViewModel` class that every screen of the ordering flow shares.
It holds the order in progress: its quantity, flavor, pickup date and price.
It also holds the four pickup-date options, today and the three days after.
Its pricing rule charges 2.00 per cupcake, plus 3.00 when the pickup date is
the first ("today") option.

- `order_view_model.dfy`, module `OrderModel`:
  - the price constants;
  - the pricing rule `Price` and lemmas about it;
  - `PickupOptions`, the loop that builds the four date options;
  - the class `OrderViewModel`. Its fields are `quantity`, `flavor`, `date` and `price`.
    Its pickup options are a `const dateOptions`, so they cannot change after construction.
    Each method's `modifies` clause names exactly the fields the source assigns.
- `order_flow.dfy`, module `OrderFlow`:
  - the start screen's `orderCupcake` as a client of the class;
  - three order flows whose outcomes follow from the class contracts alone.

Prices are whole cents: 200 per cupcake and a 300 same-day surcharge.
Both constants are whole numbers of cents, and a Kotlin `Int` quantity times
2.00 is exact in a `Double`, so integer cents give the same values.

The clock and the date formatter are parameters of the constructor:
- `today` is a day number;
- `formatter: int -> string` writes a day in the locale's short
  weekday/month/day form.

The constructor runs `PickupOptions` first and then `ResetOrder`, in the same
order as the source: the property initialiser, then the `init` block.

The model keeps one quirk of the source. `resetOrder` sets the price to 0
directly and sets the date to the same-day option. So right after a reset
(and right after construction) the price is 0, whereas the pricing rule would
give 300. `ResetOrder` states this with `!PriceConsistent()`. The surcharge
appears only after the next `setQuantity` or `setDate`.

## Model

| member | source | states |
|---|---|---|
| `OrderModel.Price` | app/src/main/java/com/example/cupcakes/model/OrderViewModel.kt:115-122 | the reference definition of the pricing rule that `UpdatePrice`, `SetQuantity` and `SetDate` are proved against; the price is never negative for a non-negative quantity |
| `OrderModel.PriceOfOneMore` | app/src/main/java/com/example/cupcakes/model/OrderViewModel.kt:116 | each further cupcake adds exactly 200 cents, whatever the date |
| `OrderModel.SameDaySurcharge` | app/src/main/java/com/example/cupcakes/model/OrderViewModel.kt:118-120 | moving the pickup from any other date to today adds exactly 300 cents |
| `OrderModel.PickupOptions` | app/src/main/java/com/example/cupcakes/model/OrderViewModel.kt:127-145 | the result has exactly 4 entries, and entry k is the formatted day today + k: consecutive days starting today |
| `OrderModel.OrderViewModel.constructor` | app/src/main/java/com/example/cupcakes/model/OrderViewModel.kt:51-72 | the date options are computed before the reset runs; the new order has 4 options (option k is day today + k), quantity 0, flavor "", date = option 0, price 0 and no flavor set |
| `OrderModel.OrderViewModel.SetQuantity` | app/src/main/java/com/example/cupcakes/model/OrderViewModel.kt:79-82 | quantity becomes n; flavor and date are unchanged; price becomes n × 200, plus 300 iff the date is option 0, so the price agrees with the rule |
| `OrderModel.OrderViewModel.SetFlavor` | app/src/main/java/com/example/cupcakes/model/OrderViewModel.kt:85-87 | flavor becomes f; quantity, date and price are unchanged (price not recomputed); whether the price agrees with the rule is unchanged; no flavor is set iff f is empty |
| `OrderModel.OrderViewModel.SetDate` | app/src/main/java/com/example/cupcakes/model/OrderViewModel.kt:90-94 | date becomes d; quantity and flavor are unchanged; price becomes quantity × 200, plus 300 iff d is option 0 |
| `OrderModel.OrderViewModel.HasNoFlavorSet` | app/src/main/java/com/example/cupcakes/model/OrderViewModel.kt:98-100 | true iff the flavor is the empty string |
| `OrderModel.OrderViewModel.ResetOrder` | app/src/main/java/com/example/cupcakes/model/OrderViewModel.kt:105-110 | quantity 0, flavor "", date = option 0, price 0, no flavor set; the price then does NOT agree with the rule, which would give 300 |
| `OrderModel.OrderViewModel.UpdatePrice` | app/src/main/java/com/example/cupcakes/model/OrderViewModel.kt:115-122 | only the price changes; it becomes the rule's price for the current quantity and date |
| `OrderFlow.OrderCupcake` | app/src/main/java/com/example/cupcakes/StartFragment.kt:66-74 | quantity is set and the price agrees with the rule; the date is unchanged; an unset flavor becomes the default one and a chosen flavor stays; with a non-empty default, a flavor is set afterwards |
| `OrderFlow.SameDayPickupScenario` | app/src/main/java/com/example/cupcakes/model/OrderViewModel.kt:79-94 | on a new order with distinct first two options: 6 cupcakes cost 1500, 1200 once pickup moves to tomorrow, and 1500 again once pickup moves back to today |
| `OrderFlow.ResetPriceScenario` | app/src/main/java/com/example/cupcakes/model/OrderViewModel.kt:105-122 | after a reset the price is 0; setting the quantity to 0 then gives 300, the surcharge alone |
| `OrderFlow.FlavorScenario` | app/src/main/java/com/example/cupcakes/SummaryFragment.kt:69-73 | a reset order has no flavor; after choosing "Chocolate" it has one; 12 cupcakes picked up tomorrow total 2400 (24.00), and choosing the flavor again does not change that |

## Left out

- Observation: `LiveData`, `MutableLiveData` and `Transformations.map` push change notifications to the screens. The model keeps the values as plain fields and leaves out the notifications.
- Currency formatting: the `price` the screens see is the `Double` formatted by the locale's `NumberFormat`. The model keeps the amount in cents and does not format it.
- Floating point: the `Double` price is replaced by whole cents. This is exact for every `Int` quantity.
- Fixed-width integers: quantity is an unbounded `int`. The source's is a 32-bit `Int`, but no arithmetic here can overflow within that range.
- Clock and date formatting: the `Calendar` and the `SimpleDateFormat("E MMM d")` in `getPickupOptions` become the parameters `today` and `formatter`. The model does not check that consecutive day numbers give distinct strings. The scenarios that need distinct strings require them.
- Null values: the source reads `quantity.value ?: 0` and checks `isNullOrEmpty`. The fields are always set by the constructor, so there is no null state to model.
- Screens: layout binding, lifecycle callbacks and navigation in `StartFragment.kt`, `FlavorFragment.kt` and `SummaryFragment.kt` are UI glue. `cancelOrder` in the flavor and summary screens is `resetOrder` followed by navigation, so `ResetOrder` covers it.
- Sharing: `sendOrder` builds a share intent and hands it to the platform. That is a foreign call with no result, so it is not modelled.

