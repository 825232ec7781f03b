/** Clients of the order holder: what the start screen does with it, and the
    order flows that follow from its contracts alone. */
module OrderFlow {
  import opened OrderModel

  /** The start screen's button: record the quantity, then default the flavor
      to `vanilla` (the application's "Vanilla" string) if none is chosen yet.
      Navigation to the next screen is not part of this model. */
  method OrderCupcake(vm: OrderViewModel, quantity: int, vanilla: string)
    requires vm.Valid()
    modifies vm`quantity, vm`price, vm`flavor
    ensures vm.quantity == quantity && vm.date == old(vm.date)
    ensures vm.flavor == if old(vm.flavor) == "" then vanilla else old(vm.flavor)
    ensures vm.PriceConsistent()
    ensures vanilla != "" ==> !vm.HasNoFlavorSet()
  {
    vm.SetQuantity(quantity);
    if vm.HasNoFlavorSet() {
      vm.SetFlavor(vanilla);
    }
  }

  /** A fresh order of six cupcakes: the post-reset date is today, so the
      surcharge applies; moving the pickup to tomorrow removes it and moving
      it back to today restores it. Needs today's and tomorrow's option strings
      to differ, as they do for two consecutive days. */
  method SameDayPickupScenario(formatter: int -> string, today: int)
    returns (afterQuantity: int, afterTomorrow: int, afterToday: int)
    requires formatter(today) != formatter(today + 1)
    ensures afterQuantity == 1500 && afterTomorrow == 1200 && afterToday == 1500
  {
    var vm := new OrderViewModel(formatter, today);
    vm.SetQuantity(6);
    afterQuantity := vm.price;
    vm.SetDate(vm.dateOptions[1]);
    afterTomorrow := vm.price;
    vm.SetDate(vm.dateOptions[0]);
    afterToday := vm.price;
  }

  /** Right after a reset the price is 0 although the date is today; the
      surcharge shows up only once the quantity is set. */
  method ResetPriceScenario(formatter: int -> string, today: int)
    returns (afterReset: int, afterQuantity: int)
    ensures afterReset == 0 && afterQuantity == PriceForSameDayPickup
  {
    var vm := new OrderViewModel(formatter, today);
    vm.SetQuantity(12);
    vm.ResetOrder();
    afterReset := vm.price;
    vm.SetQuantity(0);
    afterQuantity := vm.price;
  }

  /** A reset order has no flavor and choosing "Chocolate" gives it one;
      twelve chocolate cupcakes picked up tomorrow then cost 24.00, and
      choosing the flavor again leaves that price alone. */
  method FlavorScenario(formatter: int -> string, today: int)
    returns (noFlavorAfterReset: bool, noFlavorAfterChoice: bool, total: int)
    requires formatter(today) != formatter(today + 1)
    ensures noFlavorAfterReset && !noFlavorAfterChoice && total == 2400
  {
    var vm := new OrderViewModel(formatter, today);
    vm.ResetOrder();
    noFlavorAfterReset := vm.HasNoFlavorSet();
    vm.SetFlavor("Chocolate");
    noFlavorAfterChoice := vm.HasNoFlavorSet();
    vm.SetQuantity(12);
    vm.SetDate(vm.dateOptions[1]);
    vm.SetFlavor("Chocolate");
    total := vm.price;
  }
}
