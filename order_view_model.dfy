/** The cupcake order state holder: quantity, flavor, pickup date and price of
    the order in progress, the four pickup-date options, and the pricing rule.
    Prices are whole cents; both price constants are whole numbers of cents, so
    nothing is lost against the Double arithmetic of the application. */
module OrderModel {

  /** Price of one cupcake, in cents (2.00). */
  const PricePerCupcake: int := 200

  /** Surcharge for picking the order up on the day it is placed, in cents (3.00). */
  const PriceForSameDayPickup: int := 300

  /** Number of pickup-date options offered: today and the three days after it. */
  const PickupDays: nat := 4

  /** The pricing rule: every cupcake costs PricePerCupcake, and picking up on the
      first ("today") option adds PriceForSameDayPickup. */
  function Price(quantity: int, pickupDate: string, today: string): (p: int)
    ensures quantity >= 0 ==> p >= 0
  {
    quantity * PricePerCupcake + (if pickupDate == today then PriceForSameDayPickup else 0)
  }

  /** Each further cupcake adds exactly PricePerCupcake, whatever the date. */
  lemma PriceOfOneMore(quantity: int, pickupDate: string, today: string)
    ensures Price(quantity + 1, pickupDate, today) == Price(quantity, pickupDate, today) + PricePerCupcake
  {
  }

  /** Moving the pickup from any other day to today costs exactly the surcharge. */
  lemma SameDaySurcharge(quantity: int, otherDate: string, today: string)
    requires otherDate != today
    ensures Price(quantity, today, today) == Price(quantity, otherDate, today) + PriceForSameDayPickup
  {
  }

  /** The pickup options: PickupDays consecutive days starting at `today` (a
      day number read from the clock), each written by `formatter` (the
      locale's short weekday/month/day form). The list is filled one day at a
      time while the calendar is advanced by one day. */
  method PickupOptions(formatter: int -> string, today: int) returns (options: seq<string>)
    ensures |options| == PickupDays
    ensures forall k :: 0 <= k < |options| ==> options[k] == formatter(today + k)
  {
    options := [];
    var calendar := today;
    for i := 0 to PickupDays
      invariant |options| == i
      invariant calendar == today + i
      invariant forall k :: 0 <= k < i ==> options[k] == formatter(today + k)
    {
      options := options + [formatter(calendar)];
      calendar := calendar + 1;
    }
  }

  /** The order in progress, shared by every screen of the flow. */
  class OrderViewModel {
    /** Number of cupcakes ordered. */
    var quantity: int
    /** Chosen flavor; the empty string means none chosen yet. */
    var flavor: string
    /** Chosen pickup date, one of the option strings in practice. */
    var date: string
    /** Price of the order so far, in cents. */
    var price: int
    /** The pickup-date options, computed once when the order holder is created. */
    const dateOptions: seq<string>

    /** The object invariant: exactly PickupDays options. */
    predicate Valid()
    {
      |dateOptions| == PickupDays
    }

    /** The price agrees with the pricing rule for the current quantity and date. */
    predicate PriceConsistent()
      reads this
      requires Valid()
    {
      price == Price(quantity, date, dateOptions[0])
    }

    /** Creates the order holder: the date options are computed first, from the
        clock and the formatter, and then the order starts out reset. */
    constructor (formatter: int -> string, today: int)
      ensures Valid()
      ensures forall k :: 0 <= k < |dateOptions| ==> dateOptions[k] == formatter(today + k)
      ensures quantity == 0 && flavor == "" && date == dateOptions[0] && price == 0
      ensures HasNoFlavorSet()
    {
      var options := PickupOptions(formatter, today);
      dateOptions := options;
      new;
      ResetOrder();
    }

    /** Sets the number of cupcakes and recomputes the price. */
    method SetQuantity(numberCupcakes: int)
      requires Valid()
      modifies this`quantity, this`price
      ensures quantity == numberCupcakes
      ensures flavor == old(flavor) && date == old(date)
      ensures price == numberCupcakes * PricePerCupcake + (if date == dateOptions[0] then PriceForSameDayPickup else 0)
      ensures PriceConsistent()
    {
      quantity := numberCupcakes;
      UpdatePrice();
    }

    /** Sets the flavor; the price is not recomputed. */
    method SetFlavor(desiredFlavor: string)
      requires Valid()
      modifies this`flavor
      ensures flavor == desiredFlavor
      ensures quantity == old(quantity) && date == old(date) && price == old(price)
      ensures PriceConsistent() <==> old(PriceConsistent())
      ensures HasNoFlavorSet() <==> desiredFlavor == ""
    {
      flavor := desiredFlavor;
    }

    /** Sets the pickup date and recomputes the price. */
    method SetDate(pickupDate: string)
      requires Valid()
      modifies this`date, this`price
      ensures date == pickupDate
      ensures quantity == old(quantity) && flavor == old(flavor)
      ensures price == quantity * PricePerCupcake + (if pickupDate == dateOptions[0] then PriceForSameDayPickup else 0)
      ensures PriceConsistent()
    {
      date := pickupDate;
      UpdatePrice();
    }

    /** True iff no flavor has been chosen yet. */
    function HasNoFlavorSet(): (r: bool)
      reads this
      ensures r <==> |flavor| == 0
    {
      flavor == ""
    }

    /** Puts the order back to its defaults. The price is set to 0 directly,
        without the pricing rule, although the date becomes the same-day
        option: right after a reset the price is NOT the rule's price. */
    method ResetOrder()
      requires Valid()
      modifies this`quantity, this`flavor, this`date, this`price
      ensures quantity == 0 && flavor == "" && date == dateOptions[0] && price == 0
      ensures HasNoFlavorSet()
      ensures !PriceConsistent()
    {
      quantity := 0;
      flavor := "";
      date := dateOptions[0];
      price := 0;
    }

    /** Recomputes the price from the quantity and the date. */
    method UpdatePrice()
      requires Valid()
      modifies this`price
      ensures PriceConsistent()
      ensures price - quantity * PricePerCupcake == (if date == dateOptions[0] then PriceForSameDayPickup else 0)
    {
      var calculatedPrice := quantity * PricePerCupcake;
      if dateOptions[0] == date {
        calculatedPrice := calculatedPrice + PriceForSameDayPickup;
      }
      price := calculatedPrice;
    }
  }
}
