/**
 * The checkout panel of src/components/Cart/CartContent.tsx: the service type, timing,
 * scheduled time, payment method and error shown under the cart, the handlers that change
 * them, the displayed total, and `handleCheckout`, which turns the cart into a WhatsApp link,
 * then clears and closes the cart.
 *
 * `handleCheckout` passes its details object where `generateWhatsAppLink` expects the
 * language; `HandleCheckout` models that call as written, `HandleCheckoutIntended` the call
 * with the language and the details each in their own slot.
 */
module Checkout {
  import opened Wrappers
  import opened Text
  import opened Platform
  import opened Numbers
  import opened Ledger
  import opened Locale
  import opened WhatsApp

  const ScheduleError := "Please select a date and time for your order"

  /** What pressing "Confirm Order" does: nothing, show the error, or open the link. */
  datatype Outcome = Ignored | Rejected | Sent(link: string)

  /** The details object `handleCheckout` builds: no location fields. */
  function PanelDetails(serviceType: ServiceType, timing: Timing, scheduledTime: string, paymentMethod: PaymentMethod)
    : OrderDetails
  {
    OrderDetails(serviceType, timing, scheduledTime, paymentMethod, "", "", "", "", "", "", "", "")
  }

  /** A scheduled order needs a time; an order for now needs nothing more. */
  predicate MissingTime(timing: Timing, scheduledTime: string) {
    timing == Scheduled && scheduledTime == ""
  }

  class CartContent {
    const cart: CartStore
    var serviceType: ServiceType
    var timing: Timing
    var scheduledTime: string
    var paymentMethod: PaymentMethod
    var error: string

    /** The panel's state as the details object of a checkout. */
    function Details(): OrderDetails
      reads this
    {
      PanelDetails(serviceType, timing, scheduledTime, paymentMethod)
    }

    /** Takeaway, now, no time, cash, no error. */
    constructor (cart: CartStore)
      ensures this.cart == cart
      ensures serviceType == Takeaway && timing == Now && scheduledTime == ""
      ensures paymentMethod == Cash && error == ""
    {
      this.cart := cart;
      serviceType := Takeaway;
      timing := Now;
      scheduledTime := "";
      paymentMethod := Cash;
      error := "";
    }

    /** The "Total Amount" shown under the cart: the line totals, with no delivery fee. */
    function TotalPrice(): (r: real)
      reads this, cart
      ensures r == FinalTotal(cart.items, None)
    {
      LinesTotal(cart.items)
    }

    /** The "Total Items" shown under the cart. */
    function TotalItems(): real
      reads this, cart
    {
      cart.GetTotalItems()
    }

    method SetServiceType(s: ServiceType)
      modifies this
      ensures serviceType == s
      ensures timing == old(timing) && scheduledTime == old(scheduledTime)
      ensures paymentMethod == old(paymentMethod) && error == old(error)
    {
      serviceType := s;
    }

    /** Choosing "Now" also clears a pending error. */
    method ChooseNow()
      modifies this
      ensures timing == Now && error == ""
      ensures serviceType == old(serviceType) && scheduledTime == old(scheduledTime)
      ensures paymentMethod == old(paymentMethod)
    {
      timing := Now;
      error := "";
    }

    /** Choosing "Schedule" leaves a pending error in place. */
    method ChooseSchedule()
      modifies this
      ensures timing == Scheduled && error == old(error)
      ensures serviceType == old(serviceType) && scheduledTime == old(scheduledTime)
      ensures paymentMethod == old(paymentMethod)
    {
      timing := Scheduled;
    }

    /** Editing the date and time clears a pending error. */
    method EditScheduledTime(value: string)
      modifies this
      ensures scheduledTime == value && error == ""
      ensures serviceType == old(serviceType) && timing == old(timing)
      ensures paymentMethod == old(paymentMethod)
    {
      scheduledTime := value;
      error := "";
    }

    method SetPaymentMethod(p: PaymentMethod)
      modifies this
      ensures paymentMethod == p
      ensures serviceType == old(serviceType) && timing == old(timing)
      ensures scheduledTime == old(scheduledTime) && error == old(error)
    {
      paymentMethod := p;
    }

    /** "Clear All": `confirmed` is the answer to the confirmation dialog. */
    method ClearAll(confirmed: bool)
      modifies cart
      ensures confirmed ==> cart.items == []
      ensures !confirmed ==> cart.items == old(cart.items)
      ensures cart.isCartOpen == old(cart.isCartOpen)
    {
      if confirmed {
        cart.ClearCart();
      }
    }

    /**
     * `handleCheckout` as written: an empty cart is ignored; a scheduled order without a time
     * only sets the error; otherwise the link is built with the details object in the language
     * slot and no details, and the cart is cleared and closed. Opening the link and navigating
     * home are left to the caller.
     */
    method HandleCheckout(env: Env) returns (outcome: Outcome)
      modifies this, cart
      ensures serviceType == old(serviceType) && timing == old(timing)
      ensures scheduledTime == old(scheduledTime) && paymentMethod == old(paymentMethod)
      ensures old(cart.items) == [] ==>
        outcome == Ignored && error == old(error)
        && cart.items == old(cart.items) && cart.isCartOpen == old(cart.isCartOpen)
      ensures old(cart.items) != [] && MissingTime(old(timing), old(scheduledTime)) ==>
        outcome == Rejected && error == ScheduleError
        && cart.items == old(cart.items) && cart.isCartOpen == old(cart.isCartOpen)
      ensures old(cart.items) != [] && !MissingTime(old(timing), old(scheduledTime)) ==>
        outcome == Sent(WhatsAppLink(env, old(cart.items), DetailsObject(old(Details())), None))
        && error == old(error) && cart.items == [] && !cart.isCartOpen
    {
      if |cart.items| == 0 {
        return Ignored;
      }
      if timing == Scheduled && scheduledTime == "" {
        error := ScheduleError;
        return Rejected;
      }
      var details := OrderDetails(serviceType, timing, scheduledTime, paymentMethod, "", "", "", "", "", "", "", "");
      var link := GenerateLink(env, cart.items, DetailsObject(details), None);
      cart.ClearCart();
      cart.SetCartOpen(false);
      outcome := Sent(link);
    }

    /**
     * `handleCheckout` with the language of the page and the details each in their own slot;
     * the guards and the effects on the cart are those of `HandleCheckout`.
     */
    method HandleCheckoutIntended(env: Env, language: Language) returns (outcome: Outcome)
      modifies this, cart
      ensures serviceType == old(serviceType) && timing == old(timing)
      ensures scheduledTime == old(scheduledTime) && paymentMethod == old(paymentMethod)
      ensures old(cart.items) == [] ==>
        outcome == Ignored && error == old(error)
        && cart.items == old(cart.items) && cart.isCartOpen == old(cart.isCartOpen)
      ensures old(cart.items) != [] && MissingTime(old(timing), old(scheduledTime)) ==>
        outcome == Rejected && error == ScheduleError
        && cart.items == old(cart.items) && cart.isCartOpen == old(cart.isCartOpen)
      ensures old(cart.items) != [] && !MissingTime(old(timing), old(scheduledTime)) ==>
        outcome == Sent(IntendedLink(env, old(cart.items), language, old(Details())))
        && error == old(error) && cart.items == [] && !cart.isCartOpen
    {
      if |cart.items| == 0 {
        return Ignored;
      }
      if timing == Scheduled && scheduledTime == "" {
        error := ScheduleError;
        return Rejected;
      }
      var details := OrderDetails(serviceType, timing, scheduledTime, paymentMethod, "", "", "", "", "", "", "", "");
      var link := GenerateLink(env, cart.items, Code(language), Some(details));
      cart.ClearCart();
      cart.SetCartOpen(false);
      outcome := Sent(link);
    }
  }

  /** The link of a checkout with the language and the details in their own slots. */
  function IntendedLink(env: Env, items: seq<CartItem>, language: Language, d: OrderDetails): string {
    WhatsAppLink(env, items, Code(language), Some(d))
  }

  /**
   * The call as written: whatever the panel says, the message is the English one without
   * details, so it has no header right after the greeting, and no delivery-fee line, and its
   * total bill is the bare line total even for a delivery.
   */
  lemma {:induction false} CheckoutMessageAsWritten(env: Env, items: seq<CartItem>, d: OrderDetails)
    ensures Message(env, items, DetailsObject(d), None) == Message(env, items, Code(En), None)
    ensures StartsWith(Message(env, items, DetailsObject(d), None), English.hello)
    ensures MessageChunks(env, items, DetailsObject(d), None)[1..]
      == ItemSection(env, English, false, items) + SummaryChunks(env, English, items, None)
    ensures |SummaryChunks(env, English, items, None)| == 4
    ensures FinalTotal(items, None) == LinesTotal(items)
  {
    MessageFraming(env, items, DetailsObject(d), None);
    HeaderPlacement(env, English, false, items, None);
    SummaryFeeAndBill(env, English, items, None);
  }

  /**
   * The intended call: the greeting of the page's language, the order header right after it,
   * and the delivery-fee line and the fee in the total exactly for a delivery.
   */
  lemma {:induction false} CheckoutMessageIntended(env: Env, items: seq<CartItem>, language: Language, d: OrderDetails)
    ensures var t := PhrasesFor(language == Ar);
      StartsWith(Message(env, items, Code(language), Some(d)), t.hello)
      && EndsWith(Message(env, items, Code(language), Some(d)), t.thankYou)
    ensures var t := PhrasesFor(language == Ar);
      var chunks := MessageChunks(env, items, Code(language), Some(d));
      var h := HeaderChunks(env, t, d);
      1 + |h| <= |chunks| && chunks[1..1 + |h|] == h
    ensures var t := PhrasesFor(language == Ar);
      |SummaryChunks(env, t, items, Some(d))| == if d.serviceType == Delivery then 5 else 4
    ensures FinalTotal(items, Some(d)) == LinesTotal(items) + (if d.serviceType == Delivery then DeliveryFee else 0.0)
  {
    var t := PhrasesFor(language == Ar);
    assert IsArabic(Code(language)) == (language == Ar);
    MessageFraming(env, items, Code(language), Some(d));
    HeaderPlacement(env, t, language == Ar, items, Some(d));
    SummaryFeeAndBill(env, t, items, Some(d));
  }

  /**
   * A delivery checked out as written and as intended in English: the two messages are the
   * same English composition, without and with the details. `FeeSplice` states what the
   * details add: the header after the greeting, the fee line, and the fee in the bill.
   */
  lemma DeliveryCheckoutDiffers(env: Env, items: seq<CartItem>, d: OrderDetails)
    requires d.serviceType == Delivery
    ensures MessageChunks(env, items, DetailsObject(d), None) == Compose(env, English, false, items, None)
    ensures MessageChunks(env, items, Code(En), Some(d)) == Compose(env, English, false, items, Some(d))
  {
    assert IsArabic(Code(En)) == IsArabic(DetailsObject(d)) == false;
  }

  /**
   * With any phrases, the message with delivery details is the one without them plus the
   * header after the greeting and the fee line before the bill; the bills differ by the fee.
   */
  lemma FeeSplice(env: Env, t: Phrases, isAr: bool, items: seq<CartItem>, d: OrderDetails)
    requires d.serviceType == Delivery
    ensures var w := Compose(env, t, isAr, items, None);
      var m := Compose(env, t, isAr, items, Some(d));
      var h := HeaderChunks(env, t, d);
      |w| >= 3 && |w| + |h| + 1 == |m| && m[1..1 + |h|] == h
      && w[..|w| - 2] == m[..1] + m[1 + |h|..|m| - 3]
    ensures var m := Compose(env, t, isAr, items, Some(d));
      |m| >= 3 && m[|m| - 3] == t.deliveryCharge + " $1.50\n"
    ensures var w := Compose(env, t, isAr, items, None);
      var m := Compose(env, t, isAr, items, Some(d));
      |w| >= 2 && |m| >= 2
      && w[|w| - 2] == t.totalBill + " $" + Fixed2(LinesTotal(items)) + "\n"
      && m[|m| - 2] == t.totalBill + " $" + Fixed2(LinesTotal(items) + DeliveryFee) + "\n"
      && w[|w| - 1] == m[|m| - 1] == t.thankYou
  {
    var h := HeaderChunks(env, t, d);
    var section, count := ItemSection(env, t, isAr, items), CountLines(env, t, items);
    var sw, sm := SummaryChunks(env, t, items, None), SummaryChunks(env, t, items, Some(d));
    ComposeParts(env, t, isAr, items, None);
    ComposeParts(env, t, isAr, items, Some(d));
    SummaryWithoutDetails(env, t, items);
    SummaryWithDelivery(env, t, items, d);
    Splice([t.hello], h, section, count, sw, sm);
  }

  lemma ComposeParts(env: Env, t: Phrases, isAr: bool, items: seq<CartItem>, details: Option<OrderDetails>)
    ensures Compose(env, t, isAr, items, details)
      == [t.hello] + (if details.Some? then HeaderChunks(env, t, details.value) else [])
         + ItemSection(env, t, isAr, items) + SummaryChunks(env, t, items, details)
  {
  }

  /** The summary without details: the count lines, the bare line total and the thanks. */
  lemma SummaryWithoutDetails(env: Env, t: Phrases, items: seq<CartItem>)
    ensures var s := SummaryChunks(env, t, items, None);
      |s| == 4 && s[..2] == CountLines(env, t, items)
      && s[2] == t.totalBill + " $" + Fixed2(LinesTotal(items)) + "\n" && s[3] == t.thankYou
  {
    assert FinalTotal(items, None) == LinesTotal(items);
    assert SummaryChunks(env, t, items, None) == CountLines(env, t, items) + BillLines(t, items, None);
  }

  /** The summary of a delivery: the count lines, the fee line, the total with the fee, the thanks. */
  lemma SummaryWithDelivery(env: Env, t: Phrases, items: seq<CartItem>, d: OrderDetails)
    requires d.serviceType == Delivery
    ensures var s := SummaryChunks(env, t, items, Some(d));
      |s| == 5 && s[..2] == CountLines(env, t, items) && s[2] == t.deliveryCharge + " $1.50\n"
      && s[3] == t.totalBill + " $" + Fixed2(LinesTotal(items) + DeliveryFee) + "\n" && s[4] == t.thankYou
  {
    SummaryFeeAndBill(env, t, items, Some(d));
    var count, fee, bill := CountLines(env, t, items), FeeLines(t, Some(d)), BillLines(t, items, Some(d));
    assert SummaryChunks(env, t, items, Some(d)) == count + fee + bill;
  }

  /** Sequence bookkeeping for `FeeSplice`, over abstract pieces. */
  lemma Splice<T>(a: seq<T>, h: seq<T>, items: seq<T>, count: seq<T>, sw: seq<T>, sm: seq<T>)
    requires |a| == 1 && |count| == 2 && |sw| == 4 && |sm| == 5
    requires sw[..2] == count && sm[..2] == count
    ensures var w := a + [] + items + sw;
      var m := a + h + items + sm;
      |w| >= 3 && |w| + |h| + 1 == |m| && m[1..1 + |h|] == h
      && w[..|w| - 2] == m[..1] + m[1 + |h|..|m| - 3]
      && m[|m| - 3] == sm[2] && w[|w| - 2] == sw[2] && m[|m| - 2] == sm[3]
      && w[|w| - 1] == sw[3] && m[|m| - 1] == sm[4]
  {
    var w := a + [] + items + sw;
    var m := a + h + items + sm;
    assert w[..|w| - 2] == a + items + count;
    assert m[1 + |h|..|m| - 3] == items + count;
  }

  /**
   * The amount shown under the cart is the message's total bill only when no fee applies;
   * for a delivery with details the bill is higher by the fee.
   */
  lemma DisplayedTotalExcludesFee(panel: CartContent, details: Option<OrderDetails>)
    ensures FinalTotal(panel.cart.items, details) == panel.TotalPrice() <==> !ChargesDelivery(details)
    ensures FinalTotal(panel.cart.items, details) - panel.TotalPrice()
      == if ChargesDelivery(details) then DeliveryFee else 0.0
  {
  }
}
