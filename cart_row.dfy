/**
 * One line of the cart sheet, src/components/Cart/CartItemRow.tsx: its title in the page
 * language, its price, its chosen options, and the handlers that send quantity, instruction
 * and removal updates for that line to the cart store.
 */
module CartRow {
  import opened Wrappers
  import opened Text
  import opened Platform
  import opened Numbers
  import opened Objects
  import opened Ledger
  import opened Locale
  import opened WhatsApp
  import opened QuantityDisplay
  import opened Menu

  /**
   * The row's title: the name in the page language, else the plain name, never the name in
   * the other language; it is empty only when the plain name is.
   */
  function DisplayName(language: Language, item: CartItem): (r: string)
    ensures r == item.name || r == (if language == Ar then item.nameAr else item.nameEn)
    ensures r == "" ==> item.name == ""
  {
    if language == Ar then (if item.nameAr != "" then item.nameAr else item.name)
    else (if item.nameEn != "" then item.nameEn else item.name)
  }

  /**
   * The row shows a line under the name the order message lists it under; a line added from
   * a dish card carries no per-language names, so it shows "<English> - <Arabic>" in both
   * languages.
   */
  lemma CardLineTitle(language: Language, dish: MenuItem, options: Record, instructions: string,
                      quantity: real, instanceId: string)
    ensures var line := NewLine(AddRequest(dish, options, instructions, quantity), instanceId);
      DisplayName(language, line) == ItemName(language == Ar, line)
      && DisplayName(language, line) == dish.nameEn + " - " + dish.nameAr
  {
    AddedLine(dish, options, instructions, quantity, instanceId);
  }

  /** `item.step || 1`. */
  function RowStep(item: CartItem): real {
    OrElse(item.step, 1.0)
  }

  /** `item.minQuantity || 1`, the minimum handed to the stepper. */
  function RowMin(item: CartItem): real {
    OrElse(item.minQuantity, 1.0)
  }

  /** The quantity "-" sends: one step less, rounded to cents, with no lower bound. */
  function RowDecreased(item: CartItem): real {
    Round2(item.quantity - RowStep(item))
  }

  /** The price shown on the row. */
  function PriceText(item: CartItem): string {
    "$" + Fixed2(LineTotal(item))
  }

  /** The row's price is the figure on the price line of the line's block in the message. */
  lemma RowPriceAsInMessage(env: Env, t: Phrases, isAr: bool, n: nat, item: CartItem)
    ensures |ItemBlock(env, t, isAr, n, item)| > 2
    ensures ItemBlock(env, t, isAr, n, item)[2] == t.price + " " + PriceText(item) + "\n"
  {
    ItemBlockHead(env, t, isAr, n, item);
    var x := Fixed2(LineTotal(item));
    assert " " + "$" == " $";
    Regroup(" ", "$", x);
    Regroup(t.price, " ", "$" + x);
    Regroup(t.price, " $", x);
  }

  /** What JSX renders for `{value}`: a string as it is, `undefined` as nothing. */
  function JsxText(v: Value): string {
    match v
    case Str(s) => s
    case Undefined => ""
  }

  /** One `key: value` line per chosen option, in entry order. */
  function RowOptionLines(options: Record): (lines: seq<string>)
    ensures |lines| == |options|
  {
    seq(|options|, i requires 0 <= i < |options| => options[i].0 + ": " + JsxText(options[i].1))
  }

  /**
   * The row lists the options the message lists, each without the message's dash and newline,
   * as long as every option holds a string.
   */
  lemma RowOptionsAsInMessage(options: Record)
    requires forall i :: 0 <= i < |options| ==> options[i].1.Str?
    ensures |RowOptionLines(options)| == |OptionLines(options)|
    ensures forall i :: 0 <= i < |options| ==> OptionLines(options)[i] == "- " + RowOptionLines(options)[i] + "\n"
  {
  }

  /**
   * An option left `undefined` (a group with no choices) shows as an empty value on the row,
   * while the message writes "undefined" for it.
   */
  lemma RowOptionUndefined(options: Record, i: nat)
    requires i < |options| && options[i].1.Undefined?
    ensures RowOptionLines(options)[i] == options[i].0 + ": "
    ensures OptionLines(options)[i] == "- " + options[i].0 + ": " + "undefined" + "\n"
    ensures OptionLines(options)[i] != "- " + RowOptionLines(options)[i] + "\n"
  {
    RowLineUndefined(options, i);
    MessageLineUndefined(options, i);
    LengthsDiffer(OptionLines(options)[i], "- " + RowOptionLines(options)[i] + "\n");
  }

  lemma RowLineUndefined(options: Record, i: nat)
    requires i < |options| && options[i].1.Undefined?
    ensures RowOptionLines(options)[i] == options[i].0 + ": "
  {
  }

  lemma MessageLineUndefined(options: Record, i: nat)
    requires i < |options| && options[i].1.Undefined?
    ensures OptionLines(options)[i] == "- " + options[i].0 + ": " + "undefined" + "\n"
  {
    assert TemplateText(options[i].1) == "undefined";
  }

  lemma LengthsDiffer(a: string, b: string)
    requires |a| != |b|
    ensures a != b
  {
  }

  /**
   * The row's "-" has no lower-bound check of its own, and its stepper disables the button only
   * at or below the minimum: a line on the cent grid less than one step above its minimum can
   * be stepped below the minimum (1.5 pieces with the default step and minimum go to 0.5).
   */
  lemma RowDecreaseUnguarded(item: CartItem)
    requires OnCentGrid(item.quantity) && OnCentGrid(RowStep(item))
    requires RowMin(item) < item.quantity < RowMin(item) + RowStep(item)
    ensures !DecreaseDisabled(item.quantity, Some(RowMin(item)))
    ensures RowDecreased(item) == item.quantity - RowStep(item) < RowMin(item)
  {
    OnCentGridSum(item.quantity, RowStep(item));
    Round2Fixes(item.quantity - RowStep(item));
  }

  /** Where the dish card's guard would allow "-", the row sends what the card would set. */
  lemma RowStepsAsOnCard(item: CartItem)
    ensures item.quantity - RowStep(item) >= RowMin(item) - 0.001 ==>
      RowDecreased(item) == Decreased(item.quantity, RowStep(item), RowMin(item))
  {
  }

  /** On the cent grid and a step above the minimum, "-" lands exactly one step lower, still at the minimum or above. */
  lemma RowDecreaseOnGrid(item: CartItem)
    requires OnCentGrid(item.quantity) && OnCentGrid(RowStep(item))
    requires item.quantity - RowStep(item) >= RowMin(item)
    ensures RowDecreased(item) == item.quantity - RowStep(item)
    ensures RowDecreased(item) >= RowMin(item)
  {
    StepsOnGrid(item.quantity, RowStep(item), RowMin(item));
  }

  /** "+": the row's line gets one step more, rounded to cents; every other line stays. */
  method Increase(cart: CartStore, item: CartItem)
    modifies cart
    ensures |cart.items| == |old(cart.items)| && cart.isCartOpen == old(cart.isCartOpen)
    ensures forall i :: 0 <= i < |cart.items| ==>
      cart.items[i] == (if old(cart.items)[i].instanceId == item.instanceId
      then old(cart.items)[i].(quantity := Increased(item.quantity, RowStep(item)))
      else old(cart.items)[i])
  {
    var step := OrElse(item.step, 1.0);
    cart.UpdateQuantity(item.instanceId, Round2(item.quantity + step));
  }

  /** "-": the row's line gets one step less, rounded to cents; every other line stays. */
  method Decrease(cart: CartStore, item: CartItem)
    modifies cart
    ensures |cart.items| == |old(cart.items)| && cart.isCartOpen == old(cart.isCartOpen)
    ensures forall i :: 0 <= i < |cart.items| ==>
      cart.items[i] == (if old(cart.items)[i].instanceId == item.instanceId
      then old(cart.items)[i].(quantity := RowDecreased(item))
      else old(cart.items)[i])
  {
    var step := OrElse(item.step, 1.0);
    cart.UpdateQuantity(item.instanceId, Round2(item.quantity - step));
  }

  /** The bin: the row's own line leaves the cart. */
  method Remove(cart: CartStore, item: CartItem)
    modifies cart
    ensures cart.items == Without(old(cart.items), item.instanceId)
    ensures cart.isCartOpen == old(cart.isCartOpen)
  {
    cart.RemoveItem(item.instanceId);
  }

  /** Typing in the row's text area: the line's instructions become the new text. */
  method EditInstructions(cart: CartStore, item: CartItem, text: string)
    modifies cart
    ensures |cart.items| == |old(cart.items)| && cart.isCartOpen == old(cart.isCartOpen)
    ensures forall i :: 0 <= i < |cart.items| ==>
      cart.items[i] == (if old(cart.items)[i].instanceId == item.instanceId
      then old(cart.items)[i].(instructions := text)
      else old(cart.items)[i])
  {
    cart.UpdateInstructions(item.instanceId, text);
  }
}
