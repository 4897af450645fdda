/**
 * The order-message formatter of src/utils/whatsapp.ts: the phrase table for the chosen
 * language, `formatDate`, and `generateWhatsAppLink`, which builds the order message with
 * `+=` (greeting, optional order header, numbered items, summary, thanks) and wraps it in a
 * `wa.me` link. The message is specified as the list of the exact pieces appended to it, and
 * the text itself is their concatenation.
 */
module WhatsApp {
  import opened Wrappers
  import opened Text
  import opened Platform
  import opened Numbers
  import opened Ledger
  import opened Objects
  import opened Locale

  datatype ServiceType = Takeaway | Delivery

  datatype Timing = Now | Scheduled

  datatype PaymentMethod = Cash | Card

  /** The optional order details; an optional string is "" when it is absent. */
  datatype OrderDetails = OrderDetails(
    serviceType: ServiceType,
    timing: Timing,
    scheduledTime: string,
    paymentMethod: PaymentMethod,
    locationLabel: string,
    locationUrl: string,
    locationCoordinates: string,
    locationArea: string,
    locationStreet: string,
    locationBuilding: string,
    locationFloor: string,
    locationDetails: string)

  /**
   * What a caller can pass in the `language` slot: a language code, or (as one caller does)
   * an order-details object, which is not `'ar'`.
   */
  datatype LanguageArg = Code(code: Language) | DetailsObject(details: OrderDetails)

  /** `language === 'ar'`. */
  predicate IsArabic(language: LanguageArg) {
    language == Code(Ar)
  }

  const PhoneNumber := "9613502022"
  const DeliveryFee := 1.5
  const Rule := "--------------------"

  datatype Phrases = Phrases(
    hello: string, orderType: string, delivery: string, takeaway: string, time: string,
    asap: string, payment: string, cash: string, card: string, location: string, area: string,
    street: string, building: string, floor: string, details: string, coordinates: string,
    locationUnavailable: string, qty: string, price: string, instructions: string,
    totalItems: string, deliveryCharge: string, totalBill: string, thankYou: string)

  const English := Phrases(
    "Hello 👋\nI would like to place an order:\n\n", "*Order Type:*", "🛵 Delivery", "🥡 Takeaway",
    "*Time:*", "🕒 As soon as possible", "*Payment:*", "💵 Cash", "💳 Card", "*Location:*",
    "*Area:*", "*Street:*", "*Building:*", "*Floor:*", "*Address Details:*", "*Coordinates:*",
    "Not provided", "Qty:", "Price:", "Instructions:", "Total Items:", "Delivery Charge:",
    "Total Bill:", "Thank you.")

  const Arabic := Phrases(
    "مرحبا 👋\nأود تقديم طلب:\n\n", "*نوع الطلب:*", "🛵 توصيل", "🥡 سفري",
    "*الوقت:*", "🕒 بأقرب وقت ممكن", "*الدفع:*", "💵 كاش", "💳 بطاقة", "*الموقع:*",
    "*المنطقة:*", "*الشارع:*", "*المبنى:*", "*الطابق:*", "*تفاصيل إضافية:*", "*الإحداثيات:*",
    "غير متوفر", "الكمية:", "السعر:", "ملاحظات:", "عدد العناصر:", "كلفة التوصيل:",
    "المجموع النهائي:", "شكرا.")

  function PhrasesFor(isAr: bool): Phrases {
    if isAr then Arabic else English
  }

  /** The Arabic phrases are used exactly when the language argument is `'ar'`. */
  lemma ArabicIffAr(language: LanguageArg)
    ensures PhrasesFor(IsArabic(language)) == Arabic <==> language == Code(Ar)
    ensures PhrasesFor(IsArabic(language)) == English <==> language != Code(Ar)
  {
    assert English.hello[0] != Arabic.hello[0];
  }

  // ---------------------------------------------------------------- formatDate

  /** The 12-hour clock: `hours % 12`, with 0 shown as 12. */
  function Hour12(hours: nat): nat {
    if hours % 12 == 0 then 12 else hours % 12
  }

  function Meridiem(hours: nat): string {
    if hours >= 12 then "PM" else "AM"
  }

  /** `DD/MM/YYYY h:mm AM|PM` of the local calendar fields. */
  function DateText(t: CalendarTime): string {
    Pad2(t.day) + "/" + Pad2(t.month + 1) + "/" + NatToString(t.year) + " "
    + NatToString(Hour12(t.hours)) + ":" + Pad2(t.minutes) + " " + Meridiem(t.hours)
  }

  /** `formatDate`: an absent or empty date string gives "". */
  function FormatDateSpec(env: Env, dateString: string): string {
    if dateString == "" then "" else DateText(env.localTime(dateString))
  }

  method FormatDate(env: Env, dateString: string) returns (r: string)
    ensures r == FormatDateSpec(env, dateString)
  {
    if dateString == "" {
      return "";
    }
    var date := env.localTime(dateString);
    var day := Pad2(date.day);
    var month := Pad2(date.month + 1);
    var year := date.year;
    var hours := date.hours;
    var minutes := Pad2(date.minutes);
    var ampm := if hours >= 12 then "PM" else "AM";
    hours := hours % 12;
    hours := if hours != 0 then hours else 12;
    r := day + "/" + month + "/" + NatToString(year) + " " + NatToString(hours) + ":" + minutes + " " + ampm;
  }

  /**
   * The shown hour is in 1..12, "PM" is shown exactly from noon on, and together they give
   * back the 24-hour hour: midnight is 12 AM, noon is 12 PM.
   */
  lemma ClockRoundTrip(hours: nat)
    requires hours < 24
    ensures 1 <= Hour12(hours) <= 12
    ensures Meridiem(hours) == "PM" <==> hours >= 12
    ensures hours == Hour12(hours) % 12 + (if Meridiem(hours) == "PM" then 12 else 0)
  {
  }

  /**
   * The text opens with the two-digit day and the two-digit 1-based month, each followed by a
   * slash, and closes with a colon, the two-digit minutes, a space and the meridiem; each
   * two-digit field reads back as the number it was made from.
   */
  lemma DateTextFields(t: CalendarTime)
    ensures StartsWith(DateText(t), Pad2(t.day) + "/" + Pad2(t.month + 1) + "/")
    ensures EndsWith(DateText(t), ":" + Pad2(t.minutes) + " " + Meridiem(t.hours))
    ensures |Pad2(t.day)| == 2 && AllDigits(Pad2(t.day)) && ParseNat(Pad2(t.day)) == t.day
    ensures |Pad2(t.month + 1)| == 2 && AllDigits(Pad2(t.month + 1)) && ParseNat(Pad2(t.month + 1)) == t.month + 1
    ensures |Pad2(t.minutes)| == 2 && AllDigits(Pad2(t.minutes)) && ParseNat(Pad2(t.minutes)) == t.minutes
  {
    Pad2RoundTrip(t.day);
    Pad2RoundTrip(t.month + 1);
    Pad2RoundTrip(t.minutes);
    var date := Pad2(t.day) + "/" + Pad2(t.month + 1) + "/";
    var s5 := date + NatToString(t.year);
    var s6 := s5 + " ";
    var s7 := s6 + NatToString(Hour12(t.hours));
    var s8 := s7 + ":";
    var s9 := s8 + Pad2(t.minutes);
    var s10 := s9 + " ";
    var s := s10 + Meridiem(t.hours);
    assert s == DateText(t);
    StartsWithAppend(s10, Meridiem(t.hours));
    StartsWithAppend(s9, " ");
    StartsWithAppend(s8, Pad2(t.minutes));
    StartsWithAppend(s7, ":");
    StartsWithAppend(s6, NatToString(Hour12(t.hours)));
    StartsWithAppend(s5, " ");
    StartsWithAppend(date, NatToString(t.year));
    StartsWithTrans(s, s10, s9);
    StartsWithTrans(s9, s8, s7);
    StartsWithTrans(s7, s6, s5);
    StartsWithTrans(s, s9, s7);
    StartsWithTrans(s, s7, s5);
    StartsWithTrans(s, s5, date);
    EndsWithAppend(s7, ":");
    EndsWithExtend(s8, ":", Pad2(t.minutes));
    EndsWithExtend(s9, ":" + Pad2(t.minutes), " ");
    EndsWithExtend(s10, ":" + Pad2(t.minutes) + " ", Meridiem(t.hours));
  }

  // ---------------------------------------------------------------- message sections

  /** A labelled line that appears only when its value is present. */
  function Labelled(caption: string, value: string): (lines: seq<string>)
    ensures lines != [] <==> value != ""
  {
    if value == "" then [] else [caption + " " + value + "\n"]
  }

  /** The location line (its label, or else the link itself) and the link line. */
  function LinkLines(t: Phrases, d: OrderDetails): seq<string> {
    [t.location + " " + (if d.locationLabel != "" then d.locationLabel else d.locationUrl) + "\n",
     d.locationUrl + "\n"]
  }

  /** The address fields that are present, in their fixed order. */
  function FieldLines(t: Phrases, d: OrderDetails): seq<string> {
    Labelled(t.area, d.locationArea) + Labelled(t.street, d.locationStreet)
    + Labelled(t.building, d.locationBuilding) + Labelled(t.floor, d.locationFloor)
    + Labelled(t.details, d.locationDetails) + Labelled(t.coordinates, d.locationCoordinates)
  }

  /** The location lines of the header. */
  function LocationChunks(t: Phrases, d: OrderDetails): seq<string> {
    if d.serviceType != Delivery then []
    else if d.locationUrl == "" then [t.location + " " + t.locationUnavailable + "\n"]
    else LinkLines(t, d) + FieldLines(t, d)
  }

  function TimeText(env: Env, t: Phrases, d: OrderDetails): string {
    if d.timing == Now then t.asap else "📅 " + FormatDateSpec(env, d.scheduledTime)
  }

  /** The order type, time and payment lines. */
  function OrderLines(env: Env, t: Phrases, d: OrderDetails): seq<string> {
    [t.orderType + " " + (if d.serviceType == Delivery then t.delivery else t.takeaway) + "\n",
     t.time + " " + TimeText(env, t, d) + "\n",
     t.payment + " " + (if d.paymentMethod == Cash then t.cash else t.card) + "\n"]
  }

  /** The order header: type, time, payment, location when delivering, a separator. */
  function HeaderChunks(env: Env, t: Phrases, d: OrderDetails): seq<string> {
    OrderLines(env, t, d) + LocationChunks(t, d) + [Rule + "\n\n"]
  }

  /** The name a line is listed under: the name in the message language, else the plain name. */
  function ItemName(isAr: bool, item: CartItem): string {
    if isAr then (if item.nameAr != "" then item.nameAr else item.name)
    else (if item.nameEn != "" then item.nameEn else item.name)
  }

  /** One `- key: value` line per selected option, in entry order. */
  function OptionLines(options: Record): (lines: seq<string>)
    ensures |lines| == |options|
    ensures forall i :: 0 <= i < |options| ==> lines[i] == "- " + options[i].0 + ": " + TemplateText(options[i].1) + "\n"
  {
    if options == [] then []
    else
      var last := options[|options| - 1];
      OptionLines(options[..|options| - 1]) + ["- " + last.0 + ": " + TemplateText(last.1) + "\n"]
  }

  function InstructionLines(t: Phrases, item: CartItem): seq<string> {
    if item.instructions != "" && Trim(item.instructions) != ""
    then [t.instructions + " " + Trim(item.instructions) + "\n"]
    else []
  }

  /** The numbered name line, the quantity line and the price line of the `n`-th item. */
  function ItemHead(env: Env, t: Phrases, isAr: bool, n: nat, item: CartItem): seq<string> {
    [NatToString(n) + ". " + ItemName(isAr, item) + "\n",
     t.qty + " " + ShowNumber(env, item.quantity) + "\n",
     t.price + " $" + Fixed2(LineTotal(item)) + "\n"]
  }

  /** The lines of the `n`-th item. */
  function ItemBlock(env: Env, t: Phrases, isAr: bool, n: nat, item: CartItem): seq<string> {
    ItemHead(env, t, isAr, n, item) + OptionLines(item.selectedOptions) + InstructionLines(t, item) + ["\n"]
  }

  /** The blocks of the items, numbered from 1 in cart order. */
  function ItemBlocks(env: Env, t: Phrases, isAr: bool, items: seq<CartItem>): seq<seq<string>> {
    seq(|items|, i requires 0 <= i < |items| => ItemBlock(env, t, isAr, i + 1, items[i]))
  }

  function ItemSection(env: Env, t: Phrases, isAr: bool, items: seq<CartItem>): seq<string> {
    Concat(ItemBlocks(env, t, isAr, items))
  }

  /** The fee is charged only for an order with details that is a delivery. */
  predicate ChargesDelivery(details: Option<OrderDetails>) {
    details.Some? && details.value.serviceType == Delivery
  }

  function FinalTotal(items: seq<CartItem>, details: Option<OrderDetails>): real {
    LinesTotal(items) + (if ChargesDelivery(details) then DeliveryFee else 0.0)
  }

  function FeeLines(t: Phrases, details: Option<OrderDetails>): seq<string> {
    if ChargesDelivery(details) then [t.deliveryCharge + " $" + Fixed2(DeliveryFee) + "\n"] else []
  }

  /** The separator and the item count. */
  function CountLines(env: Env, t: Phrases, items: seq<CartItem>): seq<string> {
    [Rule + "\n", t.totalItems + " " + ShowNumber(env, TotalItems(items)) + "\n"]
  }

  /** The total bill and the thanks. */
  function BillLines(t: Phrases, items: seq<CartItem>, details: Option<OrderDetails>): seq<string> {
    [t.totalBill + " $" + Fixed2(FinalTotal(items, details)) + "\n", t.thankYou]
  }

  function SummaryChunks(env: Env, t: Phrases, items: seq<CartItem>, details: Option<OrderDetails>): seq<string> {
    CountLines(env, t, items) + FeeLines(t, details) + BillLines(t, items, details)
  }

  /** Everything appended to the message with the phrases `t`, in order. */
  function Compose(env: Env, t: Phrases, isAr: bool, items: seq<CartItem>, details: Option<OrderDetails>): seq<string> {
    [t.hello]
    + (if details.Some? then HeaderChunks(env, t, details.value) else [])
    + ItemSection(env, t, isAr, items)
    + SummaryChunks(env, t, items, details)
  }

  /** Everything appended to the message, in order. */
  function MessageChunks(env: Env, items: seq<CartItem>, language: LanguageArg, details: Option<OrderDetails>): seq<string> {
    Compose(env, PhrasesFor(IsArabic(language)), IsArabic(language), items, details)
  }

  function Message(env: Env, items: seq<CartItem>, language: LanguageArg, details: Option<OrderDetails>): string {
    Concat(MessageChunks(env, items, language, details))
  }

  const LinkPrefix := "https://wa.me/" + PhoneNumber + "?text="

  /** The link always opens a chat with the restaurant's number. */
  function WhatsAppLink(env: Env, items: seq<CartItem>, language: LanguageArg, details: Option<OrderDetails>)
    : (r: string)
    ensures StartsWith(r, LinkPrefix)
  {
    StartsWithAppend(LinkPrefix, env.encode(Message(env, items, language, details)));
    LinkPrefix + env.encode(Message(env, items, language, details))
  }

  // ---------------------------------------------------------------- generateWhatsAppLink

  /*
   * The builders below keep the message as the list of the pieces appended to it so far
   * (`message += piece` is `message := message + [piece]`); its text is `Concat(message)`.
   */

  /** `generateWhatsAppLink(items, language, details)`. */
  method GenerateLink(env: Env, items: seq<CartItem>, language: LanguageArg, details: Option<OrderDetails>)
    returns (link: string)
    ensures link == WhatsAppLink(env, items, language, details)
  {
    var number := "9613502022";
    var isAr := language == Code(Ar);
    var t := if isAr then Arabic else English;

    var message := [t.hello];
    ghost var header := if details.Some? then HeaderChunks(env, t, details.value) else [];
    if details.Some? {
      message := AppendHeader(env, t, details.value, message);
    }
    assert message == [t.hello] + header;
    message := AppendItems(env, t, isAr, items, message);
    message := AppendSummary(env, t, items, details, message);
    assert message == Compose(env, t, isAr, items, details);

    var encodedMessage := env.encode(Concat(message));
    link := "https://wa.me/" + number + "?text=" + encodedMessage;
  }

  /** `items.forEach((item, index) => ...)`: each item's block, numbered from 1. */
  method AppendItems(env: Env, t: Phrases, isAr: bool, items: seq<CartItem>, message: seq<string>)
    returns (message': seq<string>)
    ensures message' == message + ItemSection(env, t, isAr, items)
  {
    message' := message;
    var index := 0;
    while index < |items|
      invariant 0 <= index <= |items|
      invariant message' == message + ItemSection(env, t, isAr, items[..index])
    {
      message' := AppendItem(env, t, isAr, index + 1, items[index], message');
      Regroup(message, ItemSection(env, t, isAr, items[..index]), ItemBlock(env, t, isAr, index + 1, items[index]));
      ItemSectionSnoc(env, t, isAr, items, index);
      index := index + 1;
    }
    assert items[..index] == items;
  }

  /** The header lines, appended one `+=` at a time. */
  method AppendHeader(env: Env, t: Phrases, d: OrderDetails, message: seq<string>) returns (message': seq<string>)
    ensures message' == message + HeaderChunks(env, t, d)
  {
    message' := AppendOrderLines(env, t, d, message);
    message' := AppendLocation(t, d, message');
    Regroup(message, OrderLines(env, t, d), LocationChunks(t, d));
    message' := message' + [Rule + "\n\n"];
    Regroup(message, OrderLines(env, t, d) + LocationChunks(t, d), [Rule + "\n\n"]);
  }

  method AppendOrderLines(env: Env, t: Phrases, d: OrderDetails, message: seq<string>) returns (message': seq<string>)
    ensures message' == message + OrderLines(env, t, d)
  {
    var line := t.orderType + " " + (if d.serviceType == Delivery then t.delivery else t.takeaway) + "\n";
    message' := message + [line];
    var when: string;
    if d.timing == Now {
      when := t.asap;
    } else {
      var date := FormatDate(env, d.scheduledTime);
      when := "📅 " + date;
    }
    line := t.time + " " + when + "\n";
    message' := message' + [line];
    line := t.payment + " " + (if d.paymentMethod == Cash then t.cash else t.card) + "\n";
    message' := message' + [line];
  }

  /** The location lines, appended one `+=` at a time. */
  method AppendLocation(t: Phrases, d: OrderDetails, message: seq<string>) returns (message': seq<string>)
    ensures message' == message + LocationChunks(t, d)
  {
    message' := message;
    if d.serviceType == Delivery {
      if d.locationUrl != "" {
        var line := t.location + " " + (if d.locationLabel != "" then d.locationLabel else d.locationUrl) + "\n";
        message' := message' + [line];
        line := d.locationUrl + "\n";
        message' := message' + [line];
        assert message' == message + LinkLines(t, d);
        message' := AppendFields(t, d, message');
        Regroup(message, LinkLines(t, d), FieldLines(t, d));
      } else {
        var line := t.location + " " + t.locationUnavailable + "\n";
        message' := message' + [line];
      }
    }
  }

  /** The optional address fields, in their fixed order. */
  method AppendFields(t: Phrases, d: OrderDetails, message: seq<string>) returns (message': seq<string>)
    ensures message' == message + FieldLines(t, d)
  {
    ghost var fields := Labelled(t.area, d.locationArea);
    message' := AppendField(t.area, d.locationArea, message);
    message' := AppendField(t.street, d.locationStreet, message');
    Regroup(message, fields, Labelled(t.street, d.locationStreet));
    fields := fields + Labelled(t.street, d.locationStreet);
    message' := AppendField(t.building, d.locationBuilding, message');
    Regroup(message, fields, Labelled(t.building, d.locationBuilding));
    fields := fields + Labelled(t.building, d.locationBuilding);
    message' := AppendField(t.floor, d.locationFloor, message');
    Regroup(message, fields, Labelled(t.floor, d.locationFloor));
    fields := fields + Labelled(t.floor, d.locationFloor);
    message' := AppendField(t.details, d.locationDetails, message');
    Regroup(message, fields, Labelled(t.details, d.locationDetails));
    fields := fields + Labelled(t.details, d.locationDetails);
    message' := AppendField(t.coordinates, d.locationCoordinates, message');
    Regroup(message, fields, Labelled(t.coordinates, d.locationCoordinates));
  }

  /** `if (value) message += `${caption} ${value}\n``. */
  method AppendField(caption: string, value: string, message: seq<string>) returns (message': seq<string>)
    ensures message' == message + Labelled(caption, value)
  {
    message' := message;
    if value != "" {
      message' := message' + [caption + " " + value + "\n"];
    }
  }

  /** The body of the `items.forEach` callback for the item at 1-based position `n`. */
  method AppendItem(env: Env, t: Phrases, isAr: bool, n: nat, item: CartItem, message: seq<string>)
    returns (message': seq<string>)
    ensures message' == message + ItemBlock(env, t, isAr, n, item)
  {
    ghost var head := ItemHead(env, t, isAr, n, item);
    ghost var options := OptionLines(item.selectedOptions);
    ghost var instructions := InstructionLines(t, item);
    message' := AppendItemHead(env, t, isAr, n, item, message);
    message' := AppendOptions(item.selectedOptions, message');
    Regroup(message, head, options);
    message' := AppendInstructions(t, item, message');
    Regroup(message, head + options, instructions);
    message' := message' + ["\n"];
    Regroup(message, head + options + instructions, ["\n"]);
  }

  method AppendItemHead(env: Env, t: Phrases, isAr: bool, n: nat, item: CartItem, message: seq<string>)
    returns (message': seq<string>)
    ensures message' == message + ItemHead(env, t, isAr, n, item)
  {
    var itemName := if isAr then (if item.nameAr != "" then item.nameAr else item.name)
                    else (if item.nameEn != "" then item.nameEn else item.name);
    assert itemName == ItemName(isAr, item);
    var nameLine := NatToString(n) + ". " + itemName + "\n";
    var qtyLine := t.qty + " " + ShowNumber(env, item.quantity) + "\n";
    var priceLine := t.price + " $" + Fixed2(LineTotal(item)) + "\n";
    assert [nameLine, qtyLine, priceLine] == ItemHead(env, t, isAr, n, item);
    message' := message + [nameLine];
    message' := message' + [qtyLine];
    message' := message' + [priceLine];
    assert message' == message + [nameLine, qtyLine, priceLine];
  }

  /** `Object.entries(item.selectedOptions).forEach(...)`. */
  method AppendOptions(options: Record, message: seq<string>) returns (message': seq<string>)
    ensures message' == message + OptionLines(options)
  {
    message' := message;
    var j := 0;
    while j < |options|
      invariant 0 <= j <= |options|
      invariant message' == message + OptionLines(options[..j])
    {
      var line := "- " + options[j].0 + ": " + TemplateText(options[j].1) + "\n";
      Regroup(message, OptionLines(options[..j]), [line]);
      assert options[..j + 1][..j] == options[..j];
      message' := message' + [line];
      j := j + 1;
    }
    assert options[..j] == options;
  }

  method AppendInstructions(t: Phrases, item: CartItem, message: seq<string>) returns (message': seq<string>)
    ensures message' == message + InstructionLines(t, item)
  {
    message' := message;
    if item.instructions != "" && Trim(item.instructions) != "" {
      var line := t.instructions + " " + Trim(item.instructions) + "\n";
      message' := message' + [line];
    }
  }

  /** The separator, the item count, the delivery charge, the bill and the thanks. */
  method AppendSummary(env: Env, t: Phrases, items: seq<CartItem>, details: Option<OrderDetails>, message: seq<string>)
    returns (message': seq<string>)
    ensures message' == message + SummaryChunks(env, t, items, details)
  {
    var totalItems := CountItems(items);
    var itemsTotal := SumLines(items);
    var finalTotal := itemsTotal;

    message' := AppendCount(env, t, items, totalItems, message);
    message', finalTotal := AppendFee(t, details, finalTotal, message');
    Regroup(message, CountLines(env, t, items), FeeLines(t, details));
    message' := AppendBill(t, items, details, finalTotal, message');
    Regroup(message, CountLines(env, t, items) + FeeLines(t, details), BillLines(t, items, details));
  }

  method AppendCount(env: Env, t: Phrases, items: seq<CartItem>, totalItems: real, message: seq<string>)
    returns (message': seq<string>)
    requires totalItems == TotalItems(items)
    ensures message' == message + CountLines(env, t, items)
  {
    var line := t.totalItems + " " + ShowNumber(env, totalItems) + "\n";
    message' := message + [Rule + "\n"];
    message' := message' + [line];
    assert message' == message + [Rule + "\n", line];
  }

  /** The delivery charge: added to the total and listed only for a delivery with details. */
  method AppendFee(t: Phrases, details: Option<OrderDetails>, total: real, message: seq<string>)
    returns (message': seq<string>, finalTotal: real)
    ensures message' == message + FeeLines(t, details)
    ensures finalTotal == total + (if ChargesDelivery(details) then DeliveryFee else 0.0)
  {
    message', finalTotal := message, total;
    if details.Some? && details.value.serviceType == Delivery {
      var deliveryFee := 1.5;
      finalTotal := finalTotal + deliveryFee;
      message' := message' + [t.deliveryCharge + " $" + Fixed2(deliveryFee) + "\n"];
    }
  }

  method AppendBill(t: Phrases, items: seq<CartItem>, details: Option<OrderDetails>, finalTotal: real, message: seq<string>)
    returns (message': seq<string>)
    requires finalTotal == FinalTotal(items, details)
    ensures message' == message + BillLines(t, items, details)
  {
    var line := t.totalBill + " $" + Fixed2(finalTotal) + "\n";
    message' := message + [line];
    message' := message' + [t.thankYou];
    assert message' == message + [line, t.thankYou];
  }

  /** The summary's item count, the reduce of whatsapp.ts written as a loop. */
  method CountItems(items: seq<CartItem>) returns (sum: real)
    ensures sum == TotalItems(items)
  {
    sum := 0.0;
    var i := 0;
    while i < |items|
      invariant 0 <= i <= |items|
      invariant sum == TotalItems(items[..i])
    {
      var item := items[i];
      if item.step.Some? && item.step.value != 0.0 && item.step.value < 1.0 {
        sum := sum + 1.0;
      } else {
        sum := sum + item.quantity;
      }
      assert items[..i + 1][..i] == items[..i];
      i := i + 1;
    }
    assert items[..i] == items;
  }

  /** The sum of `price * quantity`, the other reduce, written as a loop. */
  method SumLines(items: seq<CartItem>) returns (sum: real)
    ensures sum == LinesTotal(items)
  {
    sum := 0.0;
    var i := 0;
    while i < |items|
      invariant 0 <= i <= |items|
      invariant sum == LinesTotal(items[..i])
    {
      sum := sum + items[i].price * items[i].quantity;
      assert items[..i + 1][..i] == items[..i];
      i := i + 1;
    }
    assert items[..i] == items;
  }

  // ---------------------------------------------------------------- properties of the message

  /** The message opens with the greeting and closes with the thanks of the chosen language. */
  lemma MessageFraming(env: Env, items: seq<CartItem>, language: LanguageArg, details: Option<OrderDetails>)
    ensures StartsWith(Message(env, items, language, details), PhrasesFor(IsArabic(language)).hello)
    ensures EndsWith(Message(env, items, language, details), PhrasesFor(IsArabic(language)).thankYou)
  {
    var t := PhrasesFor(IsArabic(language));
    var chunks := MessageChunks(env, items, language, details);
    ComposeEnds(env, t, IsArabic(language), items, details);
    ConcatEnds(chunks);
    StartsWithAppend(chunks[0], Concat(chunks[1..]));
    EndsWithAppend(Concat(chunks[..|chunks| - 1]), chunks[|chunks| - 1]);
  }

  /** The first piece of a message is the greeting, the last one the thanks. */
  lemma ComposeEnds(env: Env, t: Phrases, isAr: bool, items: seq<CartItem>, details: Option<OrderDetails>)
    ensures |Compose(env, t, isAr, items, details)| >= 2
    ensures Compose(env, t, isAr, items, details)[0] == t.hello
    ensures Compose(env, t, isAr, items, details)[|Compose(env, t, isAr, items, details)| - 1] == t.thankYou
  {
    var front := [t.hello] + (if details.Some? then HeaderChunks(env, t, details.value) else [])
      + ItemSection(env, t, isAr, items);
    var summary := SummaryChunks(env, t, items, details);
    var bill := BillLines(t, items, details);
    assert summary[|summary| - 1] == bill[1];
    assert Compose(env, t, isAr, items, details) == front + summary;
  }

  /**
   * With details, the header follows the greeting directly: the order type, time and payment
   * lines, the location lines, the separator; the items come right after it. Without details
   * the items follow the greeting directly.
   */
  lemma HeaderPlacement(env: Env, t: Phrases, isAr: bool, items: seq<CartItem>, details: Option<OrderDetails>)
    ensures details.Some? ==>
      var chunks := Compose(env, t, isAr, items, details);
      var h := HeaderChunks(env, t, details.value);
      1 + |h| <= |chunks| && chunks[1..1 + |h|] == h
      && chunks[1 + |h|..] == ItemSection(env, t, isAr, items) + SummaryChunks(env, t, items, details)
    ensures details.None? ==>
      Compose(env, t, isAr, items, details)[1..] == ItemSection(env, t, isAr, items) + SummaryChunks(env, t, items, details)
  {
    var rest := ItemSection(env, t, isAr, items) + SummaryChunks(env, t, items, details);
    var h := if details.Some? then HeaderChunks(env, t, details.value) else [];
    Regroup([t.hello] + h, ItemSection(env, t, isAr, items), SummaryChunks(env, t, items, details));
    assert Compose(env, t, isAr, items, details) == [t.hello] + h + rest;
    PiecesAt([t.hello], h, rest);
  }

  /** The header's own lines: the order type, the time, the payment, then location and separator. */
  lemma HeaderShape(env: Env, t: Phrases, d: OrderDetails)
    ensures var h := HeaderChunks(env, t, d);
      |h| == 4 + |LocationChunks(t, d)|
      && h[0] == t.orderType + " " + (if d.serviceType == Delivery then t.delivery else t.takeaway) + "\n"
      && h[1] == t.time + " " + (if d.timing == Now then t.asap else "📅 " + FormatDateSpec(env, d.scheduledTime)) + "\n"
      && h[2] == t.payment + " " + (if d.paymentMethod == Cash then t.cash else t.card) + "\n"
      && h[3..3 + |LocationChunks(t, d)|] == LocationChunks(t, d)
      && h[|h| - 1] == Rule + "\n\n"
  {
    PiecesAt(OrderLines(env, t, d), LocationChunks(t, d), [Rule + "\n\n"]);
  }

  /**
   * The location lines: none for takeaway; one "not provided" line for a delivery without a
   * location link; otherwise the location (its label, or the link itself), the link, and then
   * one line for each present field in the order area, street, building, floor, details,
   * coordinates.
   */
  lemma LocationLines(t: Phrases, d: OrderDetails)
    ensures d.serviceType == Takeaway ==> LocationChunks(t, d) == []
    ensures d.serviceType == Delivery && d.locationUrl == "" ==>
      LocationChunks(t, d) == [t.location + " " + t.locationUnavailable + "\n"]
    ensures d.serviceType == Delivery && d.locationUrl != "" ==>
      |LocationChunks(t, d)| >= 2
      && LocationChunks(t, d)[0] == t.location + " " + (if d.locationLabel != "" then d.locationLabel else d.locationUrl) + "\n"
      && LocationChunks(t, d)[1] == d.locationUrl + "\n"
      && LocationChunks(t, d)[2..] == PresentLines(LocationFields(t, d))
  {
    if d.serviceType == Delivery && d.locationUrl != "" {
      FieldLinesPresent(t, d);
      PiecesAt([], LinkLines(t, d), FieldLines(t, d));
    }
  }

  /** The six conditional field lines are the lines of the present fields, in field order. */
  lemma FieldLinesPresent(t: Phrases, d: OrderDetails)
    ensures FieldLines(t, d) == PresentLines(LocationFields(t, d))
  {
    PresentLinesSix((t.area, d.locationArea), (t.street, d.locationStreet), (t.building, d.locationBuilding),
                    (t.floor, d.locationFloor), (t.details, d.locationDetails), (t.coordinates, d.locationCoordinates));
  }

  lemma PresentLinesSix(a: (string, string), b: (string, string), c: (string, string),
                        d: (string, string), e: (string, string), f: (string, string))
    ensures PresentLines([a, b, c, d, e, f])
      == Labelled(a.0, a.1) + Labelled(b.0, b.1) + Labelled(c.0, c.1)
         + Labelled(d.0, d.1) + Labelled(e.0, e.1) + Labelled(f.0, f.1)
  {
    PresentLinesSnoc([], a);
    assert [] + [a] == [a] && [] + Labelled(a.0, a.1) == Labelled(a.0, a.1);
    assert [a] + [b] == [a, b] && [a, b] + [c] == [a, b, c] && [a, b, c] + [d] == [a, b, c, d];
    assert [a, b, c, d] + [e] == [a, b, c, d, e] && [a, b, c, d, e] + [f] == [a, b, c, d, e, f];
    PresentLinesSnoc([a], b);
    PresentLinesSnoc([a, b], c);
    PresentLinesSnoc([a, b, c], d);
    PresentLinesSnoc([a, b, c, d], e);
    PresentLinesSnoc([a, b, c, d, e], f);
  }

  lemma PresentLinesSnoc(fields: seq<(string, string)>, f: (string, string))
    ensures PresentLines(fields + [f]) == PresentLines(fields) + Labelled(f.0, f.1)
  {
    assert (fields + [f])[..|fields|] == fields;
  }

  /** The six optional location fields with their captions, in the order the header lists them. */
  function LocationFields(t: Phrases, d: OrderDetails): seq<(string, string)> {
    [(t.area, d.locationArea), (t.street, d.locationStreet), (t.building, d.locationBuilding),
     (t.floor, d.locationFloor), (t.details, d.locationDetails), (t.coordinates, d.locationCoordinates)]
  }

  /** A `caption value` line for each field whose value is present, in field order. */
  function PresentLines(fields: seq<(string, string)>): (lines: seq<string>)
    ensures |lines| <= |fields|
  {
    if fields == [] then []
    else
      var last := fields[|fields| - 1];
      PresentLines(fields[..|fields| - 1]) + (if last.1 != "" then [last.0 + " " + last.1 + "\n"] else [])
  }


  /** `b` sits at offset `|a|` of `a + b + c`. */
  lemma PiecesAt<T>(a: seq<T>, b: seq<T>, c: seq<T>)
    ensures (a + b + c)[|a|..|a| + |b|] == b
    ensures (a + b + c)[|a| + |b|..] == c
  {
  }

  /** The blocks of the first `k` items are the first `k` blocks. */
  lemma ItemBlocksPrefix(env: Env, t: Phrases, isAr: bool, items: seq<CartItem>, k: nat)
    requires k <= |items|
    ensures ItemBlocks(env, t, isAr, items[..k]) == ItemBlocks(env, t, isAr, items)[..k]
  {
  }

  /**
   * The section of the first `k` items is the start of the whole section, the blocks of the
   * remaining items (numbered on from `k + 1`) following it.
   */
  lemma ItemSectionPrefix(env: Env, t: Phrases, isAr: bool, items: seq<CartItem>, k: nat)
    requires k <= |items|
    ensures ItemSection(env, t, isAr, items)
      == ItemSection(env, t, isAr, items[..k]) + Concat(ItemBlocks(env, t, isAr, items)[k..])
  {
    ItemBlocksPrefix(env, t, isAr, items, k);
    ConcatSplit(ItemBlocks(env, t, isAr, items), k);
  }

  /**
   * The item numbered `k + 1` is the `k`-th line of the cart: taking one more line into the
   * section appends exactly that line's block.
   */
  lemma ItemSectionSnoc(env: Env, t: Phrases, isAr: bool, items: seq<CartItem>, k: nat)
    requires k < |items|
    ensures ItemSection(env, t, isAr, items[..k + 1])
      == ItemSection(env, t, isAr, items[..k]) + ItemBlock(env, t, isAr, k + 1, items[k])
  {
    var blocks := ItemBlocks(env, t, isAr, items);
    ItemBlocksPrefix(env, t, isAr, items, k);
    ItemBlocksPrefix(env, t, isAr, items, k + 1);
    ConcatTake(blocks, k);
    assert blocks[k] == ItemBlock(env, t, isAr, k + 1, items[k]);
  }

  /**
   * An item's block opens with its number and its name in the message language, then the
   * quantity and the price of the line; it closes with an empty line.
   */
  lemma ItemBlockHead(env: Env, t: Phrases, isAr: bool, n: nat, item: CartItem)
    ensures |ItemBlock(env, t, isAr, n, item)| >= 4
    ensures ItemBlock(env, t, isAr, n, item)[0] == NatToString(n) + ". " + ItemName(isAr, item) + "\n"
    ensures ItemBlock(env, t, isAr, n, item)[1] == t.qty + " " + ShowNumber(env, item.quantity) + "\n"
    ensures ItemBlock(env, t, isAr, n, item)[2] == t.price + " $" + Fixed2(LineTotal(item)) + "\n"
    ensures ItemBlock(env, t, isAr, n, item)[|ItemBlock(env, t, isAr, n, item)| - 1] == "\n"
  {
    var head := ItemHead(env, t, isAr, n, item);
    var rest := OptionLines(item.selectedOptions) + InstructionLines(t, item) + ["\n"];
    Regroup(head + OptionLines(item.selectedOptions), InstructionLines(t, item), ["\n"]);
    Regroup(head, OptionLines(item.selectedOptions), InstructionLines(t, item) + ["\n"]);
    assert ItemBlock(env, t, isAr, n, item) == head + rest;
  }

  /** After the three head lines come the option lines, one per selected option in entry order. */
  lemma ItemBlockOptions(env: Env, t: Phrases, isAr: bool, n: nat, item: CartItem)
    ensures |ItemBlock(env, t, isAr, n, item)| >= 4 + |item.selectedOptions|
    ensures ItemBlock(env, t, isAr, n, item)[3..3 + |item.selectedOptions|] == OptionLines(item.selectedOptions)
  {
    var head := ItemHead(env, t, isAr, n, item);
    var options := OptionLines(item.selectedOptions);
    var rest := InstructionLines(t, item) + ["\n"];
    Regroup(head + options, InstructionLines(t, item), ["\n"]);
    assert ItemBlock(env, t, isAr, n, item) == head + options + rest;
    PiecesAt(head, options, rest);
  }

  /**
   * The instructions line is there exactly when the instructions hold something other than
   * white space, in which case it shows them trimmed, just after the option lines.
   */
  lemma ItemBlockInstructions(env: Env, t: Phrases, isAr: bool, n: nat, item: CartItem)
    ensures |ItemBlock(env, t, isAr, n, item)| == 4 + |item.selectedOptions| + (if IsBlank(item.instructions) then 0 else 1)
    ensures !IsBlank(item.instructions) ==>
      ItemBlock(env, t, isAr, n, item)[3 + |item.selectedOptions|] == t.instructions + " " + Trim(item.instructions) + "\n"
  {
    var front := ItemHead(env, t, isAr, n, item) + OptionLines(item.selectedOptions);
    var rest := InstructionLines(t, item) + ["\n"];
    Regroup(front, InstructionLines(t, item), ["\n"]);
    assert ItemBlock(env, t, isAr, n, item) == front + rest;
    assert |front| == 3 + |item.selectedOptions|;
    TrimEmptyIffBlank(item.instructions);
    if item.instructions == "" {
      assert IsBlank(item.instructions);
    }
  }

  /**
   * The summary counts items with the ledger's weight-aware rule: one per weighed line plus
   * the quantities of the other lines.
   */
  lemma SummaryCount(env: Env, t: Phrases, items: seq<CartItem>, details: Option<OrderDetails>)
    ensures |SummaryChunks(env, t, items, details)| >= 2
    ensures SummaryChunks(env, t, items, details)[0] == Rule + "\n"
    ensures SummaryChunks(env, t, items, details)[1]
      == t.totalItems + " " + ShowNumber(env, WeighedLines(items) as real + PieceQuantity(items)) + "\n"
  {
    var count := CountLines(env, t, items);
    var s := SummaryChunks(env, t, items, details);
    assert s == count + FeeLines(t, details) + BillLines(t, items, details);
    assert s[0] == count[0] && s[1] == count[1];
    CountLineWeighed(env, t, items);
  }

  lemma CountLineWeighed(env: Env, t: Phrases, items: seq<CartItem>)
    ensures CountLines(env, t, items)[1]
      == t.totalItems + " " + ShowNumber(env, WeighedLines(items) as real + PieceQuantity(items)) + "\n"
  {
    TotalItemsSplit(items);
  }

  /**
   * The fee line, written `$1.50`, sits between the count and the total bill exactly for a
   * delivery with details; the total bill comes just before the thanks.
   */
  lemma SummaryFeeAndBill(env: Env, t: Phrases, items: seq<CartItem>, details: Option<OrderDetails>)
    ensures |SummaryChunks(env, t, items, details)| == if ChargesDelivery(details) then 5 else 4
    ensures ChargesDelivery(details) ==> SummaryChunks(env, t, items, details)[2] == t.deliveryCharge + " $1.50\n"
    ensures var s := SummaryChunks(env, t, items, details);
      |s| >= 2 && s[|s| - 2] == t.totalBill + " $" + Fixed2(FinalTotal(items, details)) + "\n"
  {
    FeeText();
    var s := SummaryChunks(env, t, items, details);
    var count, fee, bill := CountLines(env, t, items), FeeLines(t, details), BillLines(t, items, details);
    assert s == count + fee + bill;
    assert s[|s| - 2] == bill[0];
    if ChargesDelivery(details) {
      assert s[2] == fee[0];
    }
  }

  /** The flat fee is written `1.50`. */
  lemma FeeText()
    ensures Fixed2(DeliveryFee) == "1.50"
  {
    assert Cents(DeliveryFee) == 150;
    assert NatToString(1) == "1";
    assert NatToString(5) == "5";
    assert NatToString(50) == "50";
  }

  /** The whole message of an empty English order without details. */
  lemma EmptyOrderMessage(env: Env)
    ensures Message(env, [], Code(En), None)
      == English.hello + (Rule + "\n") + (English.totalItems + " 0\n") + (English.totalBill + " $0.00\n") + English.thankYou
  {
    var t := English;
    EmptyOrderChunks(env);
    ConcatFive(t.hello, Rule + "\n", t.totalItems + " 0\n", t.totalBill + " $0.00\n", t.thankYou);
  }

  /** An empty order without details: the greeting, the summary and the thanks, nothing else. */
  lemma EmptyOrderChunks(env: Env)
    ensures MessageChunks(env, [], Code(En), None)
      == [English.hello, Rule + "\n", English.totalItems + " 0\n", English.totalBill + " $0.00\n", English.thankYou]
  {
    var t := English;
    assert ShowNumber(env, 0.0) == "0" by {
      assert NatToString(0) == "0";
    }
    assert Fixed2(0.0) == "0.00" by {
      assert Cents(0.0) == 0;
      assert NatToString(0) == "0";
    }
    var h, r, c, b, ty := t.hello, Rule + "\n", t.totalItems + " 0\n", t.totalBill + " $0.00\n", t.thankYou;
    assert t.totalItems + " " + ShowNumber(env, TotalItems([])) + "\n" == c;
    assert t.totalBill + " $" + Fixed2(FinalTotal([], None)) + "\n" == b;
    assert ItemSection(env, t, false, []) == [] by {
      assert ItemBlocks(env, t, false, []) == [];
    }
    assert SummaryChunks(env, t, [], None) == [r, c] + [] + [b, ty];
  }

  lemma ConcatFive(h: string, r: string, c: string, b: string, ty: string)
    ensures Concat([h, r, c, b, ty]) == h + r + c + b + ty
  {
    ConcatSnoc([], h);
    assert [] + [h] == [h];
    ConcatSnoc([h], r);
    assert [h] + [r] == [h, r];
    ConcatSnoc([h, r], c);
    assert [h, r] + [c] == [h, r, c];
    ConcatSnoc([h, r, c], b);
    assert [h, r, c] + [b] == [h, r, c, b];
    ConcatSnoc([h, r, c, b], ty);
    assert [h, r, c, b] + [ty] == [h, r, c, b, ty];
    assert Concat<char>([]) + h == h;
  }
}
