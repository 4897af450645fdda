# Parisienne ordering core in Dafny

This project models the client-side core of a bilingual (English / Arabic) restaurant
ordering page. The core has six parts:

- the cart store (`useCartStore`), which adds, updates and removes cart lines and counts the items;
- the order-message formatter `generateWhatsAppLink`, which turns the cart and the order details into a `https://wa.me/…` link;
- the checkout panel `CartContent`, with its service, timing and payment choices and `handleCheckout`;
- the dish card `MenuCard`, with pending options, instructions, quantity stepping, the cart badge and "Add";
- the cart line `CartItemRow` and the stepper `QuantitySelector`;
- the language store and the menu page `Home`, which covers search, filtering and which category is open.

The modules follow the program:

- `Ledger` covers the cart store. `CartStore` is a class whose `items` and `isCartOpen` fields change in place.
- `Locale` covers the language store, also as a class.
- `WhatsApp` covers the formatter:
  - the message is the sequence of the pieces the source appends with `+=`, and `Text.Concat` joins them;
  - `GenerateLink` and its `Append…` steps are methods proved equal to the functions `WhatsAppLink`, `ItemSection`, `SummaryChunks` and the rest.
- `Checkout` covers `CartContent`, `Menu` covers `MenuCard`, `CartRow` covers `CartItemRow`, `QuantityDisplay` covers `QuantitySelector`, and `Home` covers the menu page.

Shared modules:

- `Numbers` holds the JavaScript number behaviour the core relies on:
  - truthiness of optional numbers;
  - `Math.round(x * 100) / 100`;
  - `toFixed(2)`;
  - the trailing-zero trimming `/\.?0+$/`.
- `Text` holds the string operations: decimal digits, `padStart`, `trim`, `includes`, `replace`, and concatenation.
- `Objects` holds `Record<string, string>` as an ordered list of entries. A value is a text or `undefined`, which is what `choices[0]` of an empty choice list stores.
- `Platform.Env` bundles the platform functions the core calls but does not define:
  - `encodeURIComponent`;
  - `toLowerCase`;
  - `new Date(…)` read through local-time getters;
  - `String(x)` for a fractional number.

Modelling conventions:

- Numbers are exact reals.
- An optional string that is absent is the empty string. The source tests such strings only for truthiness or with `||`, so "" and `undefined` behave alike.
- An optional number is an `Option<real>`.

Two behaviours of the code are easy to miss:

- A line's name in the message and in the cart row falls back from the name in the page language straight to the generic `name` (`whatsapp.ts:108`, `CartItemRow.tsx:18`). It never falls back to the name in the other language.
- `handleCheckout` passes its details object in the language position (see Findings).

## Model

| member | source | states |
|---|---|---|
| Ledger.NewLine | src/store/cartStore.ts:52-65 | the new line keeps the request's fields, takes the given id, has quantity `quantity \|\| minQuantity \|\| 1` (never 0), and defaults instructions to "" and options to empty |
| Ledger.Without | src/store/cartStore.ts:78 | removal keeps exactly the lines with another id, and changes nothing when the id is absent |
| Ledger.WithoutAppend | src/store/cartStore.ts:78 | removal works on each part of the cart independently |
| Ledger.WithoutPresent | src/store/cartStore.ts:78 | with unique ids, removing a present id shortens the cart by exactly one |
| Ledger.WithoutKeepsIdsUnique | src/store/cartStore.ts:78 | removal keeps ids unique and leaves no line with the removed id |
| Ledger.MapWhere | src/store/cartStore.ts:83-85 | an update that keeps ids leaves the length and every line's id in place |
| Ledger.MapWhereLeavesOthers | src/store/cartStore.ts:83-85 | an update that keeps ids changes only the lines with that id: with those removed, before and after are equal, in order |
| Ledger.MapWhereKeepsIds | src/store/cartStore.ts:83-85 | an update that keeps ids keeps every line's id, so unique ids stay unique |
| Ledger.WeighedLinesSnoc | src/store/cartStore.ts:99-104 | one more line adds one weighed line, or its quantity to the piece count |
| Ledger.TotalItemsSplit | src/store/cartStore.ts:98-105 | `TotalItems`, the item count, is the number of weighed lines (step below 1) plus the quantities of the other lines |
| Ledger.LinesTotalAppend | src/utils/whatsapp.ts:126-131 | the price total and the item count both add up over parts of the cart |
| Ledger.LinesTotalNonNegative | src/utils/whatsapp.ts:131 | with non-negative prices and quantities the total is non-negative |
| Ledger.CartStore.constructor | src/store/cartStore.ts:46-47 | an empty, closed cart |
| Ledger.CartStore.ToggleCart | src/store/cartStore.ts:48 | flips `isCartOpen` and keeps the lines |
| Ledger.CartStore.SetCartOpen | src/store/cartStore.ts:49 | sets `isCartOpen` and keeps the lines |
| Ledger.CartStore.AddItem | src/store/cartStore.ts:50-68 | appends `NewLine` at the end; with a fresh id, ids stay unique |
| Ledger.CartStore.RemoveItem | src/store/cartStore.ts:76-80 | the lines become `Without`; one fewer when the id was there; ids stay unique |
| Ledger.CartStore.UpdateQuantity | src/store/cartStore.ts:81-87 | only the lines with the id get the new quantity; length, order and the others are unchanged |
| Ledger.CartStore.UpdateInstructions | src/store/cartStore.ts:88-94 | only the lines with the id get the new instructions |
| Ledger.CartStore.UpdateOptions | src/store/cartStore.ts:69-75 | only the lines with the id get the new options |
| Ledger.CartStore.ClearCart | src/store/cartStore.ts:95-97 | no lines; the open state is kept |
| Ledger.CartStore.GetTotalItems | src/store/cartStore.ts:98-105 | `getTotalItems()` counts one per weighed line plus the quantities of the other lines |
| Locale.DirectionOf | src/store/languageStore.ts:20 | right to left exactly for Arabic |
| Locale.Translate | src/store/languageStore.ts:25-28 | the result is the key or an entry of the language's table; a non-empty key never gives ""; a non-empty entry for the key is the result |
| Locale.LanguageStore.constructor | src/store/languageStore.ts:17-18 | Arabic, right to left, consistent |
| Locale.LanguageStore.Rehydrated | src/store/languageStore.ts:32-38 | the saved language with the initial right-to-left direction, which is consistent only when Arabic was saved |
| Locale.LanguageStore.SetLanguage | src/store/languageStore.ts:19-24 | the language and its direction, consistent |
| Locale.LanguageStore.T | src/store/languageStore.ts:25-28 | `t(key)` gives the key or an entry of the current language's table, and never "" for a non-empty key |
| Numbers.OrElse | src/store/cartStore.ts:53 | `x \|\| d` is one of the two; it is zero only when both are, so the default 1 keeps quantities away from 0; a present non-zero value wins |
| Numbers.Round2Near | src/components/Menu/MenuCard.tsx:51 | `Round2` moves a value by at most half a cent and lands on the cent grid |
| Numbers.Round2Fixes | src/components/Menu/MenuCard.tsx:51 | a value on the cent grid is left unchanged |
| Numbers.Round2Monotone | src/components/Menu/MenuCard.tsx:51 | rounding keeps order |
| Numbers.Round2KeepsBound | src/components/Menu/MenuCard.tsx:174 | a value at most 0.001 under a bound on the cent grid rounds to at least that bound |
| Numbers.TrimZerosOfCents | src/components/UI/QuantitySelector.tsx:33 | `TrimZeros` of a two-decimal rendering drops ".00", drops one trailing zero, or keeps both decimals |
| Numbers.Fixed2ReadsBack | src/utils/whatsapp.ts:112 | `toFixed(2)` of a non-negative amount is units, a point and two digits, which read back as the amount rounded to whole cents, within half a cent of it |
| Text.NatToString | src/utils/whatsapp.ts:3 | a non-empty string of digits, with one digit exactly below 10 |
| Text.NatToStringRoundTrip | src/utils/whatsapp.ts:3 | the digits read back as the number |
| Text.Pad2RoundTrip | src/utils/whatsapp.ts:24-29 | `padStart(2, '0')` of a number below 100 gives two digits that read back as it |
| Text.TrimEmptyIffBlank | src/utils/whatsapp.ts:120 | `Trim` gives "" exactly for white space only |
| Text.TrimHasNoOuterSpace | src/utils/whatsapp.ts:121 | a non-empty trimmed text starts and ends with a non-space |
| Text.FindFrom | src/components/Menu/MenuCard.tsx:78-79 | the first occurrence at or after a position, or none at all |
| Text.ReplaceFirst | src/components/Menu/MenuCard.tsx:79 | `replace` with a string pattern swaps the first occurrence only, keeping the text before and after it; with no occurrence the text is unchanged |
| Objects.PutGet | src/components/Menu/MenuCard.tsx:72 | after `{...prev, [k]: v}`, `k` reads `v` and every other key reads as before |
| Objects.PutShape | src/components/Menu/MenuCard.tsx:72 | an existing key keeps its place, a new key goes last, and keys stay unique |
| WhatsApp.ArabicIffAr | src/utils/whatsapp.ts:40-44 | the Arabic phrases exactly for the code `ar`; anything else gets the English ones |
| WhatsApp.FormatDate | src/utils/whatsapp.ts:20-36 | the method computes `FormatDateSpec`: "" for no date, else `dd/mm/yyyy h:mm AM\|PM` of the local time |
| WhatsApp.ClockRoundTrip | src/utils/whatsapp.ts:28-33 | the 12-hour clock hour is 1..12, PM exactly from noon, and hour and PM/AM give back the 24-hour hour |
| WhatsApp.DateTextFields | src/utils/whatsapp.ts:24-35 | the date opens with the padded day and month and ends with the padded minutes and the marker; each field reads back |
| WhatsApp.Labelled | src/utils/whatsapp.ts:80-82 | a labelled line exactly when the value is present |
| WhatsApp.OptionLines | src/utils/whatsapp.ts:114-118 | one `- key: value` line per chosen option, in entry order; an `undefined` value is written "undefined" |
| WhatsApp.GenerateLink | src/utils/whatsapp.ts:38-149 | the step-by-step builder yields `WhatsAppLink` |
| WhatsApp.AppendHeader | src/utils/whatsapp.ts:72-103 | appends the header pieces |
| WhatsApp.AppendOrderLines | src/utils/whatsapp.ts:73-75 | appends the order type, time and payment lines |
| WhatsApp.AppendLocation | src/utils/whatsapp.ts:76-101 | appends the location pieces |
| WhatsApp.AppendFields | src/utils/whatsapp.ts:80-97 | appends the lines of the present address fields |
| WhatsApp.AppendField | src/utils/whatsapp.ts:80-82 | appends one labelled line when the field is present |
| WhatsApp.AppendItems | src/utils/whatsapp.ts:105-124 | the item loop appends the whole item section |
| WhatsApp.AppendItem | src/utils/whatsapp.ts:107-123 | appends one item's block |
| WhatsApp.AppendItemHead | src/utils/whatsapp.ts:107-112 | appends the number-and-name, quantity and price lines |
| WhatsApp.AppendOptions | src/utils/whatsapp.ts:114-118 | the option loop appends the option lines |
| WhatsApp.AppendInstructions | src/utils/whatsapp.ts:120-122 | appends the instructions line when there is one |
| WhatsApp.AppendSummary | src/utils/whatsapp.ts:126-144 | appends the count, fee, bill and thanks |
| WhatsApp.AppendCount | src/utils/whatsapp.ts:134-135 | appends the separator and the item count |
| WhatsApp.AppendFee | src/utils/whatsapp.ts:137-141 | appends the fee line and raises the total by 1.5 exactly for a delivery with details |
| WhatsApp.AppendBill | src/utils/whatsapp.ts:143-144 | appends the total bill and the thanks |
| WhatsApp.CountItems | src/utils/whatsapp.ts:126-129 | the reduce loop computes the ledger's item count |
| WhatsApp.SumLines | src/utils/whatsapp.ts:131 | the reduce loop computes the line total |
| WhatsApp.MessageFraming | src/utils/whatsapp.ts:70-144 | the message starts with the greeting and ends with the thanks of its language |
| WhatsApp.ComposeEnds | src/utils/whatsapp.ts:70-144 | the first piece is the greeting and the last the thanks |
| WhatsApp.HeaderPlacement | src/utils/whatsapp.ts:72-105 | with details the header comes right after the greeting and the items right after it; without details the items follow the greeting |
| WhatsApp.HeaderShape | src/utils/whatsapp.ts:73-102 | the order type, time and payment lines with their choices, then the location lines, then the separator |
| WhatsApp.LocationLines | src/utils/whatsapp.ts:76-101 | no location for takeaway, "not provided" without a link, otherwise the label or link, the link, then the present fields in order |
| WhatsApp.FieldLinesPresent | src/utils/whatsapp.ts:80-97 | the six conditional lines are those of the present fields, in field order |
| WhatsApp.ItemSectionPrefix | src/utils/whatsapp.ts:105 | the item section of the first k lines is a prefix of the whole section |
| WhatsApp.ItemSectionSnoc | src/utils/whatsapp.ts:105-107 | line k (0-based) is listed as number k + 1, right after the lines before it |
| WhatsApp.ItemBlockHead | src/utils/whatsapp.ts:107-123 | a block opens with number and localized name, the quantity, and `price × quantity` to two decimals, and ends with an empty line |
| WhatsApp.ItemBlockOptions | src/utils/whatsapp.ts:114-118 | the option lines follow the price line, one per option in order |
| WhatsApp.ItemBlockInstructions | src/utils/whatsapp.ts:120-122 | the instructions line is there exactly for non-blank instructions, trimmed |
| WhatsApp.SummaryCount | src/utils/whatsapp.ts:126-135 | the summary opens with the separator and the count of weighed lines plus piece quantities |
| WhatsApp.CountLineWeighed | src/utils/whatsapp.ts:126-129 | the count line shows weighed lines plus piece quantities |
| WhatsApp.SummaryFeeAndBill | src/utils/whatsapp.ts:137-143 | the `$1.50` fee line is there exactly for a delivery with details, and the bill shows the final total before the thanks |
| WhatsApp.FeeText | src/utils/whatsapp.ts:140 | the fee is written `1.50` |
| WhatsApp.EmptyOrderChunks | src/utils/whatsapp.ts:38-149 | an empty English order without details has the greeting, separator, count 0, bill `$0.00` and thanks, nothing else |
| WhatsApp.EmptyOrderMessage | src/utils/whatsapp.ts:38-149 | the whole text of that message |
| WhatsApp.WhatsAppLink | src/utils/whatsapp.ts:146-148 | the link always opens the restaurant's `wa.me` chat; `GenerateLink` computes it |
| Checkout.CartContent.constructor | src/components/Cart/CartContent.tsx:38-42 | takeaway, now, no time, cash, no error |
| Checkout.CartContent.SetServiceType | src/components/Cart/CartContent.tsx:110-116 | sets the service type only |
| Checkout.CartContent.ChooseNow | src/components/Cart/CartContent.tsx:128-131 | timing now, and clears the error |
| Checkout.CartContent.ChooseSchedule | src/components/Cart/CartContent.tsx:137 | timing scheduled; the error stays |
| Checkout.CartContent.EditScheduledTime | src/components/Cart/CartContent.tsx:148-151 | sets the time and clears the error |
| Checkout.CartContent.SetPaymentMethod | src/components/Cart/CartContent.tsx:164-170 | sets the payment method only |
| Checkout.CartContent.ClearAll | src/components/Cart/CartContent.tsx:83-87 | empties the cart exactly when confirmed |
| Checkout.CartContent.TotalPrice | src/components/Cart/CartContent.tsx:36 | the shown total is the bill of the message without details, so it never includes a delivery fee |
| Checkout.CartContent.HandleCheckout | src/components/Cart/CartContent.tsx:44-65 | empty cart: nothing; scheduled without a time: the error only; else the link of the call as written, then the cart is cleared and closed |
| Checkout.CartContent.HandleCheckoutIntended | src/components/Cart/CartContent.tsx:44-65 | the same guards and effects, with the link built from the language and the details |
| Checkout.CheckoutMessageAsWritten | src/components/Cart/CartContent.tsx:59 | the message is the English one without details: no header, a 4-piece summary, and a bill of the bare line total |
| Checkout.CheckoutMessageIntended | src/components/Cart/CartContent.tsx:52-59 | the page's greeting and thanks, the header after the greeting, a fee line and the fee in the bill exactly for a delivery |
| Checkout.DeliveryCheckoutDiffers | src/components/Cart/CartContent.tsx:59 | for a delivery, the message as written is the English composition without details and the intended one the same English composition with them |
| Checkout.FeeSplice | src/utils/whatsapp.ts:72-144 | with delivery details the message is the one without them plus the header right after the greeting and the `$1.50` fee line before the bill; the bill adds the fee; greeting, item section, count lines and thanks are the same |
| Checkout.SummaryWithoutDetails | src/utils/whatsapp.ts:134-144 | without details the summary is the two count lines, the bill of the lines' total and the thanks |
| Checkout.SummaryWithDelivery | src/utils/whatsapp.ts:134-144 | for a delivery the summary is the two count lines, the `$1.50` fee line, the bill of the lines' total plus the fee and the thanks |
| Checkout.DisplayedTotalExcludesFee | src/components/Cart/CartContent.tsx:36 | the panel's `TotalPrice()` equals the message's bill exactly when no fee applies, and falls short by the fee otherwise |
| QuantityDisplay.ButtonsEnabled | src/components/UI/QuantitySelector.tsx:27 | `DecreaseDisabled`: "-" is enabled exactly above the minimum (1 by default); "+" is always enabled |
| QuantityDisplay.WholeQuantityText | src/components/UI/QuantitySelector.tsx:33 | `QuantityText` writes a whole quantity in digits that read back as it |
| QuantityDisplay.FractionalQuantityText | src/components/UI/QuantitySelector.tsx:33 | `QuantityText` rounds a fractional quantity to cents, then drops ".00" or one trailing zero |
| QuantityDisplay.OneAndAHalfText | src/components/UI/QuantitySelector.tsx:33 | 1.5 is written "1.5" |
| QuantityDisplay.QuarterText | src/components/UI/QuantitySelector.tsx:33 | 0.25 is written "0.25" |
| QuantityDisplay.RoundsToWholeText | src/components/UI/QuantitySelector.tsx:33 | 1.999 is written "2" |
| Menu.DefaultOptions | src/components/Menu/MenuCard.tsx:39-47 | the loop builds the initial choices |
| Menu.PutKeys | src/components/Menu/MenuCard.tsx:72 | a spread-assign adds its key to the keys and nothing else |
| Menu.DefaultsKeys | src/components/Menu/MenuCard.tsx:39-47 | `Defaults`, the initial choices, hold each group name once and no other key |
| Menu.DefaultsDistinct | src/components/Menu/MenuCard.tsx:42-44 | with distinct group names, each group in order at its first choice |
| Menu.StepsKeepMinimum | src/components/Menu/MenuCard.tsx:172-177 | from at least the minimum, `Increased` and `Decreased` stay at or above it |
| Menu.StepsOnGrid | src/components/Menu/MenuCard.tsx:172-177 | on the cent grid, `Increased` adds the step exactly, and an allowed `Decreased` subtracts it exactly |
| Menu.IncreaseThenDecrease | src/components/Menu/MenuCard.tsx:172-177 | "-" undoes "+" |
| Menu.CollapseCommas | src/components/Menu/MenuCard.tsx:79 | collapsing `,\s*,` never lengthens the text |
| Menu.StripLeadingComma | src/components/Menu/MenuCard.tsx:79 | stripping `^,\s*` never lengthens the text |
| Menu.StripTrailingComma | src/components/Menu/MenuCard.tsx:79 | stripping `,\s*$` never lengthens the text |
| Menu.TogglePresetAdds | src/components/Menu/MenuCard.tsx:80-81 | `TogglePreset` appends an absent preset after ", " (or alone), keeping the current text as prefix |
| Menu.TogglePresetRemoves | src/components/Menu/MenuCard.tsx:78-79 | a present preset is taken out, so the text shrinks by at least its length |
| Menu.CollapseKeepsOneComma | src/components/Menu/MenuCard.tsx:79 | a single trailing ", " survives the collapse |
| Menu.PresetFoundLast | src/components/Menu/MenuCard.tsx:79 | a preset appended after ", " is found first at its appended place |
| Menu.RemoveLastPreset | src/components/Menu/MenuCard.tsx:79 | removing it leaves the text and the ", " |
| Menu.StripSeparator | src/components/Menu/MenuCard.tsx:79 | the trailing ", " is then stripped |
| Menu.TogglePresetTwice | src/components/Menu/MenuCard.tsx:75-84 | `TogglePreset` twice gives back comma-free text that did not hold the preset |
| Menu.TogglePresetFromEmpty | src/components/Menu/MenuCard.tsx:75-84 | from empty, one click gives the preset and a second gives "" |
| Menu.TogglePresetRemovesListed | src/components/Menu/MenuCard.tsx:75-84 | on presets joined by ", ", none holding a comma or another, clicking a listed one removes it with one separator and leaves the others joined in order |
| Menu.TogglePresetAppendsListed | src/components/Menu/MenuCard.tsx:75-84 | on such a joined list, clicking an unlisted preset appends it to the list |
| Menu.PresetsSeparable | src/components/Menu/MenuCard.tsx:86 | the card's three presets meet those conditions |
| Menu.CardQuantitySplit | src/components/Menu/MenuCard.tsx:29-37 | `CardQuantity` adds up over parts of the cart |
| Menu.CardQuantityOtherDishes | src/components/Menu/MenuCard.tsx:29 | lines of other dishes add nothing |
| Menu.WeighedLineOnBadge | src/components/Menu/MenuCard.tsx:30-37 | a weighed line counts its weight on the card but 1 in the cart's item count |
| Menu.Badge | src/components/Menu/MenuCard.tsx:98-102 | a badge exactly for a positive quantity, opening with the stepper's rendering of it |
| Menu.CardImage | src/components/Menu/MenuCard.tsx:87 | never empty: the dish's image, else the placeholder with its encoded English name |
| Menu.AddedLine | src/components/Menu/MenuCard.tsx:56-66 | the line `AddRequest` adds is named "English - Arabic", carries the pending choices, step and minimum, and no per-language names |
| Menu.AddRaisesBadge | src/components/Menu/MenuCard.tsx:56-66 | adding raises the card's quantity by the added line's quantity |
| Menu.MenuCard.constructor | src/components/Menu/MenuCard.tsx:39-54 | default choices, no instructions, quantity at the minimum |
| Menu.MenuCard.Increase | src/components/Menu/MenuCard.tsx:172 | the pending quantity becomes `Increased` |
| Menu.MenuCard.Decrease | src/components/Menu/MenuCard.tsx:173-177 | the pending quantity becomes `Decreased` |
| Menu.MenuCard.OptionChange | src/components/Menu/MenuCard.tsx:71-73 | the choice is spread-assigned into the pending options |
| Menu.MenuCard.EditInstructions | src/components/Menu/MenuCard.tsx:163 | the pending instructions become the text |
| Menu.MenuCard.PresetClick | src/components/Menu/MenuCard.tsx:75-84 | the pending instructions are toggled |
| Menu.MenuCard.HandleAddToCart | src/components/Menu/MenuCard.tsx:56-69 | appends the request's line to the cart; resets the instructions and the quantity, keeps the options |
| CartRow.CardLineTitle | src/components/Cart/CartItemRow.tsx:18 | a line added from a card shows "English - Arabic" in both languages, as the message names it |
| CartRow.DisplayName | src/components/Cart/CartItemRow.tsx:18 | the name in the page language or the plain name, never the other language's; empty only when the plain name is |
| CartRow.RowOptionLines | src/components/Cart/CartItemRow.tsx:27-35 | one `key: value` line per option, in entry order; an `undefined` value shows nothing after the colon |
| CartRow.RowPriceAsInMessage | src/components/Cart/CartItemRow.tsx:25 | the row's price text is the figure on the price line of the line's block in the message |
| CartRow.RowOptionsAsInMessage | src/components/Cart/CartItemRow.tsx:27-35 | when every option value is a text, the row's option lines are the message's, without dash and newline |
| CartRow.RowOptionUndefined | src/components/Cart/CartItemRow.tsx:27-35 | an `undefined` value shows as `key: ` in the row but as `- key: undefined` in the message, so the two lines differ |
| CartRow.RowDecreaseUnguarded | src/components/Cart/CartItemRow.tsx:51 | a line less than one step above its minimum still has "-" enabled, and `RowDecreased` takes it a whole step down, below its minimum |
| CartRow.RowStepsAsOnCard | src/components/Cart/CartItemRow.tsx:51 | where the card would allow "-", `RowDecreased` is the card's quantity |
| CartRow.RowDecreaseOnGrid | src/components/Cart/CartItemRow.tsx:51 | on the grid and a step above the minimum, "-" subtracts one step and stays at the minimum or above |
| CartRow.Increase | src/components/Cart/CartItemRow.tsx:52 | only the row's line gets one step more, rounded |
| CartRow.Decrease | src/components/Cart/CartItemRow.tsx:51 | only the row's line gets one step less, rounded |
| CartRow.Remove | src/components/Cart/CartItemRow.tsx:40 | the row's line leaves the cart |
| CartRow.EditInstructions | src/components/Cart/CartItemRow.tsx:66 | only the row's line gets the new instructions |
| Home.MatchingItems | src/pages/Home.tsx:26-35 | the search never adds dishes |
| Home.MatchingItemsMembers | src/pages/Home.tsx:26-34 | a dish is kept exactly when it is in the category and `Matches` the query |
| Home.MatchingItemsAppend | src/pages/Home.tsx:26 | the search keeps menu order: it works on each part independently |
| Home.EmptyQueryKeepsItems | src/pages/Home.tsx:27 | an empty query keeps every dish |
| Home.CategoryImage | src/pages/Home.tsx:41 | the category's image, else the placeholder with its encoded English name; never empty |
| Home.FilteredCategories | src/pages/Home.tsx:24-45 | the filter never adds categories |
| Home.FilteredCategoriesMembers | src/pages/Home.tsx:24-45 | exactly the categories with a match are listed, with their matches and a picture, and none is empty |
| Home.FilteredCategoriesAppend | src/pages/Home.tsx:24-45 | the list keeps menu order: it works on each part independently |
| Home.EmptyQueryShowsMenu | src/pages/Home.tsx:27-43 | with no query every non-empty category is listed whole, and nothing else |
| Home.OpenCategories | src/pages/Home.tsx:146-148 | `IsOpen`: in selection mode at most one category is open; a query opens all outside it; with no query only the expanded one |
| Home.HeaderClickFlips | src/pages/Home.tsx:162 | a header click flips its own category, and in selection mode leaves the others closed |
| Home.HomePage.constructor | src/pages/Home.tsx:13-16 | nothing expanded, no query, not in selection mode |
| Home.HomePage.CategoryClick | src/pages/Home.tsx:47-50 | selection mode with exactly that category open, no dish expanded |
| Home.HomePage.Search | src/pages/Home.tsx:87-90 | the query is set and selection mode is left |
| Home.HomePage.HeaderClick | src/pages/Home.tsx:162 | the expanded category is toggled |

## Left out

- Rendering, styling and the document writes of the language store (`dir`, `lang`) are not modelled.
- `window.open`, `window.confirm`, navigation, `requestAnimationFrame` and scrolling are not modelled. The link and the confirmation answer are a result and a parameter.
- Persistence to local storage is not modelled. `Locale.LanguageStore.Rehydrated` models the merged state after a reload; the cart's reload is not modelled.
- Floating point is not modelled: numbers are exact reals, so IEEE rounding in `price * quantity`, in sums and in `Math.round` is not captured.
- The random `instanceId` of `addItem` is a parameter.
- `encodeURIComponent`, `toLowerCase`, the `Date` parsing and the decimal text of a fractional number are functions of `Platform.Env`.
- `WhatsApp.FormatDate` and `WhatsApp.DateTextFields` therefore state nothing about invalid dates.
- The search's lower-casing is a function of `Platform.Env`, so case-insensitive matching holds only as far as that function does.
- JavaScript object key order is modelled as entry order, so integer-like option names are not moved to the front.
- `CartItemRow`'s `onChange` handler is not modelled, because `QuantitySelector` has no such property and never calls it.
- `Home` passes `expanded` and `onToggle` to `MenuCard`, which ignores them. The model keeps `expandedItemId`, which is only ever reset.
- The cart button, the language toggle and the "no items" text on the menu page are not modelled. They call `CartStore.ToggleCart`, `LanguageStore.SetLanguage` and `Translate`, which are modelled.
- `choices[0]` of an empty choice list is `undefined`. Both of its renderings are modelled: the message writes "undefined", and the cart row writes nothing.
- `Menu.CollapseCommas`, `Menu.StripLeadingComma` and `Menu.StripTrailingComma` state only a length bound in their own contracts. Their exact results are proved for the texts the preset buttons build: comma-free text with one preset appended (`Menu.TogglePresetTwice`) and presets joined by ", " (`Menu.TogglePresetRemovesListed`). Other texts are covered only by the bound.
- `Numbers.ShowNumber`, `Text.IntToString` and `Numbers.Fixed2` always write plain decimal digits. JavaScript's `String(x)` and `toFixed` switch to exponent notation from 1e21 upwards in size; that form is not modelled.
- `Home.MatchingItems` and `Home.FilteredCategories` state only a length bound in their own contracts. Their contents are stated by `Home.MatchingItemsMembers` and `Home.FilteredCategoriesMembers`.

## Findings

| source | as written | input that shows it | evidently intended | confidence | as-written member | corrected member |
|---|---|---|---|---|---|---|
| src/components/Cart/CartContent.tsx:59 | `generateWhatsAppLink(items, details)` passes the details object as the language and no details | any non-empty cart checked out as a delivery in Arabic | pass the page language and the details, so the message carries the header, the fee line and the fee in the bill, in the page language | high, not executed | Checkout.CheckoutMessageAsWritten | Checkout.CheckoutMessageIntended |
