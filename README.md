# Zenith restaurant: cart store and checkout, modelled in Dafny

This project models the logic of two parts of the restaurant web app.

- **Cart store** (`src/context/CartContext.tsx`). The cart is an ordered list of line items, one per menu `id`. The store also has a sidebar flag and a copy persisted to local storage. The operations are add, remove, one more, one less, clear and toggle. Two folds derive the total price and the number of pieces.
- **Checkout page** (`src/pages/Checkout.tsx`). It covers:
  - the input masks for postal code, phone, card number, expiry date, CVC and BLIK;
  - `validate`, which builds the map of error messages;
  - the input handlers, which mask what is typed and blank the error shown for the edited field;
  - the submission status, which goes from idle to processing to success and empties the cart on the way.

Modules, one per file:

- `Text` (`text.dfy`): the JavaScript string operations the source uses. These are `replace(/\D/g, '')`, `slice` with its clamping, `startsWith`, string `replace` (first occurrence), and grouping into blocks joined by spaces.
- `Cart` (`cart.dfy`):
  - `parsePrice` for whole-number prices;
  - the list updates as pure functions;
  - the two folds;
  - the class `CartStore`, whose methods are proved against those functions.
- `Masks` (`masks.dfy`): the formatters and masks. `FormatCardNumber` keeps the source's loop.
- `Validation` (`validation.dfy`): the regular expressions as predicates, and the specification `Errors`. The method `Validate` runs the tests in the source's order.
- `Checkout` (`checkout.dfy`): the class `CheckoutForm`, with the handlers, the status and the payment callback.

Things the code does that a reader might not expect. The model follows the code in each case.

- The phone is checked by counting digits: at least 11, including the 48 of the prefix (`Checkout.tsx:120`). The stricter pattern declared at line 107 is never used. `PhoneMaskValidates` shows that the two agree on every masked phone. `UnprefixedPhonePasses` shows that they disagree on text whose prefix was deleted.
- The card-number test `^[\d\s]{19}$` counts characters, not digits. Nineteen spaces pass it (`BlankCardNumberPasses`).
- `handleInputChange` blanks a shown error to `''` and keeps its key. The card and BLIK handlers never clear an error.
- When one to three digits are left, `formatCardNumber` returns the input unchanged, separators included.

## Model

| member | source | states |
|---|---|---|
| Text.Digits | src/pages/Checkout.tsx:28 | `replace(/\D/g, '')` leaves only digits and never lengthens the text |
| Text.DigitsAppend | src/pages/Checkout.tsx:28 | keeping the digits distributes over concatenation |
| Text.DigitsSplit | src/pages/Checkout.tsx:28 | the digits of a text are the digits of any prefix followed by those of the rest |
| Text.DigitsOfDigits | src/pages/Checkout.tsx:28 | a text of digits is its own digit string |
| Text.DigitsOfNonDigits | src/pages/Checkout.tsx:28 | a text with no digit has an empty digit string |
| Text.DigitsAround | src/pages/Checkout.tsx:31 | the digits of `a`, a non-digit separator and `b` are `a + b` |
| Text.DigitsBeforeSeparator | src/pages/Checkout.tsx:31 | a separator after digits adds no digit |
| Text.StripWhitespace | src/pages/Checkout.tsx:51 | `replace(/\s+/g, "")` leaves no white space and never lengthens the text |
| Text.DigitsOfStripped | src/pages/Checkout.tsx:51 | removing white space first does not change which digits the card mask keeps |
| Text.Take | src/pages/Checkout.tsx:92 | `slice(0, n)` is the prefix of length min(n, length) |
| Text.Slice | src/pages/Checkout.tsx:31 | `slice(i, j)` clamps both ends to the length and copies the characters from `i` on |
| Text.ReplaceFirstSkip | src/pages/Checkout.tsx:41 | proof step of `Cart.StripCurrency`: a string `replace` skips a first character that cannot start the pattern |
| Text.ReplaceFirstPrefix | src/pages/Checkout.tsx:41 | proof step of `Masks.FormatPhoneGroups`: a string `replace` on a text that starts with the pattern replaces that prefix |
| Text.ReplaceFirst | src/pages/Checkout.tsx:41 | definition of string `replace`: only the first occurrence of the pattern is replaced; its behaviour is stated by `Text.ReplaceFirstSkip`, `Text.ReplaceFirstPrefix` and `Cart.StripCurrency` |
| Text.Chunks | src/pages/Checkout.tsx:55-57 | the blocks cut out of a text are empty exactly when the text is |
| Text.Join | src/pages/Checkout.tsx:59 | definition of `parts.join(sep)`; its effect on grouped text is stated by `Text.GroupedUnfold` and `Text.GroupedLength` |
| Text.Grouped | src/pages/Checkout.tsx:55-59 | definition: the blocks of k characters joined by spaces; its properties are proved in `Text.GroupedUnfold`, `Text.GroupedLength`, `Text.GroupedChars` and `Text.DigitsOfGrouped` |
| Text.GroupedUnfold | src/pages/Checkout.tsx:55-59 | grouping by k yields the first k characters, a space and the grouping of the rest, or the text itself when it is short |
| Text.GroupedLength | src/pages/Checkout.tsx:59 | the grouped text adds one space between consecutive blocks |
| Text.ChunksCount | src/pages/Checkout.tsx:55-57 | the number of blocks is the length divided by k, rounded up |
| Text.GroupedChars | src/pages/Checkout.tsx:59 | every character of a grouped text is a space or a character of the input |
| Text.DigitsOfGrouped | src/pages/Checkout.tsx:59 | grouping digits with spaces keeps exactly those digits |
| Cart.DigitChar | src/context/CartContext.tsx:52 | helper of `Cart.Decimal` (numerals used by `Cart.ParsePriceOf`): the digit character of a value below ten reads back as that value |
| Cart.Decimal | src/context/CartContext.tsx:52 | a decimal numeral is a non-empty string of digits |
| Cart.DecimalValueOfDecimal | src/context/CartContext.tsx:52 | reading a numeral back gives the number |
| Cart.LeadingDigits | src/context/CartContext.tsx:52 | the longest prefix made of digits, and it is followed by a non-digit or the end |
| Cart.TrimStart | src/context/CartContext.tsx:52 | the leading white space `parseFloat` skips is removed: every removed character is white space, the rest is a suffix of the input and does not start with white space |
| Cart.ParsePrice | src/context/CartContext.tsx:52 | `parsePrice` is NaN (`None`) exactly when no digit follows the removed " PLN" and the white space; the value parsed is stated by `Cart.ParsePriceOf` |
| Cart.StripCurrency | src/context/CartContext.tsx:52 | the " PLN" right after a numeral is the first one, so `replace` removes it and keeps what follows |
| Cart.StripCurrencyAfterBlanks | src/context/CartContext.tsx:52 | white space before a numeral holds no " PLN", so `replace` leaves it in place |
| Cart.TrimBlanks | src/context/CartContext.tsx:52 | `parseFloat` skips exactly the white space in front of the number |
| Cart.LeadingDigitsBefore | src/context/CartContext.tsx:52 | the number read is the digit run, up to the first non-digit |
| Cart.ParsePriceOf | src/context/CartContext.tsx:52 | a price made of white space, a numeral, " PLN" and anything that does not start with a digit parses to the numeral's value |
| Cart.ParsePriceLabel | src/context/CartContext.tsx:52 | every price written as "<n> PLN" parses back to n |
| Cart.Plus | src/context/CartContext.tsx:95 | definition of `+` on numbers that may be NaN: NaN absorbs everything; regrouped by `Cart.PlusAssociative` and `Cart.PlusRearrange` |
| Cart.LinePrice | src/context/CartContext.tsx:95 | definition of `parsePrice(item.price) * item.quantity`; its step per piece is `Cart.LinePriceStep` |
| Cart.TotalPrice | src/context/CartContext.tsx:95 | definition of the `totalPrice` fold; when it is a number is stated by `Cart.TotalPriceDefined`, and its behaviour under each operation by `Cart.TotalsAppend`, `Cart.TotalsAfterAdd`, `Cart.TotalsAfterQuantityChange` and `Cart.TotalsAfterRemove` |
| Cart.TotalPriceDefined | src/context/CartContext.tsx:95 | the total is a number exactly when every line's price parses: one NaN makes the whole sum NaN |
| Cart.ItemsCount | src/context/CartContext.tsx:96 | definition of the `itemsCount` fold; its properties are proved in `Cart.TotalsAppend`, `Cart.CountAtLeastLines` and the `Cart.TotalsAfter…` lemmas |
| Cart.TotalsAppend | src/context/CartContext.tsx:95-96 | both `reduce` folds distribute over concatenation of the item list |
| Cart.PlusAssociative | src/context/CartContext.tsx:95 | proof step of `Cart.TotalsAppend`: addition where NaN absorbs everything is associative |
| Cart.TotalsSingle | src/context/CartContext.tsx:95-96 | a one-line cart totals that line's price and quantity |
| Cart.TotalsUpdate | src/context/CartContext.tsx:95-96 | replacing one line changes each fold by exactly that line's contribution |
| Cart.CountAtLeastLines | src/context/CartContext.tsx:96 | with every quantity at least one, `itemsCount` is at least the number of lines |
| Cart.AfterIncrease | src/context/CartContext.tsx:71-75 | the `map` of `increaseQuantity` keeps the length and adds one to the lines with the id |
| Cart.AfterDecrease | src/context/CartContext.tsx:77-85 | the `map` of `decreaseQuantity` keeps the length and takes one from the lines with the id that hold more than one |
| Cart.AfterRemove | src/context/CartContext.tsx:67-69 | the `filter` of `removeFromCart` leaves no line with the id and keeps only lines that were there |
| Cart.AfterAdd | src/context/CartContext.tsx:55-63 | after `addToCart`'s update the id is in the cart, and a line is appended exactly when the id was not there before; `Cart.AddExisting` and `Cart.AddNew` pin the list |
| Cart.AddExisting | src/context/CartContext.tsx:56-60 | adding an id already in the cart adds one piece to that line only and keeps its stored name, price and image |
| Cart.AddNew | src/context/CartContext.tsx:62 | adding a new id appends it at the end with quantity 1 |
| Cart.IncreaseOnly | src/context/CartContext.tsx:71-75 | `increaseQuantity` changes the matching line only, by one |
| Cart.DecreaseOnly | src/context/CartContext.tsx:77-85 | `decreaseQuantity` takes one from the matching line when it holds more than one, and otherwise changes nothing |
| Cart.RemoveAbsent | src/context/CartContext.tsx:67-69 | the filter of an id that is not in the cart keeps every line |
| Cart.AbsentIdNoOp | src/context/CartContext.tsx:67-85 | remove, increase and decrease of an id not in the cart leave the list unchanged |
| Cart.UniqueTail | src/context/CartContext.tsx:67-69 | proof step of `Cart.RemoveAt`: behind the first line of a cart with unique ids, the ids stay unique and none repeats the first line's id |
| Cart.RemoveAt | src/context/CartContext.tsx:67-69 | removing an id present once drops exactly that line and keeps the order of the others |
| Cart.RemoveAppend | src/context/CartContext.tsx:68 | the filter distributes over concatenation, so relative order is kept |
| Cart.AddKeepsWellFormed | src/context/CartContext.tsx:54-65 | adding keeps ids unique and every quantity at least one |
| Cart.RemoveKeepsWellFormed | src/context/CartContext.tsx:67-69 | removing keeps ids unique and every quantity at least one |
| Cart.QuantityChangesKeepWellFormed | src/context/CartContext.tsx:71-85 | increase and decrease keep ids unique, and decrease never takes a line below one |
| Cart.TotalsAfterAdd | src/context/CartContext.tsx:54-65 | adding raises `itemsCount` by one and `totalPrice` by the unit price of the line, the one already in the cart when there is one |
| Cart.LinePriceStep | src/context/CartContext.tsx:95 | proof step of `Cart.LineIncrement` and `Cart.LineDecrement`: one more piece adds one unit price to a line's price |
| Cart.PlusRearrange | src/context/CartContext.tsx:95 | proof step of `Cart.LineIncrement` and `Cart.LineDecrement`: the NaN-absorbing sums of the fold can be regrouped |
| Cart.LineIncrement | src/context/CartContext.tsx:95-96 | one more piece of a line adds one to the count and one unit price to the total |
| Cart.LineDecrement | src/context/CartContext.tsx:95-96 | one piece less of a line takes one from the count and one unit price from the total |
| Cart.TotalsAfterQuantityChange | src/context/CartContext.tsx:71-85 | increase and decrease move the count by one and the total by the line's unit price |
| Cart.TotalsAfterRemove | src/context/CartContext.tsx:67-69 | removal takes the whole line's quantity from the count and its price from the total |
| Cart.AddedTimesOneLine | src/context/CartContext.tsx:54-65 | n adds of one menu item to an empty cart give a single line with quantity n |
| Cart.CartStore.constructor | src/context/CartContext.tsx:30-40 | the list starts as the saved snapshot when one can be read, and empty otherwise; the sidebar starts closed; the stored copy equals the list |
| Cart.CartStore.AddToCart | src/context/CartContext.tsx:54-65 | the list becomes `AfterAdd` of the old list, the sidebar opens, storage is synced, and well-formedness is kept |
| Cart.CartStore.RemoveFromCart | src/context/CartContext.tsx:67-69 | the list becomes the filtered list without the id, the sidebar is unchanged, storage is synced, and well-formedness is kept |
| Cart.CartStore.IncreaseQuantity | src/context/CartContext.tsx:71-75 | the list becomes `AfterIncrease`, storage is synced, and well-formedness is kept |
| Cart.CartStore.DecreaseQuantity | src/context/CartContext.tsx:77-85 | the list becomes `AfterDecrease`, storage is synced, and well-formedness is kept |
| Cart.CartStore.ClearCart | src/context/CartContext.tsx:89-91 | the list is empty, the totals are 0, the sidebar is unchanged and storage is synced |
| Cart.CartStore.ToggleCart | src/context/CartContext.tsx:93 | the sidebar flag flips and nothing else changes |
| Masks.FormatZip | src/pages/Checkout.tsx:26-34 | the result holds at most 5 digits, the first five typed; a '-' appears at position 2 exactly when more than two digits were typed; nothing else appears |
| Masks.FormatZipIdempotent | src/pages/Checkout.tsx:26-34 | masking a masked postal code changes nothing |
| Masks.FormatPhone | src/pages/Checkout.tsx:36-48 | text without the "+48 " prefix is returned as typed; otherwise the result keeps the prefix and has at most 15 characters |
| Masks.PhoneGroups | src/pages/Checkout.tsx:42-45 | definition of the three conditional slices; proved equal to grouping by three in `Masks.OneGroup`, `Masks.TwoGroups` and `Masks.ThreeGroups` |
| Masks.OneGroup | src/pages/Checkout.tsx:43 | up to three digits form one group |
| Masks.TwoGroups | src/pages/Checkout.tsx:43-44 | four to six digits form two groups separated by a space |
| Masks.ThreeGroups | src/pages/Checkout.tsx:43-45 | seven or more digits form three groups of three, and digits beyond nine are dropped |
| Masks.FormatPhoneGroups | src/pages/Checkout.tsx:36-48 | a prefixed phone becomes the prefix followed by its first nine digits in groups of three |
| Masks.FormatPhoneDigits | src/pages/Checkout.tsx:41-45 | after the prefix, the masked phone holds exactly the first nine digits typed |
| Masks.FormatPhoneIdempotent | src/pages/Checkout.tsx:36-48 | masking a masked phone changes nothing |
| Masks.CardDigits | src/pages/Checkout.tsx:51 | the two replaces of the card mask keep exactly the digits |
| Masks.FirstDigitRun | src/pages/Checkout.tsx:52-53 | the first match of `\d{4,16}` is empty or holds 4 to 16 digits |
| Masks.CardMask | src/pages/Checkout.tsx:50-62 | definition of `formatCardNumber` as a value; its properties are proved in `Masks.CardMaskCases`, `Masks.CardMaskFull`, `Masks.CardMaskIdempotent`, and the loop is proved equal to it in `Masks.FormatCardNumber` |
| Masks.FormatCardNumber | src/pages/Checkout.tsx:50-62 | the loop that cuts blocks of four and joins them computes the card mask |
| Masks.CardMaskCases | src/pages/Checkout.tsx:50-62 | with four digits or more, the result is the first 16 digits in groups of four, at most 19 characters, digits and spaces only; with fewer, the input is returned unchanged |
| Masks.CardMaskIdempotent | src/pages/Checkout.tsx:50-62 | masking a masked card number changes nothing |
| Masks.CardMaskFull | src/pages/Checkout.tsx:50-62 | when four digits or more were typed, the masked number reaches 19 characters exactly when 16 digits were typed (below four digits the input is returned as typed, see `Masks.CardMaskCases`) |
| Masks.FormatExpiry | src/pages/Checkout.tsx:64-70 | the result holds the first four digits typed; a '/' appears at position 2 exactly when two digits or more were typed; nothing else appears |
| Masks.FormatExpiryIdempotent | src/pages/Checkout.tsx:64-70 | masking a masked expiry date changes nothing |
| Masks.ExpirySlashReturns | src/pages/Checkout.tsx:66-67 | two digits of month come back with a trailing '/' |
| Masks.CvcMask | src/pages/Checkout.tsx:92 | the CVC is the prefix of the digits typed of length min(3, number of digits): every digit up to the cap is kept |
| Masks.BlikMask | src/pages/Checkout.tsx:98 | the BLIK code is the prefix of the digits typed of length min(6, number of digits): every digit up to the cap is kept |
| Masks.CodeMasksIdempotent | src/pages/Checkout.tsx:92-98 | masking a masked CVC or BLIK code changes nothing |
| Validation.Errors | src/pages/Checkout.tsx:103-131 | a field has an entry exactly when its test fails, and the entry is that field's message |
| Validation.Rank | src/pages/Checkout.tsx:114-127 | proof device of `Validation.Validate`: each test has a place below ten in the order the source runs them |
| Validation.RankInjective | src/pages/Checkout.tsx:114-127 | proof step of `Validation.RecordTest`: no two tests share a place |
| Validation.Failures | src/pages/Checkout.tsx:114-127 | the set of failing fields holds exactly the fields whose test fails |
| Validation.RecordTest | src/pages/Checkout.tsx:114-127 | running one test extends the errors found so far by that test's outcome |
| Validation.FailedTestRecorded | src/pages/Checkout.tsx:114-127 | a failing test adds its field's message |
| Validation.PassedTestSkipped | src/pages/Checkout.tsx:114-127 | a passing test adds nothing |
| Validation.CardTestsSkipped | src/pages/Checkout.tsx:124-128 | without card payment the three card tests add nothing |
| Validation.AllTestsRun | src/pages/Checkout.tsx:104-128 | after the last test, the errors are the specification `Errors` |
| Validation.ShippingTests | src/pages/Checkout.tsx:114-120 | the six delivery tests produce the errors of the first six fields |
| Validation.CardTests | src/pages/Checkout.tsx:124-128 | with card payment the three card tests complete the errors |
| Validation.Validate | src/pages/Checkout.tsx:103-132 | the errors built are exactly `Errors`, and the result is true exactly when the form is valid |
| Validation.NoErrorsIffValid | src/pages/Checkout.tsx:131 | the error map is empty exactly when every test passes |
| Validation.CashIgnoresPaymentFields | src/pages/Checkout.tsx:122-128 | with cash payment the BLIK and card fields do not affect the errors |
| Validation.ShortFirstNameReported | src/pages/Checkout.tsx:114 | a two-letter first name is reported and makes the form invalid |
| Validation.ZipMaskValidates | src/pages/Checkout.tsx:106 | a masked postal code passes its pattern exactly when five digits were typed |
| Validation.PrefixDigits | src/pages/Checkout.tsx:120 | the prefix contributes the digits "48" to the phone's digit count |
| Validation.PhoneMaskValidates | src/pages/Checkout.tsx:107 | a masked phone passes the digit count exactly when nine digits follow the prefix, and the strict pattern exactly then too |
| Validation.StrictPhonePassesCheck | src/pages/Checkout.tsx:107 | every text the strict pattern accepts passes the digit count |
| Validation.CountryCodeDigits | src/pages/Checkout.tsx:107 | "+48" and a separator contribute the digits "48" |
| Validation.UnprefixedPhonePasses | src/pages/Checkout.tsx:120 | with the prefix deleted, "48123456789" is left as typed, passes the digit count, and fails the strict pattern |
| Validation.CardMaskValidates | src/pages/Checkout.tsx:109 | a masked card number of four digits or more passes exactly when sixteen digits were typed |
| Validation.BlankCardNumberPasses | src/pages/Checkout.tsx:109 | nineteen spaces are left as typed by the mask and pass the card test |
| Validation.ExpiryMaskValidates | src/pages/Checkout.tsx:111 | a masked expiry date passes exactly when four digits were typed and the first two form a month 01 to 12 |
| Validation.CvcMaskValidates | src/pages/Checkout.tsx:110 | a masked CVC passes exactly when three digits were typed |
| Validation.NamePattern | src/pages/Checkout.tsx:108 | definition of `/^.{3,}$/`: three characters or more, none a line terminator; used by `Validation.ShortFirstNameReported` |
| Validation.ZipPattern | src/pages/Checkout.tsx:106 | definition of `/^[0-9]{2}-[0-9]{3}$/`; related to the mask by `Validation.ZipMaskValidates` |
| Validation.StrictPhonePattern | src/pages/Checkout.tsx:107 | definition of the declared but unused phone pattern; compared with the check in use by `Validation.PhoneMaskValidates`, `Validation.StrictPhonePassesCheck` and `Validation.UnprefixedPhonePasses` |
| Validation.PhoneCheck | src/pages/Checkout.tsx:120 | definition of the digit-count test in use; related to the mask by `Validation.PhoneMaskValidates` |
| Validation.CardPattern | src/pages/Checkout.tsx:109 | definition of `/^[\d\s]{19}$/`; related to the mask by `Validation.CardMaskValidates` and `Validation.BlankCardNumberPasses` |
| Validation.ExpiryPattern | src/pages/Checkout.tsx:111 | definition of the expiry pattern at line 111: a month 01 to 12, a '/', two digits; related to the mask by `Validation.ExpiryMaskValidates` |
| Validation.CvcPattern | src/pages/Checkout.tsx:110 | definition of `/^[0-9]{3}$/`; related to the mask by `Validation.CvcMaskValidates` |
| Validation.Fails | src/pages/Checkout.tsx:114-128 | definition of each test's failure condition, with the payment-method guards of lines 122 and 124; the error map is characterised by it in `Validation.Errors` |
| Validation.FormValid | src/pages/Checkout.tsx:114-131 | definition: every test passes; `Validation.NoErrorsIffValid` and `Validation.Validate` prove it is exactly an empty error map |
| Checkout.AfterSubmit | src/pages/Checkout.tsx:134-136 | the status never goes back; from idle it moves to processing exactly when the cart is not empty and the form is valid; otherwise it is unchanged |
| Checkout.WithShippingValue | src/pages/Checkout.tsx:82 | the spread replaces the edited field and keeps the others |
| Checkout.ShippingMask | src/pages/Checkout.tsx:76-80 | definition of the mask `handleInputChange` applies per field; proved idempotent in `Checkout.ShippingMaskIdempotent` |
| Checkout.ShippingMaskIdempotent | src/pages/Checkout.tsx:79-80 | feeding a masked delivery value back through its input changes nothing |
| Checkout.EditTouchesOneTest | src/pages/Checkout.tsx:82 | editing one delivery field leaves the verdict of every other test unchanged |
| Checkout.ClearError | src/pages/Checkout.tsx:83 | the edited field's message is no longer shown, the keys stay, the other entries are kept, and nothing changes when no message was shown |
| Checkout.CardInputMask | src/pages/Checkout.tsx:88-92 | definition of the mask `handleCardChange` applies per input; proved idempotent in `Checkout.CardInputMaskIdempotent` |
| Checkout.CardInputMaskIdempotent | src/pages/Checkout.tsx:90-92 | feeding a masked card field back through its input changes nothing |
| Checkout.WithCardValue | src/pages/Checkout.tsx:94 | the spread replaces the edited card field and keeps the other two |
| Checkout.CheckoutForm.constructor | src/pages/Checkout.tsx:12-22 | the page starts idle, with card payment, the phone set to "+48 ", every other field empty and no errors |
| Checkout.CheckoutForm.HandleInputChange | src/pages/Checkout.tsx:74-84 | the masked value replaces the field, and the field's displayed error is blanked |
| Checkout.CheckoutForm.HandleCardChange | src/pages/Checkout.tsx:86-95 | the masked value replaces the card field, using the loop of `formatCardNumber` |
| Checkout.CheckoutForm.HandleBlikChange | src/pages/Checkout.tsx:97-100 | the BLIK code becomes the first six digits typed |
| Checkout.CheckoutForm.SelectPaymentMethod | src/pages/Checkout.tsx:209-215 | the chosen payment method is set |
| Checkout.CheckoutForm.HandlePayment | src/pages/Checkout.tsx:134-136 | when the button is enabled the errors become `Errors`, and the status follows `AfterSubmit`; when it is disabled nothing changes; the cart is emptied only once the order has succeeded |
| Checkout.CheckoutForm.PaymentTimerFires | src/pages/Checkout.tsx:137-139 | the order succeeds, and the cart is emptied once, with the sidebar unchanged and storage synced |

## Left out

- Local storage and JSON. The persisted copy is the field `stored`, and every write keeps it equal to the list. A snapshot that is missing or unreadable is the constructor's `None`. The asynchronous effect is modelled as taking place in the same step.
- Cart.ParsePrice: reads the whole-number prefix only. Fractions, exponents, signs and "Infinity", which `parseFloat` would also accept, are not modelled. The menu writes every price as a whole number followed by " PLN".
- Strings are sequences of code points, not of UTF-16 code units. This makes a difference only for characters outside the Basic Multilingual Plane.
- The timers and the navigation. `PaymentTimerFires` is the first `setTimeout` callback (line 138-139). Its timing and the `navigate('/')` four seconds later are not modelled.
- The pay button's `disabled` condition (line 256) is part of `HandlePayment`: the handler is reachable only through that button, so it acts as a guard.
- `useCart`'s error outside a provider (lines 116-120) is not modelled: it is a React wiring check, not cart logic.
- The JSX rendering, the animations, `AnimatedPrice` and the `ErrorMsg` markup are not modelled.
- The `maxLength` attributes of the inputs (lines 185, 195, 224, 229, 233, 243) are browser-side truncation and are not modelled. The masks keep within those lengths on their own only in part. The postal code, expiry date, CVC and BLIK masks always do (`FormatZip`, `FormatExpiry`, `CvcMask`, `BlikMask`). The phone mask does for text that starts with the "+48 " prefix (`FormatPhone`), and the card mask does for text with four digits or more (`CardMaskCases`). Text without the prefix, or a card number with fewer than four digits, is returned as typed, and only the browser's `maxLength` caps it.
- Cart.CartStore.ToggleCart: reads the current flag. The source's `setIsCartOpen(!isCartOpen)` reads the value captured at render. Two toggles within one render would both set the same value; this is not modelled.
- The error map's keys are `Validation.Field` values, filled in the source's order. The source's string keys (`firstName`, ..., `blik`, `cardNumber`) are given by `Field.Key`.
