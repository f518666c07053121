# Shopping-cart store, modelled in Dafny

This project models the cart store behind a static shop page (`js/script.js`).
The cart is an insertion-ordered list of lines `{id, name, price, image, quantity}` keyed by `id`.
It lives in one browser storage slot. Each mutating operation reads the whole cart and writes the whole cart back. A quantity change for an id with no line writes nothing, and the total only reads the cart.

The model is split into these modules:

- `Cart` (cart.dfy): the lines, the invariant, and the rules as pure functions.
  - `Added`: the line with the product's id gets one more unit, or a new line is appended.
  - `Removed`: the filter that drops one id.
  - `QuantityChanged`: sets a quantity; a quantity of zero or less removes the line; an absent id is a no-op.
  - `Total`: the sum of price times quantity.
- `CartProperties` (cart_properties.dfy): what those rules promise, as lemmas.
  - Uniqueness of ids and quantity ≥ 1 are preserved.
  - Order is preserved.
  - Nothing but the touched line changes.
  - Adding the same product twice gives quantity 2.
  - The effect of each operation on the items total.
- `Summary` (summary.dfy): the delivery fee of 5 currency units for a non-empty cart, and the grand total.
- `Store` (store.dfy): the class `CartStore`.
  - Its field `saved` stands for the storage slot.
  - Its methods are `addProductToCart`, `removeProductFromCart` and `changeQuantity`, and `calculateTotal` with its loop.
  - It also has the summary figures and the quantity-input handler.
  - Each mutating method is proved to set `saved` to the matching rule of `Cart`, and to keep the invariant.
- `ProductId` (product_id.dfy):
  - The id derived from a card's name: lower-cased, with each maximal run of whitespace replaced by one hyphen.
  - The title text is not trimmed, so whitespace at either end of the name becomes a hyphen at that end (`HyphenateRun` with an empty first or last piece).
- `PriceFilter` (price_text.dfy): the price-text filter that keeps only digits and dots.
- `QuantityInput` (quantity_input.dfy): `parseInt` with no radix, and the `|| 1` fallback.
- `Text` (text.dfy): the ECMAScript whitespace set and the skipping of leading whitespace.
- `Scenarios` (scenarios.dfy): the rules combined the way a shopper meets them.

Prices and totals are whole cents, so `DELIVERY_FEE = 5` is `DeliveryFee == 500`.

Points where the code's behaviour is easy to misread:

- A missing slot or an empty string reads as the empty cart (`getCart`, js/script.js:92-93). Other stored text that is not JSON makes `JSON.parse` throw. JSON that is not an array makes the first array method throw (js/script.js:108, 166). The model's constructor is the empty-slot case, and none of the other cases is modelled.
- `changeQuantity` gives a new quantity only to the first line with the id. Removal drops every line with the id. The two agree whenever ids are unique, which every operation preserves.
- Because of the `|| 1` fallback, typing `0` into a quantity input sets the quantity to 1. A number of -1 or less removes the line. A negative number above -1, such as "-0.5", parses to -0, which is falsy too, so it also sets the quantity to 1 (`QuantityOfNumber`, `QuantityOfNegativeFraction`, `QuantityInputOnLine`).

## Model

| member | source | states |
|---|---|---|
| Cart.Added | js/script.js:104-126 | an add keeps the length when the id has a line and adds one line otherwise, and the result always has a line with the id (`AddExisting`, `AddAbsent` give the rest) |
| Cart.Removed | js/script.js:131-136 | the filtered cart is never longer (`RemoveMembers`, `RemoveConcat` give the rest) |
| Cart.QuantityChanged | js/script.js:141-155 | a quantity change never lengthens the cart, and keeps its length when the quantity is positive or the id has no line (`ChangeToPositive`, `ChangeToNonPositive`, `ChangeAbsent` give the rest) |
| Cart.Total | js/script.js:162-171 | the items total is never negative when no quantity is (`TotalConcat`, `TotalUpdate` give the rest) |
| Cart.IndexOf | js/script.js:108 | the position found is that of the first line with the id; it equals the cart length exactly when no line has the id |
| CartProperties.AddExisting | js/script.js:108-112 | adding a product whose id is present adds one to that line's quantity; its other fields, every other line and the length stay the same |
| CartProperties.AddAbsent | js/script.js:113-121 | adding a product whose id is absent appends one line with the product's id, name, price and image and quantity 1; the earlier lines are kept in order |
| CartProperties.AddTwice | js/script.js:104-126 | adding the same new product twice gives one line with quantity 2, not two lines |
| CartProperties.AddPreservesValid | js/script.js:108-121 | adding keeps ids unique and every quantity at least 1 |
| CartProperties.RemoveMembers | js/script.js:133 | a line is in the result of a removal exactly when it was in the cart with a different id |
| CartProperties.RemoveAbsent | js/script.js:131-136 | removing an id that no line has leaves the cart unchanged |
| CartProperties.RemoveLeavesNoLine | js/script.js:133 | after a removal no line has the removed id |
| CartProperties.RemoveConcat | js/script.js:133 | removal from two joined carts is the two removals joined, so the relative order of the remaining lines is kept |
| CartProperties.RemovePresent | js/script.js:131-136 | with unique ids, removing a present id gives the lines before it followed by the lines after it |
| CartProperties.RemovePreservesValid | js/script.js:133 | removing keeps ids unique and every quantity at least 1 |
| CartProperties.ChangeAbsent | js/script.js:141-155 | a quantity change for an id no line has leaves the cart unchanged |
| CartProperties.ChangeToNonPositive | js/script.js:145-149 | a quantity of zero or less on a present id gives the same cart as removing that id, and no line keeps the id |
| CartProperties.ChangeToPositive | js/script.js:145-151 | a positive quantity on a present id becomes that line's quantity; its other fields, every other line and the length stay the same |
| CartProperties.ChangePreservesValid | js/script.js:141-155 | a quantity change, whatever the requested value, keeps ids unique and every quantity at least 1 |
| CartProperties.TotalConcat | js/script.js:162-171 | the items total of two joined carts is the sum of their totals |
| CartProperties.TotalUpdate | js/script.js:166-168 | replacing one line changes the items total by the difference of the two subtotals |
| CartProperties.TotalNonNegative | js/script.js:162-171 | when every quantity is at least 1 the items total is never negative |
| CartProperties.TotalAfterAdd | js/script.js:104-126 | adding raises the items total by one unit price: the stored line's price when the id is present (stored prices are never refreshed), the product's price otherwise |
| CartProperties.TotalAfterRemove | js/script.js:131-136 | with unique ids, removing a present id lowers the items total by that line's subtotal |
| CartProperties.TotalExample | js/script.js:162-171 | lines of 10.00 × 2 and 5.00 × 1 total 25.00 (2500 cents) |
| Summary.Delivery | js/script.js:227 | the delivery fee is DELIVERY_FEE (500 cents) exactly when the cart is non-empty, and 0 exactly when it is empty |
| Summary.GrandTotal | js/script.js:226-228 | the grand total of an empty cart is 0, and that of a non-empty cart is its items total plus the 500-cent fee |
| Summary.GrandTotalEmpty | js/script.js:226-228 | an empty cart has grand total 0 |
| Summary.GrandTotalBounds | js/script.js:226-228 | with quantities of at least 1, the grand total is at least the items total, which is at least 0; for a non-empty cart it is at least the delivery fee |
| Summary.GrandTotalAfterAdd | js/script.js:226-228 | after any add, the grand total is the old items total plus one unit price plus the delivery fee |
| Store.CartStore.constructor | js/script.js:91-94 | a storage slot with nothing stored reads as the empty cart |
| Store.CartStore.AddProductToCart | js/script.js:104-126 | the stored cart becomes `Added` of the old one, the returned cart is the stored one, and validity is kept |
| Store.CartStore.RemoveProductFromCart | js/script.js:131-136 | the stored cart becomes `Removed` of the old one, the returned cart is the stored one, and validity is kept |
| Store.CartStore.ChangeQuantity | js/script.js:141-155 | the stored cart becomes `QuantityChanged` of the old one (the removal path goes through RemoveProductFromCart), the returned cart is the stored one, and validity is kept |
| Store.CartStore.ApplyQuantityInput | js/script.js:252-256 | the stored cart becomes `QuantityChanged` of the old one with the parsed input (the fallback to 1 applied) as the requested quantity: a positive value becomes the line's quantity, a negative one removes the line, an absent id changes nothing; validity is kept |
| Store.CartStore.CalculateTotal | js/script.js:162-171 | the loop's sum is the items total of the stored cart |
| Store.CartStore.CartSummary | js/script.js:226-228 | the items total, a delivery fee of 500 cents only for a non-empty cart, and the grand total as their sum |
| Text.SkipSpaces | js/script.js:254 | the leading whitespace is skipped: the result is no longer than the text, does not start with whitespace, and is shorter when the text started with whitespace |
| Text.SkipSpacesSuffix | js/script.js:254 | what is left after skipping is a suffix of the text, and everything skipped is whitespace |
| Text.SkipSpacesAfterSpaces | js/script.js:254 | whitespace put in front of a text does not change what is left after skipping |
| ProductId.Lower | js/script.js:288 | lower-casing keeps the length and the whitespace positions, leaves no capital letter, keeps every character that is not a capital, and turns each capital A-Z into its small letter (code point plus 32) |
| ProductId.Hyphenate | js/script.js:288 | the whitespace replacement leaves no whitespace |
| ProductId.DeriveId | js/script.js:288 | a derived id holds no whitespace and no capital letter |
| ProductId.HyphenateNoSpace | js/script.js:288 | text without whitespace is unchanged by the replacement |
| ProductId.HyphenateConcat | js/script.js:288 | the replacement works piece by piece when the first piece does not end in whitespace |
| ProductId.HyphenateRun | js/script.js:288 | a maximal run of whitespace between two pieces becomes exactly one hyphen |
| ProductId.HyphenateTwoWords | js/script.js:288 | two words without whitespace, separated by one space, become the two words joined by a hyphen |
| ProductId.DeriveIdIdempotent | js/script.js:288 | deriving the id of an id gives the id back |
| ProductId.DeriveIdExample | js/script.js:288 | the name "Blue Mug" gives the id "blue-mug" |
| PriceFilter.PriceText | js/script.js:285 | the filtered price text holds only digits and dots, and holds every digit and dot of the original text |
| PriceFilter.PriceTextConcat | js/script.js:285 | the filter of a joined text is the filter of the first piece followed by the filter of the second, so the kept characters stay in order and in number |
| PriceFilter.PriceTextChar | js/script.js:285 | one character is kept exactly when it is a digit or a dot |
| PriceFilter.PriceTextClean | js/script.js:285 | text made only of digits and dots passes the filter whole |
| PriceFilter.PriceTextExample | js/script.js:285 | "$12.50" is filtered to "12.50" |
| QuantityInput.ParseInt | js/script.js:254 | text that is empty or all whitespace parses as NaN; `ParseIntText`, `ParseIntSigned`, `ParseIntSignWithoutDigits`, `ParseIntAfterSpaces`, `MagnitudeOfDigits` and `MagnitudeOfHex` give the value for every other shape of text, and `QuantityOfNegativeFraction` shows "-0.5" asking for 1 |
| QuantityInput.Magnitude | js/script.js:254 | a parsed magnitude is never negative; `MagnitudeOfDigits` and `MagnitudeOfHex` give its value |
| QuantityInput.OrOne | js/script.js:254 | the fallback never gives 0; it gives 1 exactly for NaN, 0 and 1; and every other number, negatives included, passes unchanged |
| QuantityInput.QuantityRequested | js/script.js:254 | the quantity asked for by an input is never 0 |
| QuantityInput.DigitPrefix | js/script.js:254 | the digits read are the longest prefix of the text made of digits of the base |
| QuantityInput.DecimalDigits | js/script.js:254 | a decimal numeral is all digits, starts with 0 only for zero, and denotes the number it was made from |
| QuantityInput.ParseIntText | js/script.js:254 | the numeral of any whole number parses back to that number, and whatever non-digit follows it (a dot, an exponent, `x` after a non-zero number, other text) is ignored; only `0` followed by `x` or `X` starts a hex number instead |
| QuantityInput.MagnitudeOfDigits | js/script.js:254 | a run of decimal digits, leading zeros included, followed by a non-digit is read whole and denotes its value, unless it is a lone 0 followed by the x of a hex prefix |
| QuantityInput.MagnitudeOfHex | js/script.js:254 | after `0x` or `0X` the longest run of hex digits is read in base 16; with no hex digit the result is NaN |
| QuantityInput.DigitsValueLeadingZeros | js/script.js:254 | zeros in front of a run of digits do not change its value |
| QuantityInput.QuantityOfPadded | js/script.js:254 | the text "007" asks for quantity 7 |
| QuantityInput.QuantityOfHex | js/script.js:254 | `parseInt` reads "0x1F" in base 16, so that text would ask for quantity 31; the number input at js/script.js:212 never holds it, since a browser gives "" for text that is not a valid number, so this documents `parseInt` itself |
| QuantityInput.ParseIntSigned | js/script.js:254 | a `-` before a run of decimal digits, leading zeros included, negates its value, and a `+` keeps it; a run worth zero after `-` is -0, modelled as 0 |
| QuantityInput.ParseIntSignWithoutDigits | js/script.js:254 | a sign with no digit after it parses as NaN and asks for quantity 1 |
| QuantityInput.QuantityOfNegativeFraction | js/script.js:254 | "-0.5" parses to -0 and asks for quantity 1 |
| QuantityInput.QuantityOfNegativeZero | js/script.js:254 | "-0" parses to -0 and asks for quantity 1 |
| QuantityInput.QuantityOfNegativePadded | js/script.js:254 | "-007" asks for quantity -7 |
| QuantityInput.ParseIntAfterSpaces | js/script.js:254 | leading whitespace makes no difference to the parse |
| QuantityInput.QuantityOfNonNumber | js/script.js:254 | empty text, or text that does not start with a sign, a digit or whitespace, parses as NaN and asks for quantity 1 |
| QuantityInput.QuantityOfNumber | js/script.js:254 | a typed whole number asks for itself, except that zero asks for 1 |
| Scenarios.ClickOnCard | js/script.js:288-296 | a click on a card whose derived id has no line appends a line with the card's name, price, image, the derived id and quantity 1; a click on a card whose id has a line adds one unit to it and keeps its stored name, price and image and every other line |
| Scenarios.SameIdMeansSameLine | js/script.js:288-296 | two cards whose names derive the same id share one cart line, and the second click only increments it |
| Scenarios.BlueMug | js/script.js:104-155 | clicking "Blue Mug" at 12.50 on an empty cart stores one line "blue-mug" with quantity 1; typing 3 then gives subtotal 37.50 and grand total 42.50 |
| Scenarios.QuantityInputOnLine | js/script.js:252-256 | on a present line, input with no number sets the quantity to 1 and keeps the line, and so does input that parses to 0 or -0 (such as "0" or "-0.5"); a number of -1 or less removes the line; validity is kept |
| Scenarios.AddTwiceToEmptyStore | js/script.js:104-126 | a fresh store given the same product twice holds one line with quantity 2, and its total is twice the price |

## Left out

- Search popup and its show/hide (js/script.js:7-68, 79-84): DOM manipulation with no cart logic.
- Navigation to the cart page (js/script.js:74-76): browser I/O.
- `localStorage` and JSON (js/script.js:91-99): abstracted as the field `CartStore.saved`. Stored text that is not JSON, and JSON that is not an array, are not modelled.
- HTML templating, the re-render after each change, and `toFixed(2)` formatting in `displayCart` (js/script.js:176-223, 230-238): DOM output and float formatting.
- Event-listener registration and the one-second "Added" button feedback (js/script.js:247-270, 299-306): event-loop and timer plumbing. What the handlers do is modelled: the quantity handler is `ApplyQuantityInput`, the remove button calls `RemoveProductFromCart`, and the add click is `Scenarios.ClickOnCard`.
- `parseFloat` of the price text (js/script.js:285): floating-point parsing. Only the character filter is modelled, and prices are given in whole cents.
- The DOM lookups of name, price and image (js/script.js:277-282): foreign DOM calls. The name, price and image are parameters.
- Floating point: JS adds prices as binary floats, and the model adds exact cents. A NaN price (text from which `parseFloat` reads no number) is not modelled.
- ProductId.Lower: covers the ASCII letters A-Z only. Unicode case mapping, including mappings that change the length, is not modelled.
- QuantityInput.ParseInt: parses to an exact integer. It does not model the loss of precision above 2^53, or `-0`, which `|| 1` treats as 0 anyway.
- Integer width: quantities and totals are unbounded integers. JS numbers lose exactness above 2^53.
