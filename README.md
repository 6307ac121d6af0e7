# Kozmetik storefront: verified model of the client-side logic

This project models, in Dafny, the deterministic logic of a Next.js cosmetics storefront. It proves
properties of that model. The covered pieces are:

- the card-payment form: the card-number grouping, the Luhn check from ISO/IEC 7812-1, card-type
  detection, the MM/YY expiry formatter, the per-keystroke input filters and whole-form validation;
- the delivery-address form: required fields, the email pattern, the phone and postal-code rules,
  and single-field updates that clear that field's error;
- the discount-percentage and stock helpers of the product API;
- the promotional carousel's slide index;
- the toast registry: the global id counter, the listener list and each toaster's toast list;
- the category menu: subcategories by parent, which categories are listed, and the hover dropdown;
- the product-filter panel and the filter state of the product listing page.

Each source file maps to one module:

| module | file |
|---|---|
| `Payment` | `payment.dfy` |
| `AddressEntry` | `address.dfy` |
| `Pricing` | `pricing.dfy` |
| `Carousel` | `carousel.dfy` |
| `Toasts` | `toaster.dfy` |
| `CategoryMenus` | `categories.dfy` |
| `ProductFiltering` | `filters.dfy` |
| `ProductListing` | `products_page.dfy` |

Shared pieces:

- `Wrappers` has `Option`.
- `Seqs` has the `Array.prototype.filter` model, subsequences, `indexOf` and `splice(i, 1)`.
- `Text` has the JavaScript `\s` class, digit tests, `trim` and `toUpperCase`.
- `Catalog` has the record shapes from `types/supabase.ts`.

Where the source mutates React state or module-level variables, the model is a class:

- `PaymentForm`, `AddressForm`, `PromoCarousel`, `Toaster`, `ToastHub`, `CategoryMenu`,
  `ProductFilters` and `ProductsPage`.
- In each, the state variables are fields, and each handler is a method.
- Each method's `ensures` gives the whole new state.

The rules that work on values are functions. Two validations build an error record field by field:

- `PaymentForm.ValidateForm` and `AddressForm.ValidateForm` are methods.
- Each is proved equal to a specification function (`PaymentErrorsFor`, `AddressErrorsFor`).
- The acceptance rules are proved about those functions.

The Luhn loop is a method proved equal to a recursive sum.

JavaScript semantics are written out where they matter:

- Truthiness: an empty string is false, and `!compareAtPrice` holds for 0 and for a missing value.
- `Math.round` rounds ties upward.
- The `\s` character class includes the Unicode space separators.
- `Number#toString` and `parseFloat` are passed in as function parameters.
- The current month and year are parameters of the payment validation.

The price inputs of the filter panel are filled from the props only when the panel is created, and
no effect refills them. `ClearThenApplyPrice` shows the consequence: after "Filtreleri Temizle" the
inputs still hold the old text, and pressing the apply button brings the old bounds back.

## Model

| member | source | states |
|---|---|---|
| Text.IsSpace | components/PaymentForm.tsx:29 | the ECMAScript `\s` class (white space and line terminators); its meaning for the rules is given by `RemoveSpaces`, `BlankIffAllSpaces` and `RemoveSpacesAllSpaces` |
| Text.RemoveSpaces | components/PaymentForm.tsx:29 | `replace(/\s/g, "")` leaves no whitespace character |
| Text.KeepDigits | components/PaymentForm.tsx:36 | `replace(/\D/g, "")` leaves only ASCII digits |
| Text.KeepDigitsConcat | components/PaymentForm.tsx:36 | keeping the digits distributes over concatenation |
| Text.RemoveSpacesConcat | components/PaymentForm.tsx:29 | deleting whitespace distributes over concatenation |
| Text.BlankIffAllSpaces | components/AddressForm.tsx:50 | `!s.trim()` holds exactly when every character of s is whitespace (the empty string included) |
| Text.Trim | components/AddressForm.tsx:50 | `trim()` as `trimEnd` after `trimStart`; `TrimStartRemovesOnlySpaces` and `TrimEndRemovesOnlySpaces` state that only leading and trailing whitespace is removed |
| Text.IsBlank | components/AddressForm.tsx:50 | `!s.trim()`; `BlankIffAllSpaces` states it holds iff every character is whitespace |
| Text.TrimStart | components/AddressForm.tsx:50 | the result is a suffix of the input that does not start with whitespace |
| Text.TrimStartRemovesOnlySpaces | components/AddressForm.tsx:50 | every character `trimStart` removes is whitespace, so together with `TrimStart`'s contract the result is exactly the input without its leading whitespace |
| Text.TrimEnd | components/AddressForm.tsx:50 | the result is a prefix of the input that does not end with whitespace |
| Text.TrimEndRemovesOnlySpaces | components/AddressForm.tsx:50 | every character `trimEnd` removes is whitespace, so together with `TrimEnd`'s contract the result is exactly the input without its trailing whitespace |
| Text.ToUpper | components/PaymentForm.tsx:84 | `toUpperCase()` character by character; `ToUpperKeepsUpper` states that A–Z and whitespace are left alone |
| Text.ToUpperKeepsUpper | components/PaymentForm.tsx:84 | upper-casing a string of A–Z and whitespace leaves it unchanged |
| Payment.FormatCardNumber | components/PaymentForm.tsx:28-32 | `formatCardNumber`; its meaning is given by `FormatRemoveSpaces`, `FormatRoundTrip`, `FormatIdempotent` and `FormattedSixteenDigits` |
| Payment.Chunks | components/PaymentForm.tsx:30 | `match(/.{1,4}/g)`: the groups concatenate back to the input, each has 1–4 characters, all but the last exactly 4 |
| Payment.JoinChunksRemoveSpaces | components/PaymentForm.tsx:28-32 | deleting the spaces from the grouped output of a space-free string returns that string |
| Payment.FormatRemoveSpaces | components/PaymentForm.tsx:28-32 | the formatted number holds exactly the non-space characters of the input, in order |
| Payment.FormatRoundTrip | components/PaymentForm.tsx:28-32 | for a space-free input, deleting spaces from the formatted number gives the input back |
| Payment.FormatIdempotent | components/PaymentForm.tsx:28-32 | formatting an already formatted number changes nothing |
| Payment.JoinChunksLength | components/PaymentForm.tsx:30 | n characters are grouped into n + (n−1)/4 characters |
| Payment.FormattedSixteenDigits | components/PaymentForm.tsx:28-32 | 16 digits are displayed as 19 characters |
| Payment.LuhnTerm | components/PaymentForm.tsx:52-57 | the contribution of one digit is at most 9 and is the digit itself when not doubled |
| Payment.LuhnSum | components/PaymentForm.tsx:48-61 | the right-to-left Luhn sum with the rightmost digit undoubled; `ValidateCardNumber` proves the source loop computes it |
| Payment.CardNumberAccepted | components/PaymentForm.tsx:44-64 | the verdict of `validateCardNumber`; `VerdictFromSum` and `AcceptedIffCheckDigit` state it |
| Payment.LuhnSumConcat | components/PaymentForm.tsx:51-61 | the right-to-left sum of a concatenation splits, with the doubling parity shifted by the length of the right part |
| Payment.LuhnSumPrepend | components/PaymentForm.tsx:51-61 | prepending a digit adds its term, doubled exactly when an odd number of digits follow it |
| Payment.ValidateCardNumber | components/PaymentForm.tsx:44-64 | the loop's verdict equals the specification: 16 digits after deleting whitespace and a Luhn sum divisible by 10 |
| Payment.CheckDigit | components/PaymentForm.tsx:48-63 | the check digit of a 15-digit payload is a single digit |
| Payment.AcceptedIffCheckDigit | components/PaymentForm.tsx:46-63 | a 16-digit number is accepted iff its last digit is the check digit of the first 15 |
| Payment.CompletesToTen | components/PaymentForm.tsx:63 | exactly one digit brings a sum to a multiple of ten, namely (10 − sum mod 10) mod 10 |
| Payment.LuhnTermInjective | components/PaymentForm.tsx:54-57 | distinct digits give distinct terms, doubled or not |
| Payment.LuhnSumAround | components/PaymentForm.tsx:51-61 | the sum of pre + [c] + post splits around c with c doubled by the parity of the length of post |
| Payment.LuhnSumChangesWithDigit | components/PaymentForm.tsx:51-63 | changing one digit changes the sum modulo 10 |
| Payment.SingleDigitErrorDetected | components/PaymentForm.tsx:44-64 | two 16-digit numbers that differ in exactly one position are never both accepted |
| Payment.TermsDifferModTen | components/PaymentForm.tsx:63 | adding two distinct digit terms to the same rest gives different residues modulo 10 |
| Payment.VerdictFromSum | components/PaymentForm.tsx:46-63 | for 16 digits without spaces, acceptance is exactly `sum % 10 === 0` |
| Payment.LuhnExamples | components/PaymentForm.tsx:44-64 | 4532015112830366 is accepted and 4532015112830367 is rejected |
| Payment.FormatPreservesAcceptance | components/PaymentForm.tsx:28-46 | validating the formatted number gives the same verdict as validating the raw input |
| Payment.GetCardType | components/PaymentForm.tsx:67-73 | `getCardType`; `CardTypeByFirstNonSpace` states it depends on the first non-space character alone |
| Payment.CardTypeByFirstNonSpace | components/PaymentForm.tsx:67-73 | the card type is decided by the first non-whitespace character alone: 4 visa, 5 mastercard, 3 amex, anything else (or none) unknown |
| Payment.CardTypeStableWhileTyping | components/PaymentForm.tsx:67-73 | once a non-space character has been typed, typing more never changes the card type |
| Payment.CardTypeOfFormatted | components/PaymentForm.tsx:67-73 | the displayed (grouped) number has the same card type as the raw input |
| Payment.FormatExpiry | components/PaymentForm.tsx:35-41 | `formatExpiry`; its meaning is given by `FormatExpiryDigits`, `FormatExpiryLength` and `FormatExpiryIdempotent` |
| Payment.FormatExpiryDigits | components/PaymentForm.tsx:35-41 | the output keeps the first four digits of the input; with two or more digits it is the first two, a "/", and up to two more, otherwise the digits unchanged |
| Payment.FormatExpiryLength | components/PaymentForm.tsx:91-97 | an input of at most 4 digits (as the handler admits) is shown in at most 5 characters |
| Payment.FormatExpiryIdempotent | components/PaymentForm.tsx:35-41 | formatting an already formatted expiry changes nothing |
| Payment.TrailingSlashReappears | components/PaymentForm.tsx:91-97 | for two digits MM, both "MM/" and "MM" are formatted to "MM/", so backspace at the end cannot remove the slash |
| Payment.PaymentErrorsFor | components/PaymentForm.tsx:107-135 | the error record `validateForm` builds; `FormAcceptedIff` states when it is empty and `PaymentForm.ValidateForm` proves the method stores it |
| Payment.ExpiryAcceptedIff | components/PaymentForm.tsx:118-130 | an MM/YY expiry passes iff it has 5 characters, its month is in 1..12 and (year, month) is not before the current (year mod 100, month) |
| Payment.ExpiryValidEarlier | components/PaymentForm.tsx:122-129 | an expiry accepted today is accepted on every earlier date, so a card expiring this month still passes |
| Payment.FormAcceptedIff | components/PaymentForm.tsx:107-137 | the form is valid iff the Luhn check passes, the name is non-blank with at least 3 characters, the expiry passes and the CVV has 3 characters |
| Payment.CardNumberFieldLength | components/PaymentForm.tsx:75-81 | a card-number field built by the handler is at most 19 characters |
| Payment.ExpiryFieldShape | components/PaymentForm.tsx:91-97 | an expiry field built by the handler has at most 5 characters and splits into numeric month and year |
| Payment.PaymentForm.constructor | components/PaymentForm.tsx:15-25 | all four fields start empty and there are no errors |
| Payment.PaymentForm.CardNumberChange | components/PaymentForm.tsx:75-81 | an input of at most 16 digits once whitespace is deleted is stored grouped and its error cleared; any other input leaves the state unchanged; other fields untouched |
| Payment.PaymentForm.CardNameChange | components/PaymentForm.tsx:83-89 | the upper-cased input is stored (and its error cleared) iff it holds only A–Z and whitespace; otherwise nothing changes |
| Payment.PaymentForm.ExpiryChange | components/PaymentForm.tsx:91-97 | the digits of the input, if at most 4, are stored as `formatExpiry` output and the error cleared; otherwise nothing changes |
| Payment.PaymentForm.CvvChange | components/PaymentForm.tsx:99-105 | an input of at most 3 digits is stored and its error cleared; otherwise nothing changes |
| Payment.PaymentForm.ValidateForm | components/PaymentForm.tsx:107-137 | the stored errors equal the specification record for the fields and the given date, and the result is true iff that record is empty |
| AddressEntry.AddressData.With | components/AddressForm.tsx:40 | `{ ...prev, [name]: value }` sets the named field and no other |
| AddressEntry.IsValidEmail | components/AddressForm.tsx:53 | the executable email test; `EmailTestMatchesPattern` proves it equal to the regular expression |
| AddressEntry.EmailTestMatchesPattern | components/AddressForm.tsx:53 | the scanner accepts exactly the strings matching `^[^\s@]+@[^\s@]+\.[^\s@]+$` |
| AddressEntry.IsValidPhone | components/AddressForm.tsx:58 | 10 or 11 ASCII digits after deleting whitespace; `PhoneFieldIff` ties it to the phone error |
| AddressEntry.IsValidPostalCode | components/AddressForm.tsx:66 | exactly 5 ASCII digits, untrimmed; `PostalCodeFieldIff` and `PaddedPostalCodeRejected` state it |
| AddressEntry.Message.Text | components/AddressForm.tsx:50-67 | every error message is non-empty, so a stored error is truthy |
| AddressEntry.RequiredError | components/AddressForm.tsx:50-63 | a free-text field gets its "required" error iff it is blank after trimming |
| AddressEntry.AddressErrors.Clear | components/AddressForm.tsx:43 | clearing removes the named field's error and keeps every other error |
| AddressEntry.AddressErrorsFor | components/AddressForm.tsx:47-69 | the error record of `validateForm`; `AddressErrorsForGet` and `AddressAcceptedIff` give its meaning |
| AddressEntry.AddressErrorsForGet | components/AddressForm.tsx:47-69 | the error record holds, for each field, that field's own rule result (none for the address title) |
| AddressEntry.RequiredTakesPrecedence | components/AddressForm.tsx:50-68 | a blank validated field gets the "required" message rather than the format message |
| AddressEntry.EmailFieldIff | components/AddressForm.tsx:51-55 | the email has no error iff it matches the pattern |
| AddressEntry.PhoneFieldIff | components/AddressForm.tsx:56-60 | the phone has no error iff it has 10 or 11 ASCII digits once whitespace is deleted |
| AddressEntry.PostalCodeFieldIff | components/AddressForm.tsx:64-68 | the postal code has no error iff it is exactly 5 ASCII digits |
| AddressEntry.EmailFormatMessageIff | components/AddressForm.tsx:51-55 | the "invalid email" message appears iff the email is non-blank and does not match the pattern |
| AddressEntry.PaddedPostalCodeRejected | components/AddressForm.tsx:64-68 | a valid code with a trailing space is rejected as invalid, because the pattern is tested on the untrimmed value |
| AddressEntry.NoErrorsGivesRules | components/AddressForm.tsx:47-71 | an empty error record means every field rule holds |
| AddressEntry.RulesGiveNoErrors | components/AddressForm.tsx:47-71 | when every field rule holds the error record is empty |
| AddressEntry.AddressAcceptedIff | components/AddressForm.tsx:47-71 | the form is valid iff name, address, city and district are non-blank, the email matches the pattern, the phone and the postal code are valid; the title plays no part |
| AddressEntry.InitialAddressRejected | components/AddressForm.tsx:47-69 | the initial (empty) form gets the "required" error on every validated field and none on the title |
| AddressEntry.AddressForm.constructor | components/AddressForm.tsx:25-36 | all fields start empty except the title "Ev", with no errors |
| AddressEntry.AddressForm.HandleChange | components/AddressForm.tsx:38-45 | only the named field is updated and only its error is cleared |
| AddressEntry.AddressForm.SelectTitle | components/AddressForm.tsx:106-111 | choosing a title changes only the title |
| AddressEntry.AddressForm.ValidateForm | components/AddressForm.tsx:47-72 | the stored errors equal the specification record and the result is true iff it is empty |
| AddressEntry.AddressForm.Submit | components/AddressForm.tsx:74-79 | the data is handed on exactly when validation passes |
| Pricing.RoundHalfUp | lib/api.ts:237 | `Math.round` gives the integer within half of x, ties upward |
| Pricing.RoundHalfUpMonotone | lib/api.ts:237 | rounding is monotone |
| Pricing.DiscountPercentage | lib/api.ts:235-236 | a compare-at price of 0 or none, or one not above the price, gives 0 |
| Pricing.DiscountIsRoundedSaving | lib/api.ts:237 | otherwise the result is the saving (compareAt − price) / compareAt × 100 rounded half up |
| Pricing.ExactSavingBounds | lib/api.ts:237 | for 0 ≤ price < compareAt the exact saving lies in (0, 100] |
| Pricing.DiscountBounds | lib/api.ts:235-238 | for a non-negative price the percentage lies in [0, 100] |
| Pricing.PositiveDiscountMeansHigherListPrice | lib/api.ts:236 | a positive percentage means the compare-at price is set and above the price |
| Pricing.DiscountAntitoneInPrice | lib/api.ts:235-238 | for a fixed compare-at price, a higher price never gives a larger percentage |
| Pricing.IsInStock | lib/api.ts:243-245 | `stock_quantity > 0`; `StockLevels` relates it to low stock |
| Pricing.IsLowStock | lib/api.ts:250-252 | `0 < stock_quantity <= low_stock_threshold`; `StockLevels` states low stock implies in stock |
| Pricing.StockLevels | lib/api.ts:243-252 | low stock implies in stock; an in-stock product is low iff its quantity is at most the threshold; a threshold ≤ 0 is never low |
| Carousel.SlideCountIsLength | components/Carousel.tsx:9-34 | there are 3 slides, with ids 1, 2, 3 in order |
| Carousel.NextIndex | components/Carousel.tsx:50-52 | `(i + 1) % n` stays in range and wraps from n−1 to 0 |
| Carousel.PrevIndex | components/Carousel.tsx:54-56 | `(i − 1 + n) % n` stays in range and wraps from 0 to n−1 |
| Carousel.PrevUndoesNext | components/Carousel.tsx:50-56 | previous after next, and next after previous, restore the index |
| Carousel.Advance | components/Carousel.tsx:41-51 | any number of advances stays in range |
| Carousel.SuccessorMod | components/Carousel.tsx:51 | `(n + 1) % 3` is the wrapped successor of `n % 3` |
| Carousel.AdvanceIsModular | components/Carousel.tsx:41-51 | k advances from i reach (i + k) mod n |
| Carousel.FullRoundReturns | components/Carousel.tsx:51 | a multiple of n advances returns to the start |
| Carousel.EverySlideReached | components/Carousel.tsx:41-51 | from any slide, every slide is reached within n advances |
| Carousel.PromoCarousel.constructor | components/Carousel.tsx:37 | the index starts at 0 |
| Carousel.PromoCarousel.CurrentSlide | components/Carousel.tsx:62-70 | the shown slide is one of the slides |
| Carousel.PromoCarousel.GoToSlide | components/Carousel.tsx:145-150 | a dot click sets the index to exactly that dot, and that dot alone is highlighted |
| Carousel.PromoCarousel.NextSlide | components/Carousel.tsx:50-52 | the index becomes the next index and stays in range |
| Carousel.PromoCarousel.PrevSlide | components/Carousel.tsx:54-56 | the index becomes the previous index and stays in range |
| Toasts.RemoveById | components/ui/toaster.tsx:30 | the `filter(t => t.id !== id)` of the timeout and the close button; the `RemoveById*` lemmas and `CloseRemovesExactlyOne` give its meaning |
| Toasts.RemoveByIdMembership | components/ui/toaster.tsx:30-52 | a toast survives removal by id iff it was present and has another id |
| Toasts.RemoveByIdKeepsOrder | components/ui/toaster.tsx:30-52 | the survivors keep their order |
| Toasts.RemoveByIdIdempotent | components/ui/toaster.tsx:30-52 | removing an id twice is the same as removing it once |
| Toasts.RemoveAbsentId | components/ui/toaster.tsx:30-52 | removing an absent id leaves the list unchanged |
| Toasts.IncreasingIdsUnique | components/ui/toaster.tsx:7-28 | in a list received from the counter, ids are pairwise distinct |
| Toasts.RemoveByIdKeepsInvariant | components/ui/toaster.tsx:30-52 | removal keeps the ids increasing and below the counter |
| Toasts.CloseRemovesExactlyOne | components/ui/toaster.tsx:51-53 | closing the toast at position k removes exactly that toast |
| Toasts.Toaster.constructor | components/ui/toaster.tsx:24 | a toaster starts with no toasts |
| Toasts.Toaster.Receive | components/ui/toaster.tsx:27-28 | a received toast is appended after the earlier ones |
| Toasts.Toaster.Dismiss | components/ui/toaster.tsx:29-53 | the timeout and the close button keep exactly the toasts of other ids |
| Toasts.ToastHub.constructor | components/ui/toaster.tsx:7-8 | the counter starts at 0 with no listeners |
| Toasts.ToastHub.Subscribe | components/ui/toaster.tsx:34 | a new listener is appended; the counter is unchanged |
| Toasts.ToastHub.Unsubscribe | components/ui/toaster.tsx:36-41 | the first occurrence of the listener is spliced out, nothing happens if it is absent, and it is no longer registered |
| Toasts.ToastHub.Toast | components/ui/toaster.tsx:10-21 | the toast takes the current counter value as a fresh id, the counter grows by one, and every listener appends it exactly once, in registration order |
| CategoryMenus.SubcategoriesFor | components/CategoryMenu.tsx:25-27 | `getSubcategoriesForCategory`; `SubcategoriesForExact` states it |
| CategoryMenus.CategoryHasProducts | components/CategoryMenu.tsx:30-33 | `categoryHasProducts`; `CategoryHasProductsIff` states it |
| CategoryMenus.ActiveCategoriesWithProducts | components/CategoryMenu.tsx:36 | `activeCategoriesWithProducts`; `ListedCategories` states it |
| CategoryMenus.SubcategoriesForExact | components/CategoryMenu.tsx:25-27 | the result holds exactly the subcategories of that parent, in input order and with their multiplicities |
| CategoryMenus.SubcategoriesNonEmptyIff | components/CategoryMenu.tsx:25-46 | the list is non-empty iff some subcategory has that parent |
| CategoryMenus.CategoryHasProductsIff | components/CategoryMenu.tsx:30-33 | a category is listed iff it is active or has a subcategory |
| CategoryMenus.ListedCategories | components/CategoryMenu.tsx:36 | the listed categories are an order-preserving subsequence, exactly those that have products, including every active category |
| CategoryMenus.DropdownNeedsSubcategories | components/CategoryMenu.tsx:46-86 | a dropdown opens only for a category with subcategories and only for the hovered id; with nothing hovered none opens |
| CategoryMenus.CategoryMenu.constructor | components/CategoryMenu.tsx:22 | nothing is hovered at first |
| CategoryMenus.CategoryMenu.MouseEnter | components/CategoryMenu.tsx:52 | entering a row records its id |
| CategoryMenus.CategoryMenu.MouseLeave | components/CategoryMenu.tsx:53 | leaving a row clears the hover |
| CategoryMenus.CategoryMenu.EnterOpensOnlyThatRow | components/CategoryMenu.tsx:52-86 | after entering a row, its dropdown is open iff it has subcategories, and no row with another id is open |
| ProductFiltering.HasActiveFilters | components/ProductFilters.tsx:50 | `hasActiveFilters`; `NoActiveFiltersIff` and `ZeroBoundIsActive` state it |
| ProductFiltering.NoActiveFiltersIff | components/ProductFilters.tsx:50 | no filter is active iff the subcategory is undefined or empty, both bounds are undefined and `inStock` is not true; the sort never matters |
| ProductFiltering.ZeroBoundIsActive | components/ProductFilters.tsx:50 | a price bound of 0 counts as an active filter |
| ProductFiltering.DisplayedSort | components/ProductFilters.tsx:76-94 | a defined sort is shown as itself and an undefined one as 'newest' |
| ProductFiltering.BoundOf | components/ProductFilters.tsx:53-54 | empty text gives an undefined bound and any other text its parsed value |
| ProductFiltering.ApplyUntouchedReportsProps | components/ProductFilters.tsx:39-56 | applying the untouched inputs reports an undefined prop as undefined, and a defined one as itself when parsing reads back the printed number |
| ProductFiltering.SubcategoryButtons | components/ProductFilters.tsx:129-151 | "Tümü" comes first, then one button per subcategory, in order |
| ProductFiltering.ClickHighlightsOnlyThatButton | components/ProductFilters.tsx:129-150 | with distinct non-empty slugs, feeding a button's reported value back as the selection highlights that button and no other ("Tümü" reports undefined) |
| ProductFiltering.ProductFilters.constructor | components/ProductFilters.tsx:36-40 | the drawer starts closed and the price inputs show the printed props, or '' when undefined |
| ProductFiltering.ProductFilters.SetLocalMinPrice | components/ProductFilters.tsx:189 | typing changes the minimum text only |
| ProductFiltering.ProductFilters.SetLocalMaxPrice | components/ProductFilters.tsx:203 | typing changes the maximum text only |
| ProductFiltering.ProductFilters.HandlePriceApply | components/ProductFilters.tsx:52-56 | both bounds are reported together, each undefined exactly when its text is empty |
| ProductFiltering.ProductFilters.ToggleOpen | components/ProductFilters.tsx:63 | the toggle flips the drawer and nothing else |
| ProductFiltering.ProductFilters.Close | components/ProductFilters.tsx:252-265 | drawer actions close it and change nothing else |
| ProductListing.PageFilters.Props | app/urunler/page.tsx:103-108 | the page always passes a defined stock flag and sort |
| ProductListing.InitialHasNoActiveFilters | app/urunler/page.tsx:17-22 | the initial state shows no active filter and the 'newest' sort |
| ProductListing.SearchDoesNotActivateFilters | app/urunler/page.tsx:103-108 | the search text never changes whether filters are active |
| ProductListing.DisplayedSortIsPageSort | app/urunler/page.tsx:108 | the panel displays exactly the page's sort |
| ProductListing.ProductsPage.constructor | app/urunler/page.tsx:17-22 | no subcategory, no price bounds, `inStock` false, sort 'newest', search '' |
| ProductListing.ProductsPage.HandleClearFilters | app/urunler/page.tsx:49-56 | from any state the page returns to exactly the initial state, so clearing twice equals clearing once, and no filter is active afterwards |
| ProductListing.ClearThenApplyPrice | app/urunler/page.tsx:49-56 | clearing leaves the panel's price text as it was (the panel reads the props only when it is created, components/ProductFilters.tsx:39-40), so a following apply sets the page back to the bounds of that text, and any non-empty text turns the filters active again |
| ProductListing.ProductsPage.OnPriceChange | app/urunler/page.tsx:110-113 | both bounds are set together and nothing else changes |
| ProductListing.ProductsPage.OnSubcategoryChange | app/urunler/page.tsx:109 | only the subcategory changes |
| ProductListing.ProductsPage.OnStockChange | app/urunler/page.tsx:114 | only the stock flag changes |
| ProductListing.ProductsPage.OnSortChange | app/urunler/page.tsx:115 | only the sort changes |
| ProductListing.ProductsPage.OnSearch | app/urunler/page.tsx:88 | only the search text changes |

## Left out

- Remote data access:
  - the Supabase queries and the view-count update of `lib/api.ts` are I/O against an external service;
  - the same holds for the `loadData` effects of the home page and the listing page (app/urunler/page.tsx:24-47).
- Cart state, a checkout step machine and a promo-code rule: none of their logic is implemented in the files this model covers. `contexts/CartContext` is not part of this model.
- Timers:
  - the carousel's 4-second `setInterval` is modelled as repeated `NextSlide`;
  - a toast's 4-second `setTimeout` removal is modelled as `Dismiss`.
  - When these callbacks fire, and how they interleave with user actions, is not modelled.
- Floating point: prices are reals. NaN, infinities and rounding error of IEEE doubles are not modelled. This includes a `parseFloat` result of NaN, which the source would pass on as a defined bound.
- Number printing and parsing:
  - `Number#toString` and `parseFloat` are parameters;
  - `HandlePriceApply` and `ApplyUntouchedReportsProps` say nothing about what those functions compute.
- Toast ids:
  - ids are naturals where the source uses `String(counter)`, which is injective on them;
  - listener closures are modelled as `Toaster` objects;
  - a rendered toast's animation and the `onClose` prop are not modelled.
- Strings are sequences of Unicode scalar values (Dafny's `char`), where JavaScript strings are sequences of UTF-16 code units. The two differ only for characters outside the Basic Multilingual Plane, which count once here and twice in JavaScript's `.length`. Every modelled length test is on a field already restricted to ASCII digits or letters (card number, expiry, CVV, phone, postal code) or made of A–Z and whitespace (card name), so no verdict depends on the difference. `toUpperCase` is modelled for ASCII letters and for the few non-ASCII letters whose upper case is pure ASCII. It maps every other character to itself, which only matters for inputs the A–Z filter rejects anyway.
- Presentation-only state is not modelled, for example:
  - `priceOpen` and `subcategoryOpen` in the filter panel;
  - `isFlipped` in the payment form;
  - animations, icons and labels.
- Routing is not modelled:
  - navigation links;
  - the optional `onCategorySelect` / `onSubcategorySelect` callbacks of the category menu.
- The `SortOption` type comes from a file that is not part of this model. The five sort values are those listed at components/ProductFilters.tsx:42-48.
- `formatPrice` (lib/api.ts:225-230) is left out: it is `Intl.NumberFormat` locale currency formatting.
- Payment.ExpiryError: `Number` on the month and year parts is modelled only for the "DD/DD" shape that the input filter guarantees (`ExpiryFieldShape`). The source would also parse other 5-character strings.
- AddressEntry.AddressForm.HandleChange: the postal-code input's `maxLength={5}` (components/AddressForm.tsx:272), which the browser enforces before `handleChange` runs, is not modelled; any value is accepted.
- AddressEntry.AddressForm.HandleChange: the source sets the cleared error to `undefined` instead of deleting the key. The two are indistinguishable for the `errors[name]` test that reads it, so the model stores no error.
- AddressEntry.AddressForm.ValidateForm: the source writes each message with an `if` statement. The model assigns the same per-field results through conditional expressions.
- Payment.PaymentForm.ValidateForm: the month and year come from the system clock in the source. Here they are parameters. The acceptance lemmas about them assume a month in 1..12, which `getMonth() + 1` always is.
