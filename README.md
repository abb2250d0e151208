# Cashier billing core

A model of the billing core of the Tkinter cashier application (`cashier.py`). A clerk types a
product identifier or part of a product name together with a quantity. The application looks
the product up in a fixed catalog of ten products. It appends a cart line (name, unit price,
quantity, line total) and recomputes the bill. The bill is the subtotal, a 10% discount from a
subtotal of 20.00 on (20.00 itself included), and 8% tax on the discounted amount. The clerk
then types the amount paid. The application checks it, computes the change and starts a new
transaction with an empty cart.

The project has four modules:

- `Text` (`text.dfy`) models the Python string operations the core relies on: `str.strip()`,
  `str.lower()`, the substring test `in`, `int(...)` and `float(...)`. Each is restricted to the
  ASCII subset the model covers. It also models `str` on integers, and the two-decimal text a
  clerk types for an amount (such as "12.05"), so that round trips can be stated.
- `Catalog` (`catalog.dfy`) holds the `PRODUCTS` dictionary as a list of (identifier, entry)
  pairs in insertion order, with the dictionary view derived from it. It also holds
  `find_product` as a pure function with its lookup properties.
- `Billing` (`billing.dfy`) holds cart lines, the subtotal, and `calculate_bill` for a given
  subtotal, together with the constants `TAX_RATE`, `DISCOUNT_PERCENTAGE` and the 20.00
  threshold.
- `Register` (`register.dfy`) holds the decisions of `add_item_to_cart_gui` and
  `process_payment_gui` as pure functions. It also holds the class `Cashier`, whose fields are
  the application's transaction fields. Its methods `AddItem`, `CalculateBill`,
  `ProcessPayment` and `ClearCart` update those fields in place, as the application's methods
  do. `AddItem` is specified by the decision function `ResolveLine` and `ProcessPayment` by
  `AssessPayment`. `CalculateBill` and `ClearCart` state the new field values outright. The
  class invariant `Valid()` says the stored bill is always the bill of the cart.

Money is exact (`real`). The text the clerk types into the three entry fields arrives as
string parameters. The methods return the outcome that decides which message the application
would show.

## Model

| member | source | states |
|---|---|---|
| Catalog.Products | cashier.py:10-21 | the ten products, in dictionary order, with their names and prices |
| Catalog.ProductsWellFormed | cashier.py:10-21 | the shipped catalog has distinct identifiers and non-negative prices |
| Catalog.Table | cashier.py:146-147 | the dictionary behind `query in PRODUCTS` and `PRODUCTS[query]`: each identifier maps to its entry, and a later duplicate key overrides an earlier one as in a dict literal |
| Catalog.TableListed | cashier.py:146-147 | every key of the dictionary view is listed with the entry the view gives it |
| Catalog.TableAt | cashier.py:146-147 | with distinct identifiers, the dictionary view maps each listed identifier to its own entry |
| Catalog.Matches | cashier.py:151-154 | the list comprehension: the entries whose lower-cased name contains the lower-cased query, in catalog order; its properties are the `Matches…` lemmas below |
| Catalog.MatchesEmpty | cashier.py:150-154 | the name comprehension is empty exactly when no lower-cased name contains the lower-cased query |
| Catalog.MatchesSingle | cashier.py:150-157 | a one-element comprehension holds the entry of the one product whose name matches, and no other product matches |
| Catalog.MatchesSeveral | cashier.py:150-158 | a comprehension of two or more elements comes from two distinct matching products |
| Catalog.MatchesOutcome | cashier.py:150-162 | the comprehension's size is 0, 1 or more exactly when no, one or several products match (each an iff) |
| Catalog.FindProduct | cashier.py:143-162 | `find_product`: an identifier of the dictionary first, else the name comprehension, found only when it has one element; the listing is taken to have distinct identifiers, as `PRODUCTS` does; its properties are the `Find…` lemmas below |
| Catalog.FoundIsListed | cashier.py:143-162 | whatever `find_product` returns is an entry of the catalog; an ambiguous lookup reports the query it was given |
| Catalog.FindPrefersId | cashier.py:145-147 | an exact identifier wins; the name search is not consulted |
| Catalog.FindById | cashier.py:145-147 | looking a product up by its own identifier yields that product |
| Catalog.FindNoName | cashier.py:149-162 | a query that is not an identifier is not found iff no name matches it |
| Catalog.FindUniqueName | cashier.py:149-157 | a query that is not an identifier resolves iff exactly one name matches, and then to that product |
| Catalog.FindAmbiguousName | cashier.py:149-160 | a query that is not an identifier is ambiguous iff two distinct products' names match |
| Catalog.NameSearchIgnoresCase | cashier.py:150-153 | two queries that lower-case alike give the same name matches |
| Catalog.FindIgnoresCase | cashier.py:149-162 | two queries that lower-case alike and are not identifiers resolve to the same product, are both not found, or are both ambiguous |
| Catalog.SingleLetterIsAmbiguous | cashier.py:149-160 | in the shipped catalog the query "a" matches several names and is ambiguous |
| Text.Leading | cashier.py:166 | the count of leading whitespace characters, each of them whitespace, the next one not |
| Text.Trailing | cashier.py:166 | the count of trailing whitespace characters, each of them whitespace, the one before not |
| Text.Strip | cashier.py:166-167 | `strip()`: the input without its leading and trailing whitespace; its properties are `StripSlice`, `StripTail` and `StripEnds` |
| Text.StripSlice | cashier.py:166-167 | `strip()` is the slice of its input that starts right after the leading whitespace |
| Text.StripTail | cashier.py:166-167 | everything after the slice `strip()` keeps is whitespace |
| Text.StripEnds | cashier.py:166-167 | `strip()` neither starts nor ends with whitespace, and it is empty iff the input is all whitespace |
| Text.StripTrimmed | cashier.py:166-167 | a string without whitespace at its ends is its own `strip()` |
| Text.StripIdempotent | cashier.py:166-167 | `strip()` applied twice is `strip()` applied once |
| Text.IsSubstring | cashier.py:153 | Python's `in` on strings: some slice of the haystack equals the needle, so the empty string is in every string |
| Text.Lower | cashier.py:150-153 | `lower()` keeps the length and lower-cases each ASCII letter |
| Text.Decimal | cashier.py:177 | the decimal text of a natural number is non-empty and all digits |
| Text.DecimalValue | cashier.py:177 | reading back the digits of a natural number gives the number |
| Text.ParseInt | cashier.py:177 | `int()` on the stripped text: an optional sign and at least one ASCII digit, anything else `None` (the `ValueError` path); its property is `ParseIntRoundTrip` |
| Text.ParseIntRoundTrip | cashier.py:177 | `int(str(n)) == n` for every integer |
| Text.IntTextTrimmed | cashier.py:167 | `str(n)` has no whitespace at either end |
| Text.FirstDot | cashier.py:257 | the index of the first '.', or the length when there is none |
| Text.FirstDotAfterDigits | cashier.py:257 | in digits followed by '.', the first '.' is the one after the digits |
| Text.ParsePointed | cashier.py:257 | digits, '.', digits are read as the whole part plus the fraction over the matching power of ten |
| Text.ParseUnsignedFirst | cashier.py:257 | without a sign (including the empty text and texts like ".5"), `float` reads the unsigned notation |
| Text.ParseAmount | cashier.py:257 | `float()` on the stripped text: an optional sign, then digits with at most one '.' and at least one digit, anything else `None` (the `ValueError` path); its properties are `CentsRoundTrip` and `ParseAmountOfInt` |
| Text.TwoDecimalsParsed | cashier.py:257 | a whole number, '.', and two digits are read as the whole number plus the hundredths |
| Text.CentsRoundTrip | cashier.py:257 | `float` reads an amount written with two decimals back as exactly that amount |
| Text.ParseAmountOfInt | cashier.py:257 | any text `int` accepts is read by `float` as the same number |
| Text.CentsTextTrimmed | cashier.py:247 | an amount written with two decimals has no whitespace at either end |
| Billing.TAX_RATE | cashier.py:23 | the sales tax rate, 8% |
| Billing.DISCOUNT_PERCENTAGE | cashier.py:24 | the discount rate, 10% |
| Billing.DISCOUNT_THRESHOLD | cashier.py:210 | the subtotal from which the discount applies, 20.00 inclusive |
| Billing.Line | cashier.py:193-198 | a cart line: product name, price, quantity and line total |
| Billing.Subtotal | cashier.py:207 | the `sum` of the line totals, adding the lines in cart order; `SumLineTotals` computes it by a loop |
| Billing.SumLineTotals | cashier.py:207 | the loop over the cart adds up to `Subtotal`, the sum of the line totals in cart order |
| Billing.SubtotalAppend | cashier.py:192-207 | appending a line adds its line total to the subtotal |
| Billing.SubtotalNonNegative | cashier.py:207 | lines with non-negative totals have a non-negative subtotal |
| Billing.BillFor | cashier.py:205-215 | the discount is 10% of the subtotal from 20.00 on (inclusive) and 0 below; tax is 8% of the discounted subtotal; the total is the discounted subtotal plus tax, i.e. 1.08 times it |
| Billing.BillOf | cashier.py:205-215 | the bill `calculate_bill` stores for a cart: `BillFor` of the cart's subtotal |
| Billing.BillBounds | cashier.py:205-215 | for a non-negative subtotal: 0 <= discount <= subtotal, discount > 0 iff subtotal >= 20.00, tax and total >= 0, and 0.9 * 1.08 * subtotal <= total <= 1.08 * subtotal |
| Billing.CartBillNonNegative | cashier.py:205-215 | a cart of priced lines has every bill amount non-negative and a total of at most the subtotal plus 8% |
| Billing.ThresholdLowersTotal | cashier.py:210-211 | a subtotal strictly between 18.00 and 20.00 costs more than a subtotal of exactly 20.00 |
| Register.ResolveLine | cashier.py:166-198 | the checks of `add_item_to_cart_gui` in the source's order and the line it builds; its properties are `ResolveLineAdds` and `ResolveLineRejects` |
| Register.ResolveLineAdds | cashier.py:164-198 | a line is added iff the stripped query is non-blank, the stripped quantity is a positive integer and the product is found; the line is the product's name and price, the quantity and price times quantity |
| Register.ResolveLineRejects | cashier.py:166-190 | each refusal is the first failing check, each stated as an iff: blank query, blank quantity, quantity `int` rejects, quantity <= 0, product not found, product ambiguous; the query reported is the stripped query |
| Register.AddedLineListed | cashier.py:185-198 | over a catalog with non-negative prices, every added line is a priced line of a catalog entry |
| Register.AddByIdentifier | cashier.py:164-198 | typing a product's identifier and a positive quantity adds that product's line |
| Register.NonPositiveQuantityRejected | cashier.py:177-180 | a typed quantity of zero or less is refused as non-positive, whatever the product |
| Register.AssessPayment | cashier.py:245-265 | the payment succeeds iff the cart is non-empty and the parsed amount covers the total, with change = amount - total >= 0; each refusal (empty cart, blank amount, amount `float` rejects, insufficient amount) is characterised |
| Register.PayInCents | cashier.py:247-265 | an amount typed with two decimals is accepted iff it covers the total, and the change is the amount less the total |
| Register.Cashier.Valid | cashier.py:33-39 | the invariant every method keeps: the catalog has distinct identifiers and non-negative prices, every cart line is a priced line of a catalog entry, the stored amounts are the bill of the cart, and no change is outstanding |
| Register.ValidAmountsNonNegative | cashier.py:205-215 | between actions the stored subtotal, discount, tax and total are never negative and the total is at most 1.08 times the subtotal |
| Register.Cashier.constructor | cashier.py:27-42 | a new register has an empty cart, all amounts 0, and satisfies the invariant |
| Register.Cashier.CalculateBill | cashier.py:205-215 | stores the bill of the current cart and leaves the cart, the amount paid and the change as they were |
| Register.Cashier.AddItem | cashier.py:164-203 | the outcome is `ResolveLine`'s; on success exactly that line is appended at the end and the bill recomputed; on any refusal nothing changes; the invariant is kept |
| Register.Cashier.ProcessPayment | cashier.py:245-272 | the outcome is `AssessPayment`'s on the cart before the call; on success cart empty and all amounts 0; on an insufficient amount only the amount paid changes; on any other refusal nothing changes |
| Register.Cashier.ClearCart | cashier.py:274-285 | from any state: empty cart, every amount 0, invariant restored (so clearing twice is clearing once) |
| Register.ExampleApples | cashier.py:164-198 | typing "101" and "2" adds two apples at 3.00 |
| Register.ExampleMilk | cashier.py:164-198 | typing "201" and "5" adds five bottles of milk at 15.00 |
| Register.ExampleBanana | cashier.py:164-198 | typing "102" and "1" adds one banana at 0.75 |
| Register.ExampleCoffee | cashier.py:164-198 | typing "501" and "1" adds instant coffee at 5.00 |
| Register.ExampleBills | cashier.py:205-215 | the example cart's bills: 18.00 and 18.75 undiscounted; 23.75 gives discount 2.375, tax 1.71, total 23.085 |
| Register.ExampleCart | cashier.py:164-203 | a register on the shipped catalog after the four example lines holds exactly those lines |
| Register.ExampleTransaction | cashier.py:245-285 | on the example cart, paying 25.00 against 23.085 gives 1.915 change and an empty cart |

## Left out

- The Tkinter window, widgets, layout, the product list and cart rendering (`create_widgets`, `populate_product_list_display`, the text part of `update_display`) are not modelled. They only display state. The `calculate_bill` call inside `update_display` is modelled as `CalculateBill`.
- `display_message`, its five-second timer and `messagebox.showinfo` are left out, because they only show text. The outcome datatypes `AddOutcome` and `PaymentOutcome` say which message would be shown.
- The "not found" message for a failed lookup is shown only while no other message is displayed. This depends on the message label's current text and on timing, so it is left out. The outcome still tells "not found" apart from "ambiguous".
- Amounts are formatted with `:.2f` only for display; that rounding is not modelled.
- Money is exact `real` arithmetic, not IEEE double. Rounding errors are not modelled, and neither are `float` accepting "nan", "inf", exponents or `_` separators.
- Register.AssessPayment: answers `InvalidAmount` for "nan" and "inf", which `float` accepts. In the source, "nan" fails the `<` test (cashier.py:258), so the payment succeeds with change nan and the cart is cleared. "inf" succeeds with change inf, and "-inf" is refused as insufficient.
- Register.ResolveLine: returns `Added` for every positive quantity. In the source, a quantity of 2**1024 or more makes the float product at cashier.py:192 raise `OverflowError`, outside the `try`. The handler then stops before the append, so the cart stays unchanged.
- Text.ParseInt: accepts an optional sign and ASCII digits only. `int` also accepts `_` separators and non-ASCII digits; those are not modelled. `ParseInt` also accepts any number of digits. Python 3.11 and later (and the 3.7 to 3.10 security releases) reject more than 4300 digits with `ValueError`, which the source reports as an invalid quantity.
- Text.ParseAmount: accepts an optional sign and decimal notation with at least one digit. Exponent notation, "inf", "infinity" and "nan" in any letter case, `_` separators and non-ASCII decimal digits are not modelled.
- Text.Strip: removes ASCII whitespace only. Unicode whitespace such as U+00A0 is kept, where `strip()` removes it.
- Text.Lower: lower-cases ASCII letters only. Unicode case mapping is not modelled: the query "\u212A" (KELVIN SIGN) lower-cases to "k" in Python, so `find_product` finds "Milk (1L)", while the model keeps the character and answers not found.
- Catalog.FindProduct: the name search visits every listed pair, while `PRODUCTS.items()` yields each key once with its last value. The two differ only for a listing with a repeated identifier. `PRODUCTS` has none, and `Register.Cashier.Valid` requires distinct identifiers.
- Register.Cashier.constructor: takes the catalog as a parameter, where the application reads the global `PRODUCTS`. `ExampleCart` builds it with `Products()`.
- Register.Cashier.ClearCart: it requires that the catalog has distinct identifiers and non-negative prices. This is the part of the invariant that never changes. The cart and amounts may be anything.
- The main loop, window creation at the bottom of the file, and `sys` are not modelled.
- The comment on `DISCOUNT_PERCENTAGE` speaks of orders "over $20". The code applies the discount from 20.00 on (`>=`), and the model follows the code.
