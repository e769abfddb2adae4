# Figurine quote calculator — Dafny model of `calculate_quote`

The calculator quotes custom figurine orders. Its one piece of decision
logic is `calculate_quote`:

- It rejects an order below 25 figures with a notice.
- It applies a quantity discount to the figures, which the Premium and
  Enterprise tiers override.
- It marks the figures up by 15%.
- It adds twelve conditional add-on fees, a shipping cost read from a weight
  table and a service charge.
- The service charge compounds surcharges on a configured base.
- It returns the total, the profit and a summary of the order line by line.

The model has three modules:

- `Pricing` (`pricing.dfy`) holds the pricing rules as functions:
  - the tier a package name selects, the discount, the figures and the fees;
  - the weight, the shipping table and the service charge;
  - the breakdown of one order into total, cost basis and profit.

  It also has a method that compounds the service charge step by step, as
  the source does.
- `QuoteSummary` (`summary.dfy`) holds the summary:
  - a function that states which lines the summary holds and in what order;
  - a method that builds it by successive appends, as the source does;
  - lemmas about which lines appear, where the profit line sits, and how the
    charge lines add up to the total.
- `Quotes` (`quotes.dfy`) holds the quote function itself:
  - a specification function `QuoteOf`;
  - the method `CalculateQuote`, which follows the source statement by
    statement;
  - lemmas about accepted and rejected orders.

Modelling choices:

- Money is `real`, so every constant (12.50, 1.15, 1.05, …) is an exact
  rational. The model states the intended arithmetic, not binary
  floating-point rounding.
- Quantities and counts are unbounded `int`s, as in Python.
- The configured service-charge base is read from session state in the
  source. Here it is the parameter `serviceBase`.

Where the program's own text promises something its arithmetic does not
deliver, or where a rule could be read two ways, the model follows the
arithmetic:

- **Add-on discount.** The package descriptions on the form promise "10% off
  add-ons" for Pro and Premium and "15% off add-ons" for Enterprise
  (QuoteCaculator.py:153-157). The quote function computes that discount
  (QuoteCaculator.py:45-49) and loops to apply it (QuoteCaculator.py:66-71).
  The loop only writes into `locals()`, which does not rebind the function's
  variables, so every fee enters the total undiscounted.
  `AddOnDiscountNotApplied` and `HundredEnterpriseFigures` state this; the
  latter charges the full 25 for part sourcing on Enterprise.
- **Which flag drives which fee.** Packaging-design and branding-removal fees
  depend on the packaging-design flag. Packaging production depends on the
  packaging and keychain flags.
- **Domain fee.** It is charged whatever the landing-page flag says.
- **Landing page on Enterprise.** The form forces the landing page on for
  Enterprise (QuoteCaculator.py:173). The quote function does not, and the
  model takes the flag as given.

## Model

| member | source | states |
|---|---|---|
| Pricing.TierOf | QuoteCaculator.py:33-56 | the package-name comparisons at lines 33-36, 46-49, 53 and 56 agree: each of the three literal package names selects its tier, and every other string, misspellings included, selects Starter |
| Pricing.QuantityDiscount | QuoteCaculator.py:21-32 | the quantity step lies in [0, 0.06], is 0 exactly below 30 figures and reaches 0.06 exactly from 100 figures |
| Pricing.DiscountRate | QuoteCaculator.py:20-36 | Premium always gets 10% and Enterprise always 15%, whatever the quantity; Starter and Pro get the quantity step; the rate never exceeds 15% |
| Pricing.QuantityDiscountMonotone | QuoteCaculator.py:21-32 | ordering more figures never lowers the quantity step |
| Pricing.DiscountRateMonotone | QuoteCaculator.py:20-36 | for every tier, the figure discount is non-decreasing in the quantity |
| Pricing.BaseCost | QuoteCaculator.py:39-40 | the discounted cost of the figures, 14.50 per figure less the discount; no contract of its own, its properties are stated by `FiguresTotalIsDiscountedListPrice` and `ProfitDecomposition` |
| Pricing.FiguresTotal | QuoteCaculator.py:41 | the base cost marked up by 15%; no contract of its own, its properties are stated by `FiguresTotalIsDiscountedListPrice`, `UnitPriceTimesQuantity` and `FiftyStarterFigures` |
| Pricing.UnitPrice | QuoteCaculator.py:42 | the figures total per figure, 0 for no figures; no contract of its own, its property is stated by `UnitPriceTimesQuantity` |
| Pricing.UnitPriceTimesQuantity | QuoteCaculator.py:42 | the unit price times the quantity gives back the figures total (also for zero figures, whose unit price is 0) |
| Pricing.FiguresTotalIsDiscountedListPrice | QuoteCaculator.py:39-41 | the figures total is 14.50 × 1.15 per figure less the discount, so it lies between 85% and 100% of the undiscounted marked-up price |
| Pricing.AddOnDiscount | QuoteCaculator.py:45-49 | the add-on discount is 0 exactly for Starter, 10% exactly for Pro and Premium, and 15% exactly for Enterprise |
| Pricing.CharDesignFee | QuoteCaculator.py:52 | character design costs 85 exactly when not yet paid, 0 otherwise |
| Pricing.CommercialRightsFee | QuoteCaculator.py:53 | commercial rights cost 25 exactly on a Starter order that asks for them, 0 otherwise |
| Pricing.PackagingDesignFee | QuoteCaculator.py:54 | packaging design costs 100 exactly when requested and not yet paid, 0 otherwise |
| Pricing.BrandingFee | QuoteCaculator.py:55 | branding removal costs 85 exactly when packaging design is requested and branding is not yet paid, 0 otherwise |
| Pricing.AdFee | QuoteCaculator.py:56 | the ad package costs 500 exactly on Premium, 0 otherwise |
| Pricing.SourcingFee | QuoteCaculator.py:57 | part sourcing costs 25 exactly when requested, 0 otherwise |
| Pricing.CustomPartsFee | QuoteCaculator.py:58 | the custom-parts fee is 4 per part per figure; it is 0 exactly when either count is 0, and never negative for counts that are not negative |
| Pricing.CreationFee | QuoteCaculator.py:59 | custom-part creation costs 150 exactly when requested, 0 otherwise |
| Pricing.PackagingCost | QuoteCaculator.py:60 | packaging production is 0 without packaging; with it, 2.00 a figure with keychains and 4.50 a figure without, positive for a positive quantity |
| Pricing.KeychainCost | QuoteCaculator.py:61 | keychains cost 3.00 a figure when requested, 0 otherwise |
| Pricing.LandingPageFee | QuoteCaculator.py:62 | the landing page costs 350 exactly when requested, 0 otherwise |
| Pricing.DomainFee | QuoteCaculator.py:63 | domains cost 85 each, whatever the landing-page flag |
| Pricing.AddOnFees | QuoteCaculator.py:52-63 | the twelve fees of an order, each by its own rule above; no contract of its own, its properties are stated by `AddOnDiscountNotApplied`, `FeesDependOnTierOnly` and `QuoteSummary.AddOnTestIffListed` |
| Pricing.FeesTotal | QuoteCaculator.py:102-104 | the sum of the twelve fees; no contract of its own, its properties are stated by `QuoteSummary.OptionalChargesSum` and `QuoteSummary.TotalIsSumOfChargeLines` |
| Pricing.AddOnDiscountNotApplied | QuoteCaculator.py:45-71 | every fee whose rule does not name a tier is the same on every tier as on Starter, whose add-on discount is 0, so the computed discount never reduces a fee |
| Pricing.Weight | QuoteCaculator.py:74 | the parcel weighs 12 per figure plus 50 with keychains, and 18 per figure plus 50 without |
| Pricing.ShipCost | QuoteCaculator.py:75-86 | the shipping cost is always one of 12.00, 14.50, 18.00, 22.00, 26.00 and 30.00 |
| Pricing.ShipCostMatchesTable | QuoteCaculator.py:75-86 | the chain of breakpoint conditionals agrees, on every weight, with a lookup in the table of (ceiling, cost) rows |
| Pricing.ShipCostMonotone | QuoteCaculator.py:75-86 | a heavier parcel never ships for less |
| Pricing.KeychainShipsNoDearer | QuoteCaculator.py:74-86 | for the same quantity, an order with keychains never costs more to ship than one without |
| Pricing.ServiceMultiplier | QuoteCaculator.py:92-99 | the product of the applicable surcharges lies between 1 and 1.15 × 1.05 × 1.05 × 1.03, and is 1 exactly when none applies |
| Pricing.ServiceCharge | QuoteCaculator.py:89-99 | the base compounded by each applicable surcharge in the source's order, 0 below the minimum; no contract of its own, its properties are stated by `ServiceChargeIsBaseTimesMultiplier`, `ServiceChargeLinear`, `ServiceChargeBounds`, `ServiceChargeIsBase` and `CompoundServiceCharge` |
| Pricing.ServiceChargeIsBaseTimesMultiplier | QuoteCaculator.py:89-99 | for an accepted order, compounding the surcharges one after another equals the base times the product of the applicable factors |
| Pricing.CompoundServiceCharge | QuoteCaculator.py:89-99 | the step-by-step compounding computes the service charge, 0 below the minimum quantity |
| Pricing.ServiceChargeLinear | QuoteCaculator.py:89-99 | scaling the configured base by any factor scales the service charge by that factor |
| Pricing.ServiceChargeDoubles | QuoteCaculator.py:89-99 | doubling the configured base doubles the service charge |
| Pricing.ServiceChargeBounds | QuoteCaculator.py:89-99 | for an accepted order and a base that is not negative, the charge lies between the base and the base with every surcharge |
| Pricing.ServiceChargeIsBase | QuoteCaculator.py:90-91 | an accepted order under 75 figures without packaging, landing page or part sourcing pays exactly the base |
| Pricing.Price | QuoteCaculator.py:20-106 | the whole breakdown of an order: discount, figures, fees, weight, shipping, service charge, total, cost basis and profit; no contract of its own, its properties are stated by `ProfitDecomposition`, `ProfitPositive`, `PriceDependsOnTierOnly`, `QuoteSummary.TotalIsSumOfChargeLines` and the worked examples |
| Pricing.ProfitDecomposition | QuoteCaculator.py:102-106 | the profit is the 15% markup on the base cost, every fee except packaging production, half the custom-parts fee and the service charge; shipping and packaging production are passed on at cost |
| Pricing.ProfitPositive | QuoteCaculator.py:102-106 | an accepted order with counts and base that are not negative always makes a profit |
| Pricing.PriceDependsOnTierOnly | QuoteCaculator.py:33-56 | two orders that differ only in package names selecting the same tier get the same breakdown |
| Pricing.FeesDependOnTierOnly | QuoteCaculator.py:52-63 | the add-on fees see the package name only through its tier |
| Pricing.ServiceChargeIgnoresTier | QuoteCaculator.py:89-99 | the service charge does not depend on the package name |
| Pricing.UnknownTierPricesAsStarter | QuoteCaculator.py:33-56 | an unrecognised package name prices exactly like "Starter Package" |
| Pricing.FiftyStarterFigures | QuoteCaculator.py:21-41 | 50 Starter figures get a 4% discount, a base cost of 696.00 and a figures total of 800.40 |
| Pricing.FiftyStarterShipping | QuoteCaculator.py:52-86 | the same order without add-ons weighs 950, ships for 22.00 and pays no add-on fee |
| QuoteSummary.SummaryLines | QuoteCaculator.py:109-132 | the summary lines in the source's order; no contract of its own, its properties are stated by `SummaryShape`, `ProfitLineLastIffWithProfit`, `LineShownIffListed`, `TotalIsSumOfChargeLines` and `BuildSummary` |
| QuoteSummary.AppendWhen | QuoteCaculator.py:116-127 | one conditional append adds the line exactly when its condition holds and leaves the lines unchanged otherwise |
| QuoteSummary.AddOnsOneByOne | QuoteCaculator.py:116-127 | the twelve conditional appends, in the source's order, add exactly the add-on lines |
| QuoteSummary.BuildSummary | QuoteCaculator.py:109-132 | building the summary by successive appends yields exactly the specified summary lines |
| QuoteSummary.SummaryShape | QuoteCaculator.py:109-132 | every summary opens with the title (naming the profit exactly when asked) and the package, quantity, discount, figures-total and unit-price lines, and closes with the shipping, service-charge and total lines, followed by the profit line when asked |
| QuoteSummary.AddOnsAreCharges | QuoteCaculator.py:116-127 | every add-on line is a charge line |
| QuoteSummary.NoProfitLineInAddOns | QuoteCaculator.py:116-127 | no add-on line is a profit line |
| QuoteSummary.NoProfitLineBeforeLast | QuoteCaculator.py:110-132 | no profit line comes before the last line of a summary |
| QuoteSummary.ProfitLineLastIffWithProfit | QuoteCaculator.py:131-132 | the profit line appears only as the last line, and the last line is a profit line exactly when the profit is asked for |
| QuoteSummary.FirstAddOnsSum | QuoteCaculator.py:116-121 | the first six add-on lines add up to each of their fees exactly when that line's condition holds |
| QuoteSummary.LastAddOnsSum | QuoteCaculator.py:122-127 | the last six add-on lines add up to each of their fees exactly when that line's condition holds |
| QuoteSummary.OptionalChargesWalk | QuoteCaculator.py:116-127 | the add-on lines add up to each of the twelve fees exactly when that line's condition holds |
| QuoteSummary.FixedLines | QuoteCaculator.py:110-130 | the fixed lines carry only the figures total at the head and the shipping and service charge at the foot |
| QuoteSummary.SummaryParts | QuoteCaculator.py:110-132 | the charge lines of a summary add up to the figures total, the add-on lines, shipping and the service charge |
| QuoteSummary.InOptionalCharges | QuoteCaculator.py:116-127 | an add-on line for an item is present exactly when the source's test for that item passes, and its amount is then that item's fee |
| QuoteSummary.InFirstAddOns | QuoteCaculator.py:116-121 | the first six add-on lines hold a line for an item exactly when it is one of those six, its test passes and the amount is its fee |
| QuoteSummary.InLastAddOns | QuoteCaculator.py:122-127 | the last six add-on lines hold a line for an item exactly when it is one of those six, its test passes and the amount is its fee |
| QuoteSummary.AddOnTestIffListed | QuoteCaculator.py:52-63 | on the order's own fees, each test the summary makes on a fee (for example that the fee is not zero) holds exactly when the order's condition for that add-on does |
| QuoteSummary.LineShownIffListed | QuoteCaculator.py:110-130 | the summary has a line for a charge exactly when the order calls for it: figures, shipping and service charge always, each add-on under its own condition |
| QuoteSummary.AddOnShownIffListed | QuoteCaculator.py:116-127 | the summary has an add-on line for an item exactly when the order's condition for that add-on holds |
| QuoteSummary.OptionalChargesSum | QuoteCaculator.py:102-127 | for counts that are not negative, the add-on lines add up to the sum of the twelve fees |
| QuoteSummary.TotalIsSumOfChargeLines | QuoteCaculator.py:102-130 | for counts that are not negative, the total is exactly the sum of the charge lines the summary shows |
| QuoteSummary.NegativeCountHidesCharge | QuoteCaculator.py:58-122 | a custom-parts count of -1 lowers the total by 100 without any line for it in the summary |
| Quotes.QuoteOf | QuoteCaculator.py:16-18 | the result carries the minimum-quantity notice exactly when fewer than 25 figures are ordered, and then total and profit are 0 |
| Quotes.CalculateQuote | QuoteCaculator.py:10-133 | the statement-by-statement computation returns the specified quote, with the notice exactly below 25 figures |
| Quotes.AcceptedQuoteAddsUp | QuoteCaculator.py:101-133 | for an accepted order with counts that are not negative, the charge lines of the summary add up to the total; the last line is the profit line when the profit is asked for, the total line otherwise |
| Quotes.AcceptedQuoteListsCharges | QuoteCaculator.py:108-133 | the summary of an accepted order shows a charge exactly when the order calls for it |
| Quotes.AcceptedQuoteProfits | QuoteCaculator.py:101-106 | an accepted order with counts and base that are not negative has a positive profit |
| Quotes.UnknownPackageQuotedAsStarter | QuoteCaculator.py:33-56 | an unrecognised package name gets the Starter total and profit |
| Quotes.RejectsBelowMinimum | QuoteCaculator.py:16-18 | every order below 25 figures is rejected with total 0, profit 0 and the notice, whatever else it asks for |
| Quotes.HundredEnterpriseFigures | QuoteCaculator.py:20-106 | 100 Enterprise figures with part sourcing get a 15% discount; the 15% add-on discount leaves the 25 sourcing fee undiscounted; shipping is 30.00, the service charge 59.225 and the total 1531.60 at a base of 50 |

## Left out

- The Streamlit page is presentation and I/O: widgets, logo, buttons, links,
  the footer, and the call sites that feed the form into the function
  (QuoteCaculator.py:135-232).
- Session-state initialisation, the profit toggle and the password-gated
  editor for the service-charge base (QuoteCaculator.py:3-7 and the UI). The
  base is a parameter of the model instead.
- Rendering the summary as Markdown text is not modelled: the `:.2f`
  formatting, the `%` of the discount, the `(n ea)` custom-parts label, and
  the joining of lines with newlines. Each line keeps the value it shows,
  and the rejection notice is a constructor rather than its text.
- Binary floating point is not modelled. Every amount is an exact rational,
  so rounding in the totals and the `!= 0` tests on fees follow exact
  arithmetic.
- The loop that tries to apply the add-on discount (QuoteCaculator.py:66-71)
  has no effect in the source, so it has no counterpart in the model.
  `AddOnDiscountNotApplied` states that it has no effect.
- The source accepts any value for the tier name, the counts and the
  service-charge base. The model does too. Negative counts are allowed, and
  `NegativeCountHidesCharge` shows what they do. A few lemmas assume
  hypotheses that the source does not enforce:
  - The add-up lemmas (`OptionalChargesSum`, `TotalIsSumOfChargeLines`,
    `AcceptedQuoteAddsUp`) assume that the custom-parts and domain counts are
    not negative. The form's count widgets have `min_value=0`
    (QuoteCaculator.py:169, 175), but the call sites pass their arguments
    one slot off, so as written those widget values never reach
    `custom_parts_qty` or `domain_count`. The model follows the function's
    own signature and states the hypothesis instead.
  - The profit lemmas (`ProfitPositive`, `AcceptedQuoteProfits`) assume the
    same, and also that the service-charge base is not negative. The editor
    for the base has no lower bound (QuoteCaculator.py:223), so a negative
    base can be entered, and then a profit is not promised.
- The call sites (QuoteCaculator.py:189-192, 202-205, 215-218) are not
  modelled. Each passes 14 positional arguments and leaves out `packaging`,
  so every later argument lands one parameter off. The custom-parts count
  receives the custom-part-creation checkbox, and the domain count receives
  the package name, which makes the sum of the fees fail at run time. The
  model is of `calculate_quote` by its own parameter list.
