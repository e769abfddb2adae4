/**
 * The quote function of the figurine quote calculator: it rejects orders
 * below the minimum quantity and otherwise returns the total, the profit and
 * the line-by-line summary of the order.
 */
module Quotes {
  import Pricing
  import QuoteSummary

  /** What the quote function shows: the minimum-quantity notice or the summary of an accepted order. */
  datatype Message =
    | MinimumQuantityNotice
    | Summary(lines: seq<QuoteSummary.Line>)

  /** The three results of the quote function: total, profit and message. */
  datatype Quote = Quote(total: real, profit: real, message: Message)

  /** The quote of an order, for the configured service-charge base. */
  function QuoteOf(o: Pricing.Order, serviceBase: real): (q: Quote)
    ensures q.message.MinimumQuantityNotice? <==> o.qty < Pricing.MinimumQuantity
    ensures o.qty < Pricing.MinimumQuantity ==> q.total == 0.0 && q.profit == 0.0
  {
    if o.qty < Pricing.MinimumQuantity then Quote(0.0, 0.0, MinimumQuantityNotice)
    else
      var b := Pricing.Price(o, serviceBase);
      Quote(b.total, b.profit, Summary(QuoteSummary.SummaryLines(o, b)))
  }

  /**
   * Computes a quote step by step as the quote function does: the early
   * return below the minimum, then the figures, the add-on fees, shipping,
   * the compounded service charge, the totals and the summary.
   */
  method CalculateQuote(o: Pricing.Order, serviceBase: real) returns (q: Quote)
    ensures q == QuoteOf(o, serviceBase)
    ensures q.message.MinimumQuantityNotice? <==> o.qty < 25
  {
    if o.qty < 25 {
      return Quote(0.0, 0.0, MinimumQuantityNotice);
    }
    var tier := Pricing.TierOf(o.packageTier);
    var rate := Pricing.DiscountRate(o.qty, tier);
    var baseCost := Pricing.BaseCost(o.qty, rate);
    var figuresTotal := Pricing.FiguresTotal(o.qty, rate);
    var unitPrice := Pricing.UnitPrice(o.qty, figuresTotal);
    var addOnDiscount := Pricing.AddOnDiscount(tier);
    var f := Pricing.AddOnFees(o);
    var weight := Pricing.Weight(o.qty, o.keychain);
    var ship := Pricing.ShipCost(weight);
    var svc := Pricing.CompoundServiceCharge(serviceBase, o);
    var total := figuresTotal + Pricing.FeesTotal(f) + ship + svc;
    var costBasis := baseCost + f.packagingCost + ship + f.customParts * 0.5;
    var profit := total - costBasis;
    var b := Pricing.Breakdown(rate, baseCost, figuresTotal, unitPrice, addOnDiscount,
                               f, weight, ship, svc, total, costBasis, profit);
    var lines := QuoteSummary.BuildSummary(o, b);
    q := Quote(total, profit, Summary(lines));
  }

  // ------------------------------------------------------ accepted orders

  /**
   * For an accepted order with counts that are not negative, the total is the
   * sum of the charge lines of the summary, the summary closes with the total
   * line, and it ends with the profit line exactly when the profit is asked for.
   */
  lemma AcceptedQuoteAddsUp(o: Pricing.Order, serviceBase: real)
    requires o.qty >= Pricing.MinimumQuantity
    requires o.customPartsQty >= 0 && o.domainCount >= 0
    ensures var q := QuoteOf(o, serviceBase);
      q.message.Summary? &&
      QuoteSummary.ChargeSum(q.message.lines) == q.total &&
      (o.withProfit ==> q.message.lines[|q.message.lines| - 1] == QuoteSummary.ProfitLine(q.profit)) &&
      (!o.withProfit ==> q.message.lines[|q.message.lines| - 1] == QuoteSummary.TotalLine(q.total))
  {
    var b := Pricing.Price(o, serviceBase);
    QuoteSummary.TotalIsSumOfChargeLines(o, serviceBase);
    QuoteSummary.SummaryShape(o, b);
  }

  /** A charge appears in the summary of an accepted order exactly when the order calls for it. */
  lemma AcceptedQuoteListsCharges(o: Pricing.Order, serviceBase: real, item: QuoteSummary.Item)
    requires o.qty >= Pricing.MinimumQuantity
    ensures var q := QuoteOf(o, serviceBase);
      q.message.Summary? &&
      (QuoteSummary.Shows(q.message.lines, item) <==> QuoteSummary.Listed(o, item))
  {
    QuoteSummary.LineShownIffListed(o, Pricing.Price(o, serviceBase), item);
  }

  /** An accepted order with counts and base that are not negative always shows a profit. */
  lemma AcceptedQuoteProfits(o: Pricing.Order, serviceBase: real)
    requires o.qty >= Pricing.MinimumQuantity
    requires o.customPartsQty >= 0 && o.domainCount >= 0 && serviceBase >= 0.0
    ensures QuoteOf(o, serviceBase).profit > 0.0
  {
    Pricing.ProfitPositive(o, serviceBase);
  }

  /** A package name the rules do not recognise is quoted at the Starter price. */
  lemma UnknownPackageQuotedAsStarter(o: Pricing.Order, serviceBase: real)
    requires Pricing.TierOf(o.packageTier).Starter?
    ensures var q, s := QuoteOf(o, serviceBase), QuoteOf(o.(packageTier := "Starter Package"), serviceBase);
      q.total == s.total && q.profit == s.profit
  {
    Pricing.UnknownTierPricesAsStarter(o, serviceBase);
  }

  // ------------------------------------------------------------- examples

  /** Every order below the minimum quantity is rejected with nothing to pay, whatever else it asks for. */
  lemma RejectsBelowMinimum(o: Pricing.Order, serviceBase: real)
    requires o.qty < Pricing.MinimumQuantity
    ensures QuoteOf(o, serviceBase) == Quote(0.0, 0.0, MinimumQuantityNotice)
  {
  }

  /**
   * A hundred Enterprise figures with part sourcing, at the default base: a
   * 15% figure discount, and the part-sourcing fee charged in full although
   * the tier's add-on discount is 15%.
   */
  lemma HundredEnterpriseFigures()
    ensures var o := Pricing.Order(100, true, true, true, false, false, false, false, 0,
                                   false, true, false, 0, "Enterprise Package", true);
      var b := Pricing.Price(o, 50.0);
      b.discountRate == 0.15 && b.addOnDiscount == 0.15 && b.fees.sourcing == 25.0 &&
      b.shipCost == 30.0 && b.serviceCharge == 59.225 &&
      QuoteOf(o, 50.0).total == 1531.60
  {
    var o := Pricing.Order(100, true, true, true, false, false, false, false, 0,
                           false, true, false, 0, "Enterprise Package", true);
    var b := Pricing.Price(o, 50.0);
    Pricing.BreakdownParts(o, 50.0);
    assert b.discountRate == 0.15;
    assert b.figuresTotal == 1417.375;
    assert b.weight == 1850 && b.shipCost == 30.0;
    assert Pricing.ServiceMultiplier(100, false, false, true) == 1.15 * 1.03;
    assert b.serviceCharge == 59.225;
    assert Pricing.FeesTotal(b.fees) == 25.0;
  }
}
