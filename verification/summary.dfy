/**
 * The summary the quote function builds for an accepted order: a title,
 * the fixed lines for the package, quantity, discount, figures total and
 * unit price, one line per applicable add-on, then shipping, service
 * charge, total and (when asked for) profit. Each line keeps the value it
 * shows; the rendering as Markdown text is not modelled.
 */
module QuoteSummary {
  import Pricing

  /** The charges the summary can list, in the order they are listed. */
  datatype Item =
    | FiguresCharge
    | CharacterDesign
    | CommercialRights
    | PackagingDesign
    | BrandingRemoval
    | AdPackage
    | PartSourcing
    | CustomParts
    | CustomPartCreation
    | PackagingProduction
    | Keychains
    | LandingPage
    | Domains
    | Shipping
    | ServiceFee

  /** One line of the summary, with the value it shows. */
  datatype Line =
    | Title(withProfit: bool)
    | PackageLine(packageTier: string)
    | QuantityLine(qty: int)
    | DiscountLine(rate: real)
    | UnitPriceLine(price: real)
    | ChargeLine(item: Item, amount: real)
    | TotalLine(total: real)
    | ProfitLine(profit: real)

  /** The line `l` when `c` holds, nothing otherwise. */
  function Opt(c: bool, l: Line): seq<Line>
  {
    if c then [l] else []
  }

  /** The first six add-on lines, each under the condition the quote function tests before appending it. */
  function FirstAddOns(o: Pricing.Order, f: Pricing.Fees): seq<Line>
  {
    Opt(!o.designPaid, ChargeLine(CharacterDesign, f.charDesign))
    + Opt(f.commercialRights != 0.0, ChargeLine(CommercialRights, f.commercialRights))
    + Opt(f.packagingDesign != 0.0, ChargeLine(PackagingDesign, f.packagingDesign))
    + Opt(f.branding != 0.0, ChargeLine(BrandingRemoval, f.branding))
    + Opt(f.ad != 0.0, ChargeLine(AdPackage, f.ad))
    + Opt(o.partSourcing, ChargeLine(PartSourcing, f.sourcing))
  }

  /** The last six add-on lines, each under the condition the quote function tests before appending it. */
  function LastAddOns(o: Pricing.Order, f: Pricing.Fees): seq<Line>
  {
    Opt(o.customPartsQty > 0, ChargeLine(CustomParts, f.customParts))
    + Opt(o.customPartCreation, ChargeLine(CustomPartCreation, f.creation))
    + Opt(o.packaging, ChargeLine(PackagingProduction, f.packagingCost))
    + Opt(o.keychain, ChargeLine(Keychains, f.keychainCost))
    + Opt(o.landingPage, ChargeLine(LandingPage, f.landingPage))
    + Opt(o.domainCount > 0, ChargeLine(Domains, f.domains))
  }

  /** The add-on lines, in the order the quote function appends them. */
  function OptionalCharges(o: Pricing.Order, f: Pricing.Fees): seq<Line>
  {
    FirstAddOns(o, f) + LastAddOns(o, f)
  }

  /** The first six lines of every summary. */
  function Header(o: Pricing.Order, b: Pricing.Breakdown): seq<Line>
  {
    [Title(o.withProfit), PackageLine(o.packageTier), QuantityLine(o.qty),
     DiscountLine(b.discountRate), ChargeLine(FiguresCharge, b.figuresTotal),
     UnitPriceLine(b.unitPrice)]
  }

  /** The shipping, service-charge and total lines that close every summary. */
  function Footer(b: Pricing.Breakdown): seq<Line>
  {
    [ChargeLine(Shipping, b.shipCost), ChargeLine(ServiceFee, b.serviceCharge), TotalLine(b.total)]
  }

  /** The summary of an order with breakdown `b`, line by line. */
  function SummaryLines(o: Pricing.Order, b: Pricing.Breakdown): seq<Line>
  {
    Header(o, b) + OptionalCharges(o, b.fees) + Footer(b) + Opt(o.withProfit, ProfitLine(b.profit))
  }

  /** Appending to a concatenation appends to its second part. */
  lemma AppendAssoc(a: seq<Line>, b: seq<Line>, c: seq<Line>)
    ensures a + b + c == a + (b + c)
  {
  }

  /** Appends line `l` when `c` holds, as each add-on step of the quote function does. */
  method AppendWhen(lines: seq<Line>, c: bool, l: Line) returns (r: seq<Line>)
    ensures r == lines + Opt(c, l)
    ensures c ==> r == lines + [l]
    ensures !c ==> r == lines
  {
    r := lines;
    if c {
      r := r + [l];
    }
  }

  /** Appending the add-on lines one at a time is appending them all at once. */
  lemma AddOnsOneByOne(s: seq<Line>, o: Pricing.Order, f: Pricing.Fees)
    ensures s + Opt(!o.designPaid, ChargeLine(CharacterDesign, f.charDesign))
      + Opt(f.commercialRights != 0.0, ChargeLine(CommercialRights, f.commercialRights))
      + Opt(f.packagingDesign != 0.0, ChargeLine(PackagingDesign, f.packagingDesign))
      + Opt(f.branding != 0.0, ChargeLine(BrandingRemoval, f.branding))
      + Opt(f.ad != 0.0, ChargeLine(AdPackage, f.ad))
      + Opt(o.partSourcing, ChargeLine(PartSourcing, f.sourcing))
      + Opt(o.customPartsQty > 0, ChargeLine(CustomParts, f.customParts))
      + Opt(o.customPartCreation, ChargeLine(CustomPartCreation, f.creation))
      + Opt(o.packaging, ChargeLine(PackagingProduction, f.packagingCost))
      + Opt(o.keychain, ChargeLine(Keychains, f.keychainCost))
      + Opt(o.landingPage, ChargeLine(LandingPage, f.landingPage))
      + Opt(o.domainCount > 0, ChargeLine(Domains, f.domains))
      == s + OptionalCharges(o, f)
  {
    var q0 := Opt(!o.designPaid, ChargeLine(CharacterDesign, f.charDesign));
    var q1 := Opt(f.commercialRights != 0.0, ChargeLine(CommercialRights, f.commercialRights));
    var q2 := Opt(f.packagingDesign != 0.0, ChargeLine(PackagingDesign, f.packagingDesign));
    var q3 := Opt(f.branding != 0.0, ChargeLine(BrandingRemoval, f.branding));
    var q4 := Opt(f.ad != 0.0, ChargeLine(AdPackage, f.ad));
    var q5 := Opt(o.partSourcing, ChargeLine(PartSourcing, f.sourcing));
    var q6 := Opt(o.customPartsQty > 0, ChargeLine(CustomParts, f.customParts));
    var q7 := Opt(o.customPartCreation, ChargeLine(CustomPartCreation, f.creation));
    var q8 := Opt(o.packaging, ChargeLine(PackagingProduction, f.packagingCost));
    var q9 := Opt(o.keychain, ChargeLine(Keychains, f.keychainCost));
    var q10 := Opt(o.landingPage, ChargeLine(LandingPage, f.landingPage));
    var q11 := Opt(o.domainCount > 0, ChargeLine(Domains, f.domains));
    AppendAssoc(s, q0, q1);
    AppendAssoc(s, q0 + q1, q2);
    AppendAssoc(s, q0 + q1 + q2, q3);
    AppendAssoc(s, q0 + q1 + q2 + q3, q4);
    AppendAssoc(s, q0 + q1 + q2 + q3 + q4, q5);
    var t := s + FirstAddOns(o, f);
    AppendAssoc(t, q6, q7);
    AppendAssoc(t, q6 + q7, q8);
    AppendAssoc(t, q6 + q7 + q8, q9);
    AppendAssoc(t, q6 + q7 + q8 + q9, q10);
    AppendAssoc(t, q6 + q7 + q8 + q9 + q10, q11);
    AppendAssoc(s, FirstAddOns(o, f), LastAddOns(o, f));
  }

  /** Builds the summary by appending one line after another, as the quote function does. */
  method BuildSummary(o: Pricing.Order, b: Pricing.Breakdown) returns (lines: seq<Line>)
    ensures lines == SummaryLines(o, b)
  {
    var f := b.fees;
    lines := [Title(o.withProfit), PackageLine(o.packageTier), QuantityLine(o.qty),
              DiscountLine(b.discountRate), ChargeLine(FiguresCharge, b.figuresTotal),
              UnitPriceLine(b.unitPrice)];
    ghost var header := lines;
    lines := AppendWhen(lines, !o.designPaid, ChargeLine(CharacterDesign, f.charDesign));
    lines := AppendWhen(lines, f.commercialRights != 0.0, ChargeLine(CommercialRights, f.commercialRights));
    lines := AppendWhen(lines, f.packagingDesign != 0.0, ChargeLine(PackagingDesign, f.packagingDesign));
    lines := AppendWhen(lines, f.branding != 0.0, ChargeLine(BrandingRemoval, f.branding));
    lines := AppendWhen(lines, f.ad != 0.0, ChargeLine(AdPackage, f.ad));
    lines := AppendWhen(lines, o.partSourcing, ChargeLine(PartSourcing, f.sourcing));
    lines := AppendWhen(lines, o.customPartsQty > 0, ChargeLine(CustomParts, f.customParts));
    lines := AppendWhen(lines, o.customPartCreation, ChargeLine(CustomPartCreation, f.creation));
    lines := AppendWhen(lines, o.packaging, ChargeLine(PackagingProduction, f.packagingCost));
    lines := AppendWhen(lines, o.keychain, ChargeLine(Keychains, f.keychainCost));
    lines := AppendWhen(lines, o.landingPage, ChargeLine(LandingPage, f.landingPage));
    lines := AppendWhen(lines, o.domainCount > 0, ChargeLine(Domains, f.domains));
    AddOnsOneByOne(header, o, f);
    ghost var body := lines;
    ghost var shipping, service := [ChargeLine(Shipping, b.shipCost)], [ChargeLine(ServiceFee, b.serviceCharge)];
    lines := lines + [ChargeLine(Shipping, b.shipCost)];
    lines := lines + [ChargeLine(ServiceFee, b.serviceCharge)];
    AppendAssoc(body, shipping, service);
    lines := lines + [TotalLine(b.total)];
    AppendAssoc(body, shipping + service, [TotalLine(b.total)]);
    assert shipping + service + [TotalLine(b.total)] == Footer(b);
    lines := AppendWhen(lines, o.withProfit, ProfitLine(b.profit));
  }

  // ------------------------------------------------------------ line order

  /**
   * Every summary opens with the title (naming the profit exactly when the
   * profit is asked for) and the five fixed lines, and closes with the
   * shipping, service-charge and total lines, followed by the profit line
   * exactly when the profit is asked for.
   */
  lemma SummaryShape(o: Pricing.Order, b: Pricing.Breakdown)
    ensures var s := SummaryLines(o, b);
      var n := if o.withProfit then |s| - 1 else |s|;
      9 <= n <= |s| &&
      s[..6] == [Title(o.withProfit), PackageLine(o.packageTier), QuantityLine(o.qty),
                 DiscountLine(b.discountRate), ChargeLine(FiguresCharge, b.figuresTotal),
                 UnitPriceLine(b.unitPrice)] &&
      s[n - 3..n] == [ChargeLine(Shipping, b.shipCost), ChargeLine(ServiceFee, b.serviceCharge),
                      TotalLine(b.total)] &&
      (o.withProfit ==> s[|s| - 1] == ProfitLine(b.profit))
  {
    var h, m, t := Header(o, b), OptionalCharges(o, b.fees), Footer(b);
    var s := SummaryLines(o, b);
    assert s == h + m + t + Opt(o.withProfit, ProfitLine(b.profit));
    assert s[..6] == h;
    var n := if o.withProfit then |s| - 1 else |s|;
    assert s[n - 3..n] == t;
  }

  /** Every add-on line is a charge line. */
  lemma AddOnsAreCharges(o: Pricing.Order, f: Pricing.Fees)
    ensures forall l :: l in OptionalCharges(o, f) ==> l.ChargeLine?
  {
    OptMembership();
    assert forall l :: l in FirstAddOns(o, f) ==> l.ChargeLine?;
    assert forall l :: l in LastAddOns(o, f) ==> l.ChargeLine?;
  }

  /** No line before the last is a profit line. */
  lemma NoProfitLineBeforeLast(o: Pricing.Order, b: Pricing.Breakdown, p: real)
    ensures var s := SummaryLines(o, b);
      |s| > 0 && ProfitLine(p) !in s[..|s| - 1]
  {
    var h, m, t := Header(o, b), OptionalCharges(o, b.fees), Footer(b);
    var x := ProfitLine(p);
    NoProfitLineInAddOns(o, b.fees, p);
    NotBeforeLast(h, m, t, Opt(o.withProfit, x), x);
  }

  /**
   * A line in none of a header, a middle part and three closing lines is not
   * before the last line once at most one more line is appended.
   */
  lemma NotBeforeLast(h: seq<Line>, m: seq<Line>, t: seq<Line>, last: seq<Line>, x: Line)
    requires x !in h && x !in m && x !in t && |t| == 3 && |last| <= 1
    ensures var s := h + m + t + last;
      |s| > 0 && x !in s[..|s| - 1]
  {
    var s := h + m + t + last;
    if last == [] {
      assert s[..|s| - 1] == h + m + t[..2];
    } else {
      assert s[..|s| - 1] == h + m + t;
    }
  }

  /** No add-on line is a profit line. */
  lemma NoProfitLineInAddOns(o: Pricing.Order, f: Pricing.Fees, p: real)
    ensures ProfitLine(p) !in OptionalCharges(o, f)
  {
    AddOnsAreCharges(o, f);
  }

  /** No line before the last is a profit line, and the last is one exactly when the profit is asked for. */
  lemma ProfitLineLastIffWithProfit(o: Pricing.Order, b: Pricing.Breakdown)
    ensures var s := SummaryLines(o, b);
      |s| > 0 &&
      (forall p :: ProfitLine(p) !in s[..|s| - 1]) &&
      (s[|s| - 1].ProfitLine? <==> o.withProfit)
  {
    var s := SummaryLines(o, b);
    forall p
      ensures ProfitLine(p) !in s[..|s| - 1]
    {
      NoProfitLineBeforeLast(o, b, p);
    }
    SummaryShape(o, b);
  }

  // -------------------------------------------------------- optional lines

  /** The amount a line adds to the bill: its amount for a charge line, nothing otherwise. */
  function Amount(l: Line): real
  {
    if l.ChargeLine? then l.amount else 0.0
  }

  /** The sum of the amounts of the charge lines. */
  function ChargeSum(s: seq<Line>): real
  {
    if s == [] then 0.0 else Amount(s[0]) + ChargeSum(s[1..])
  }

  /** Whether the summary has a charge line for `item`, of any amount. */
  ghost predicate Shows(s: seq<Line>, item: Item)
  {
    exists amount :: ChargeLine(item, amount) in s
  }

  /** Summing the charge lines distributes over concatenation. */
  lemma {:induction false} ConcatLines(a: seq<Line>, b: seq<Line>)
    ensures ChargeSum(a + b) == ChargeSum(a) + ChargeSum(b)
  {
    if a == [] {
      assert a + b == b;
    } else {
      assert (a + b)[0] == a[0];
      assert (a + b)[1..] == a[1..] + b;
      ConcatLines(a[1..], b);
    }
  }

  /** An optional charge line adds its amount exactly when it is present. */
  lemma AppendOpt(s: seq<Line>, c: bool, item: Item, amount: real)
    ensures ChargeSum(s + Opt(c, ChargeLine(item, amount))) == ChargeSum(s) + (if c then amount else 0.0)
  {
    ConcatLines(s, Opt(c, ChargeLine(item, amount)));
  }

  /** The charge sum of the first six add-on lines, one condition at a time. */
  lemma FirstAddOnsSum(o: Pricing.Order, f: Pricing.Fees)
    ensures ChargeSum(FirstAddOns(o, f))
      == (if !o.designPaid then f.charDesign else 0.0)
       + (if f.commercialRights != 0.0 then f.commercialRights else 0.0)
       + (if f.packagingDesign != 0.0 then f.packagingDesign else 0.0)
       + (if f.branding != 0.0 then f.branding else 0.0)
       + (if f.ad != 0.0 then f.ad else 0.0)
       + (if o.partSourcing then f.sourcing else 0.0)
  {
    var p1 := Opt(!o.designPaid, ChargeLine(CharacterDesign, f.charDesign));
    AppendOpt([], !o.designPaid, CharacterDesign, f.charDesign);
    assert [] + p1 == p1;
    var a1 := if !o.designPaid then f.charDesign else 0.0;
    var a2 := if f.commercialRights != 0.0 then f.commercialRights else 0.0;
    var a3 := if f.packagingDesign != 0.0 then f.packagingDesign else 0.0;
    var a4 := if f.branding != 0.0 then f.branding else 0.0;
    var a5 := if f.ad != 0.0 then f.ad else 0.0;
    var p2 := p1 + Opt(f.commercialRights != 0.0, ChargeLine(CommercialRights, f.commercialRights));
    AppendOpt(p1, f.commercialRights != 0.0, CommercialRights, f.commercialRights);
    assert ChargeSum(p2) == a1 + a2;
    var p3 := p2 + Opt(f.packagingDesign != 0.0, ChargeLine(PackagingDesign, f.packagingDesign));
    AppendOpt(p2, f.packagingDesign != 0.0, PackagingDesign, f.packagingDesign);
    assert ChargeSum(p3) == a1 + a2 + a3;
    var p4 := p3 + Opt(f.branding != 0.0, ChargeLine(BrandingRemoval, f.branding));
    AppendOpt(p3, f.branding != 0.0, BrandingRemoval, f.branding);
    assert ChargeSum(p4) == a1 + a2 + a3 + a4;
    var p5 := p4 + Opt(f.ad != 0.0, ChargeLine(AdPackage, f.ad));
    AppendOpt(p4, f.ad != 0.0, AdPackage, f.ad);
    assert ChargeSum(p5) == a1 + a2 + a3 + a4 + a5;
    AppendOpt(p5, o.partSourcing, PartSourcing, f.sourcing);
  }

  /** The charge sum of the last six add-on lines, one condition at a time. */
  lemma LastAddOnsSum(o: Pricing.Order, f: Pricing.Fees)
    ensures ChargeSum(LastAddOns(o, f))
      == (if o.customPartsQty > 0 then f.customParts else 0.0)
       + (if o.customPartCreation then f.creation else 0.0)
       + (if o.packaging then f.packagingCost else 0.0)
       + (if o.keychain then f.keychainCost else 0.0)
       + (if o.landingPage then f.landingPage else 0.0)
       + (if o.domainCount > 0 then f.domains else 0.0)
  {
    var p1 := Opt(o.customPartsQty > 0, ChargeLine(CustomParts, f.customParts));
    AppendOpt([], o.customPartsQty > 0, CustomParts, f.customParts);
    assert [] + p1 == p1;
    var p2 := p1 + Opt(o.customPartCreation, ChargeLine(CustomPartCreation, f.creation));
    AppendOpt(p1, o.customPartCreation, CustomPartCreation, f.creation);
    var p3 := p2 + Opt(o.packaging, ChargeLine(PackagingProduction, f.packagingCost));
    AppendOpt(p2, o.packaging, PackagingProduction, f.packagingCost);
    var p4 := p3 + Opt(o.keychain, ChargeLine(Keychains, f.keychainCost));
    AppendOpt(p3, o.keychain, Keychains, f.keychainCost);
    var p5 := p4 + Opt(o.landingPage, ChargeLine(LandingPage, f.landingPage));
    AppendOpt(p4, o.landingPage, LandingPage, f.landingPage);
    AppendOpt(p5, o.domainCount > 0, Domains, f.domains);
  }

  /** The charge sum of the add-on lines: each fee counts exactly when its line is shown. */
  lemma OptionalChargesWalk(o: Pricing.Order, f: Pricing.Fees)
    ensures ChargeSum(OptionalCharges(o, f))
      == (if !o.designPaid then f.charDesign else 0.0)
       + (if f.commercialRights != 0.0 then f.commercialRights else 0.0)
       + (if f.packagingDesign != 0.0 then f.packagingDesign else 0.0)
       + (if f.branding != 0.0 then f.branding else 0.0)
       + (if f.ad != 0.0 then f.ad else 0.0)
       + (if o.partSourcing then f.sourcing else 0.0)
       + (if o.customPartsQty > 0 then f.customParts else 0.0)
       + (if o.customPartCreation then f.creation else 0.0)
       + (if o.packaging then f.packagingCost else 0.0)
       + (if o.keychain then f.keychainCost else 0.0)
       + (if o.landingPage then f.landingPage else 0.0)
       + (if o.domainCount > 0 then f.domains else 0.0)
  {
    FirstAddOnsSum(o, f);
    LastAddOnsSum(o, f);
    ConcatLines(FirstAddOns(o, f), LastAddOns(o, f));
  }

  /** The charge sum of the fixed lines at the head and the foot of a summary. */
  lemma FixedLines(o: Pricing.Order, b: Pricing.Breakdown)
    ensures ChargeSum(Header(o, b)) == b.figuresTotal
    ensures ChargeSum(Footer(b)) == b.shipCost + b.serviceCharge
  {
    var h := Header(o, b);
    assert h == h[..4] + [h[4]] + [h[5]];
    ConcatLines(h[..4] + [h[4]], [h[5]]);
    ConcatLines(h[..4], [h[4]]);
    assert h[..4] == [h[0]] + [h[1]] + [h[2]] + [h[3]];
    ConcatLines([h[0]] + [h[1]] + [h[2]], [h[3]]);
    ConcatLines([h[0]] + [h[1]], [h[2]]);
    ConcatLines([h[0]], [h[1]]);
    var t := Footer(b);
    assert t == [t[0]] + [t[1]] + [t[2]];
    ConcatLines([t[0]] + [t[1]], [t[2]]);
    ConcatLines([t[0]], [t[1]]);
  }

  /** The charge sum of a whole summary, from those of its parts. */
  lemma SummaryParts(o: Pricing.Order, b: Pricing.Breakdown)
    ensures ChargeSum(SummaryLines(o, b))
      == b.figuresTotal + ChargeSum(OptionalCharges(o, b.fees)) + b.shipCost + b.serviceCharge
  {
    var h, m, t := Header(o, b), OptionalCharges(o, b.fees), Footer(b);
    var p := Opt(o.withProfit, ProfitLine(b.profit));
    FixedLines(o, b);
    ConcatLines(h, m);
    ConcatLines(h + m, t);
    ConcatLines(h + m + t, p);
    assert ChargeSum(p) == 0.0;
  }

  /**
   * The condition on the order under which the summary lists a charge: the
   * figures, shipping and service charge always, each add-on under its own
   * condition on the order's flags, counts and tier.
   */
  function Listed(o: Pricing.Order, item: Item): bool
  {
    var tier := Pricing.TierOf(o.packageTier);
    match item
    case FiguresCharge => true
    case CharacterDesign => !o.designPaid
    case CommercialRights => tier.Starter? && o.commercial
    case PackagingDesign => o.packagingDesign && !o.packagingDesignPaid
    case BrandingRemoval => o.packagingDesign && !o.brandingPaid
    case AdPackage => tier.Premium?
    case PartSourcing => o.partSourcing
    case CustomParts => o.customPartsQty > 0
    case CustomPartCreation => o.customPartCreation
    case PackagingProduction => o.packaging
    case Keychains => o.keychain
    case LandingPage => o.landingPage
    case Domains => o.domainCount > 0
    case Shipping => true
    case ServiceFee => true
  }

  /** The test the quote function makes before appending the line of an add-on, on the computed fees. */
  function AddOnTest(o: Pricing.Order, f: Pricing.Fees, item: Item): bool
  {
    match item
    case CharacterDesign => !o.designPaid
    case CommercialRights => f.commercialRights != 0.0
    case PackagingDesign => f.packagingDesign != 0.0
    case BrandingRemoval => f.branding != 0.0
    case AdPackage => f.ad != 0.0
    case PartSourcing => o.partSourcing
    case CustomParts => o.customPartsQty > 0
    case CustomPartCreation => o.customPartCreation
    case PackagingProduction => o.packaging
    case Keychains => o.keychain
    case LandingPage => o.landingPage
    case Domains => o.domainCount > 0
    case _ => false
  }

  /** The fee an add-on line shows. */
  function AddOnAmount(f: Pricing.Fees, item: Item): real
  {
    match item
    case CharacterDesign => f.charDesign
    case CommercialRights => f.commercialRights
    case PackagingDesign => f.packagingDesign
    case BrandingRemoval => f.branding
    case AdPackage => f.ad
    case PartSourcing => f.sourcing
    case CustomParts => f.customParts
    case CustomPartCreation => f.creation
    case PackagingProduction => f.packagingCost
    case Keychains => f.keychainCost
    case LandingPage => f.landingPage
    case Domains => f.domains
    case _ => 0.0
  }

  /** A line is in an optional line exactly when the condition holds and it is that line. */
  lemma OptMembership()
    ensures forall c: bool, l: Line, x: Line :: x in Opt(c, l) <==> c && x == l
  {
  }

  /** A line is among six optional lines exactly when one of them is present and is that line. */
  lemma InSixOptional(c1: bool, l1: Line, c2: bool, l2: Line, c3: bool, l3: Line,
                      c4: bool, l4: Line, c5: bool, l5: Line, c6: bool, l6: Line, x: Line)
    ensures x in Opt(c1, l1) + Opt(c2, l2) + Opt(c3, l3) + Opt(c4, l4) + Opt(c5, l5) + Opt(c6, l6)
      <==> ((c1 && x == l1) || (c2 && x == l2) || (c3 && x == l3)
            || (c4 && x == l4) || (c5 && x == l5) || (c6 && x == l6))
  {
    var p1 := Opt(c1, l1);
    InAppendOpt([], c1, l1, x);
    assert [] + p1 == p1;
    InAppendOpt(p1, c2, l2, x);
    var p2 := p1 + Opt(c2, l2);
    InAppendOpt(p2, c3, l3, x);
    var p3 := p2 + Opt(c3, l3);
    InAppendOpt(p3, c4, l4, x);
    var p4 := p3 + Opt(c4, l4);
    InAppendOpt(p4, c5, l5, x);
    var p5 := p4 + Opt(c5, l5);
    InAppendOpt(p5, c6, l6, x);
  }

  /** A line in none of the outer parts of a four-part concatenation is in it exactly when it is in the second part. */
  lemma InMiddleOnly(h: seq<Line>, m: seq<Line>, t: seq<Line>, p: seq<Line>, x: Line)
    requires x !in h && x !in t && x !in p
    ensures x in h + m + t + p <==> x in m
  {
  }

  /** A line is in lines with an optional line appended exactly when it was there already or it is the appended line. */
  lemma InAppendOpt(s: seq<Line>, c: bool, l: Line, x: Line)
    ensures x in s + Opt(c, l) <==> x in s || (c && x == l)
  {
  }

  /** The add-on lines hold a line for an item exactly when its test passes, and then with its fee. */
  lemma InOptionalCharges(o: Pricing.Order, f: Pricing.Fees, item: Item, amount: real)
    ensures ChargeLine(item, amount) in OptionalCharges(o, f)
      <==> AddOnTest(o, f, item) && amount == AddOnAmount(f, item)
  {
    InFirstAddOns(o, f, item, amount);
    InLastAddOns(o, f, item, amount);
  }

  /** The first six add-on lines hold a line for an item exactly when it is one of them, its test passes and the amount is its fee. */
  lemma InFirstAddOns(o: Pricing.Order, f: Pricing.Fees, item: Item, amount: real)
    ensures ChargeLine(item, amount) in FirstAddOns(o, f)
      <==> item in {CharacterDesign, CommercialRights, PackagingDesign, BrandingRemoval, AdPackage, PartSourcing}
           && AddOnTest(o, f, item) && amount == AddOnAmount(f, item)
  {
    InSixOptional(!o.designPaid, ChargeLine(CharacterDesign, f.charDesign),
                  f.commercialRights != 0.0, ChargeLine(CommercialRights, f.commercialRights),
                  f.packagingDesign != 0.0, ChargeLine(PackagingDesign, f.packagingDesign),
                  f.branding != 0.0, ChargeLine(BrandingRemoval, f.branding),
                  f.ad != 0.0, ChargeLine(AdPackage, f.ad),
                  o.partSourcing, ChargeLine(PartSourcing, f.sourcing), ChargeLine(item, amount));
    match item
    case CharacterDesign =>
    case CommercialRights =>
    case PackagingDesign =>
    case BrandingRemoval =>
    case AdPackage =>
    case PartSourcing =>
    case _ =>
  }

  /** The last six add-on lines hold a line for an item exactly when it is one of them, its test passes and the amount is its fee. */
  lemma InLastAddOns(o: Pricing.Order, f: Pricing.Fees, item: Item, amount: real)
    ensures ChargeLine(item, amount) in LastAddOns(o, f)
      <==> item in {CustomParts, CustomPartCreation, PackagingProduction, Keychains, LandingPage, Domains}
           && AddOnTest(o, f, item) && amount == AddOnAmount(f, item)
  {
    InSixOptional(o.customPartsQty > 0, ChargeLine(CustomParts, f.customParts),
                  o.customPartCreation, ChargeLine(CustomPartCreation, f.creation),
                  o.packaging, ChargeLine(PackagingProduction, f.packagingCost),
                  o.keychain, ChargeLine(Keychains, f.keychainCost),
                  o.landingPage, ChargeLine(LandingPage, f.landingPage),
                  o.domainCount > 0, ChargeLine(Domains, f.domains), ChargeLine(item, amount));
    match item
    case CustomParts =>
    case CustomPartCreation =>
    case PackagingProduction =>
    case Keychains =>
    case LandingPage =>
    case Domains =>
    case _ =>
  }

  /** On the fees the order incurs, each add-on test holds exactly when the order's condition does. */
  lemma AddOnTestIffListed(o: Pricing.Order, item: Item)
    requires item !in {FiguresCharge, Shipping, ServiceFee}
    ensures AddOnTest(o, Pricing.AddOnFees(o), item) <==> Listed(o, item)
  {
  }

  /** A charge has a line in the summary exactly when its condition on the order holds. */
  lemma LineShownIffListed(o: Pricing.Order, b: Pricing.Breakdown, item: Item)
    requires b.fees == Pricing.AddOnFees(o)
    ensures Shows(SummaryLines(o, b), item) <==> Listed(o, item)
  {
    var h, m, t := Header(o, b), OptionalCharges(o, b.fees), Footer(b);
    var p := Opt(o.withProfit, ProfitLine(b.profit));
    var s := SummaryLines(o, b);
    assert s == h + m + t + p;
    if item in {FiguresCharge, Shipping, ServiceFee} {
      var amount := if item.FiguresCharge? then b.figuresTotal
        else if item.Shipping? then b.shipCost else b.serviceCharge;
      assert ChargeLine(item, amount) in h + t;
    } else {
      AddOnShownIffListed(o, b, item);
    }
  }

  /** The line of an add-on is in the summary exactly when its test passes on the order's fees. */
  lemma AddOnShownIffListed(o: Pricing.Order, b: Pricing.Breakdown, item: Item)
    requires b.fees == Pricing.AddOnFees(o)
    requires item !in {FiguresCharge, Shipping, ServiceFee}
    ensures Shows(SummaryLines(o, b), item) <==> Listed(o, item)
  {
    var h, m, t := Header(o, b), OptionalCharges(o, b.fees), Footer(b);
    var p := Opt(o.withProfit, ProfitLine(b.profit));
    var s := SummaryLines(o, b);
    assert s == h + m + t + p;
    AddOnTestIffListed(o, item);
    forall amount
      ensures ChargeLine(item, amount) in s <==> ChargeLine(item, amount) in m
    {
      InMiddleOnly(h, m, t, p, ChargeLine(item, amount));
    }
    if Listed(o, item) {
      InOptionalCharges(o, b.fees, item, AddOnAmount(b.fees, item));
    } else {
      forall amount | ChargeLine(item, amount) in m
        ensures false
      {
        InOptionalCharges(o, b.fees, item, amount);
      }
    }
  }

  /** The add-on lines sum to the twelve fees, given counts that are not negative. */
  lemma OptionalChargesSum(o: Pricing.Order, f: Pricing.Fees)
    requires f == Pricing.AddOnFees(o)
    requires o.customPartsQty >= 0 && o.domainCount >= 0
    ensures ChargeSum(OptionalCharges(o, f)) == Pricing.FeesTotal(f)
  {
    OptionalChargesWalk(o, f);
    assert o.designPaid ==> f.charDesign == 0.0;
    assert !o.partSourcing ==> f.sourcing == 0.0;
    assert o.customPartsQty <= 0 ==> f.customParts == 0.0;
    assert !o.customPartCreation ==> f.creation == 0.0;
    assert !o.packaging ==> f.packagingCost == 0.0;
    assert !o.keychain ==> f.keychainCost == 0.0;
    assert !o.landingPage ==> f.landingPage == 0.0;
    assert o.domainCount <= 0 ==> f.domains == 0.0;
  }

  /**
   * The total is exactly the sum of the charge lines the summary shows: no
   * charge enters the total without a line. This needs counts that are not
   * negative. The quote function does not check this, and a negative count
   * would add a charge that has no line (see `NegativeCountHidesCharge`).
   */
  lemma TotalIsSumOfChargeLines(o: Pricing.Order, serviceBase: real)
    requires o.customPartsQty >= 0 && o.domainCount >= 0
    ensures var b := Pricing.Price(o, serviceBase);
      ChargeSum(SummaryLines(o, b)) == b.total
  {
    var b := Pricing.Price(o, serviceBase);
    SummaryParts(o, b);
    assert ChargeSum(SummaryLines(o, b))
      == b.figuresTotal + ChargeSum(OptionalCharges(o, b.fees)) + b.shipCost + b.serviceCharge;
    OptionalChargesSum(o, b.fees);
    assert ChargeSum(OptionalCharges(o, b.fees)) == Pricing.FeesTotal(b.fees);
    Pricing.BreakdownParts(o, serviceBase);
  }

  /** A negative custom-parts count lowers the total by a charge the summary never shows. */
  lemma NegativeCountHidesCharge()
    ensures var o := Pricing.Order(25, true, true, true, false, false, false, false, -1,
                                   false, false, false, 0, "Starter Package", true);
      var b := Pricing.Price(o, 50.0);
      !Shows(SummaryLines(o, b), CustomParts) && b.fees.customParts == -100.0 &&
      b.total == Pricing.Price(o.(customPartsQty := 0), 50.0).total - 100.0
  {
  }
}
