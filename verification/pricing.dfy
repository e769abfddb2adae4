/**
 * Pricing rules of the figurine quote calculator: the figure discount, the
 * add-on fees, the shipping table and the service charge that the quote
 * function combines into a total and a profit.
 *
 * Money is `real`, so every constant (12.50, 1.15, 1.05, ...) is an exact
 * rational: the model states the intended arithmetic, not the rounding of
 * binary floating point.
 */
module Pricing {

  /** Orders below this many figures are rejected. */
  const MinimumQuantity: int := 25

  /** The four package tiers of the order form. */
  datatype Tier = Starter | Pro | Premium | Enterprise

  /**
   * The parameters of one quote, in the order the quote function takes them.
   * The package tier is the name the form shows; `withProfit` defaults to
   * true, as in the source.
   */
  datatype Order = Order(
    qty: int,
    designPaid: bool,
    packagingDesignPaid: bool,
    brandingPaid: bool,
    commercial: bool,
    packaging: bool,
    packagingDesign: bool,
    keychain: bool,
    customPartsQty: int,
    customPartCreation: bool,
    partSourcing: bool,
    landingPage: bool,
    domainCount: int,
    packageTier: string,
    withProfit: bool := true)

  /**
   * The tier a package name selects. The rules compare the name with three
   * literal names, so every other string prices like the Starter package.
   */
  function TierOf(name: string): (t: Tier)
    ensures t.Pro? <==> name == "Pro Package"
    ensures t.Premium? <==> name == "Premium Package"
    ensures t.Enterprise? <==> name == "Enterprise Package"
    ensures t.Starter? <==> name !in {"Pro Package", "Premium Package", "Enterprise Package"}
  {
    if name == "Pro Package" then Pro
    else if name == "Premium Package" then Premium
    else if name == "Enterprise Package" then Enterprise
    else Starter
  }

  // ---------------------------------------------------------------- figures

  /** The quantity step of the figure discount, before any tier override. */
  function QuantityDiscount(qty: int): (r: real)
    ensures 0.0 <= r <= 0.06
    ensures r == 0.0 <==> qty < 30
    ensures r == 0.06 <==> qty >= 100
  {
    if qty >= 100 then 0.06
    else if qty >= 75 then 0.05
    else if qty >= 50 then 0.04
    else if qty >= 35 then 0.03
    else if qty >= 30 then 0.02
    else 0.0
  }

  /**
   * The figure discount: the quantity step, replaced by a flat rate for the
   * Premium and Enterprise tiers whatever the quantity.
   */
  function DiscountRate(qty: int, tier: Tier): (r: real)
    ensures tier.Premium? ==> r == 0.10
    ensures tier.Enterprise? ==> r == 0.15
    ensures tier.Starter? || tier.Pro? ==> r == QuantityDiscount(qty)
    ensures 0.0 <= r <= 0.15
  {
    var rate := QuantityDiscount(qty);
    var rate' := if tier.Premium? then 0.10 else rate;
    if tier.Enterprise? then 0.15 else rate'
  }

  /** The step of the quantity discount only ever goes up. */
  lemma QuantityDiscountMonotone(q1: int, q2: int)
    requires q1 <= q2
    ensures QuantityDiscount(q1) <= QuantityDiscount(q2)
  {
  }

  /** For every tier, ordering more figures never lowers the discount rate. */
  lemma DiscountRateMonotone(q1: int, q2: int, tier: Tier)
    requires q1 <= q2
    ensures DiscountRate(q1, tier) <= DiscountRate(q2, tier)
  {
    QuantityDiscountMonotone(q1, q2);
  }

  /** The discounted cost of the figures: material (12.50) plus labour (2.00) per figure. */
  function BaseCost(qty: int, rate: real): real
  {
    (12.50 + 2.0) * (qty as real) * (1.0 - rate)
  }

  /** The price of the figures: the discounted base cost with a 15% markup. */
  function FiguresTotal(qty: int, rate: real): real
  {
    BaseCost(qty, rate) * 1.15
  }

  /** The per-figure price; zero when there are no figures. */
  function UnitPrice(qty: int, figuresTotal: real): real
  {
    if qty != 0 then figuresTotal / (qty as real) else 0.0
  }

  /** The unit price times the quantity gives back the figures total. */
  lemma UnitPriceTimesQuantity(qty: int, rate: real)
    ensures UnitPrice(qty, FiguresTotal(qty, rate)) * (qty as real) == FiguresTotal(qty, rate)
  {
  }

  /** The figures total is the list price of the figures less the discount, marked up. */
  lemma FiguresTotalIsDiscountedListPrice(qty: int, tier: Tier)
    requires qty >= 0
    ensures var rate := DiscountRate(qty, tier);
      FiguresTotal(qty, rate) == 14.5 * 1.15 * (qty as real) - 14.5 * 1.15 * (qty as real) * rate
    ensures FiguresTotal(qty, DiscountRate(qty, tier)) <= 14.5 * 1.15 * (qty as real)
    ensures 14.5 * 1.15 * 0.85 * (qty as real) <= FiguresTotal(qty, DiscountRate(qty, tier))
  {
    var rate := DiscountRate(qty, tier);
    var q := qty as real;
    assert 0.0 <= q * rate <= q * 0.15;
  }

  // ---------------------------------------------------------------- add-ons

  /**
   * The add-on discount a tier is meant to give. The source computes it, but
   * its attempt to apply it only writes into `locals()`, which leaves the
   * fees as they were: nothing in the quote uses this value.
   */
  function AddOnDiscount(tier: Tier): (r: real)
    ensures r == 0.0 <==> tier.Starter?
    ensures r == 0.10 <==> tier.Pro? || tier.Premium?
    ensures r == 0.15 <==> tier.Enterprise?
  {
    var d := if tier.Pro? || tier.Premium? then 0.10 else 0.0;
    if tier.Enterprise? then 0.15 else d
  }

  /** The add-on fees of one order, as they enter the total. */
  datatype Fees = Fees(
    charDesign: real,
    commercialRights: real,
    packagingDesign: real,
    branding: real,
    ad: real,
    sourcing: real,
    customParts: real,
    creation: real,
    packagingCost: real,
    keychainCost: real,
    landingPage: real,
    domains: real)

  /** Character design is charged unless it has already been paid for. */
  function CharDesignFee(designPaid: bool): (r: real)
    ensures r == 85.0 <==> !designPaid
    ensures r == 0.0 <==> designPaid
  {
    if designPaid then 0.0 else 85.0
  }

  /** Commercial rights are free on the Pro, Premium and Enterprise tiers and 25 on request otherwise. */
  function CommercialRightsFee(tier: Tier, commercial: bool): (r: real)
    ensures r == 25.0 <==> tier.Starter? && commercial
    ensures r == 0.0 <==> !(tier.Starter? && commercial)
  {
    if tier.Pro? || tier.Premium? || tier.Enterprise? then 0.0
    else (if commercial then 25.0 else 0.0)
  }

  /** Packaging design is charged when it is requested and not yet paid for. */
  function PackagingDesignFee(packagingDesignPaid: bool, packagingDesign: bool): (r: real)
    ensures r == 100.0 <==> packagingDesign && !packagingDesignPaid
    ensures r == 0.0 <==> !(packagingDesign && !packagingDesignPaid)
  {
    if packagingDesignPaid then 0.0 else (if packagingDesign then 100.0 else 0.0)
  }

  /**
   * Branding removal is charged when packaging design is requested and the
   * removal is not yet paid for; the packaging-production flag plays no part.
   */
  function BrandingFee(brandingPaid: bool, packagingDesign: bool): (r: real)
    ensures r == 85.0 <==> packagingDesign && !brandingPaid
    ensures r == 0.0 <==> !(packagingDesign && !brandingPaid)
  {
    if brandingPaid then 0.0 else (if packagingDesign then 85.0 else 0.0)
  }

  /** The 2D/3D ad package comes with the Premium tier only. */
  function AdFee(tier: Tier): (r: real)
    ensures r == 500.0 <==> tier.Premium?
    ensures r == 0.0 <==> !tier.Premium?
  {
    if tier.Premium? then 500.0 else 0.0
  }

  /** Part sourcing is a flat fee when requested. */
  function SourcingFee(partSourcing: bool): (r: real)
    ensures r == 25.0 <==> partSourcing
    ensures r == 0.0 <==> !partSourcing
  {
    if partSourcing then 25.0 else 0.0
  }

  /** Custom parts cost 4 per part per figure. */
  function CustomPartsFee(customPartsQty: int, qty: int): (r: real)
    ensures customPartsQty >= 0 && qty >= 0 ==> r >= 0.0
    ensures r == 0.0 <==> customPartsQty == 0 || qty == 0
    ensures r / 4.0 == (customPartsQty * qty) as real
  {
    (customPartsQty as real) * 4.0 * (qty as real)
  }

  /** Creating a custom part is a flat fee when requested. */
  function CreationFee(customPartCreation: bool): (r: real)
    ensures r == 150.0 <==> customPartCreation
    ensures r == 0.0 <==> !customPartCreation
  {
    if customPartCreation then 150.0 else 0.0
  }

  /** Packaging production: 2.00 a figure with keychains, 4.50 a figure without, nothing without packaging. */
  function PackagingCost(packaging: bool, keychain: bool, qty: int): (r: real)
    ensures !packaging ==> r == 0.0
    ensures packaging && qty > 0 ==> r > 0.0
    ensures packaging && qty != 0 ==> r / (qty as real) == (if keychain then 2.0 else 4.5)
  {
    if packaging && keychain then 2.0 * (qty as real)
    else (if packaging then 4.50 * (qty as real) else 0.0)
  }

  /** Keychain conversion costs 3.00 a figure. */
  function KeychainCost(keychain: bool, qty: int): (r: real)
    ensures !keychain ==> r == 0.0
    ensures keychain ==> r / 3.0 == qty as real
  {
    if keychain then 3.0 * (qty as real) else 0.0
  }

  /** The landing page is a flat fee when requested. */
  function LandingPageFee(landingPage: bool): (r: real)
    ensures r == 350.0 <==> landingPage
    ensures r == 0.0 <==> !landingPage
  {
    if landingPage then 350.0 else 0.0
  }

  /** Each domain costs 85, whether or not a landing page is ordered. */
  function DomainFee(domainCount: int): (r: real)
    ensures r / 85.0 == domainCount as real
  {
    if domainCount != 0 then (domainCount as real) * 85.0 else 0.0
  }

  /** The sum of the twelve add-on fees. */
  function FeesTotal(f: Fees): real
  {
    f.charDesign + f.commercialRights + f.packagingDesign + f.branding + f.ad + f.sourcing
      + f.customParts + f.creation + f.packagingCost + f.keychainCost + f.landingPage + f.domains
  }

  /** The add-on fees of an order, none of them reduced by the tier's add-on discount. */
  function AddOnFees(o: Order): Fees
  {
    var tier := TierOf(o.packageTier);
    Fees(
      charDesign := CharDesignFee(o.designPaid),
      commercialRights := CommercialRightsFee(tier, o.commercial),
      packagingDesign := PackagingDesignFee(o.packagingDesignPaid, o.packagingDesign),
      branding := BrandingFee(o.brandingPaid, o.packagingDesign),
      ad := AdFee(tier),
      sourcing := SourcingFee(o.partSourcing),
      customParts := CustomPartsFee(o.customPartsQty, o.qty),
      creation := CreationFee(o.customPartCreation),
      packagingCost := PackagingCost(o.packaging, o.keychain, o.qty),
      keychainCost := KeychainCost(o.keychain, o.qty),
      landingPage := LandingPageFee(o.landingPage),
      domains := DomainFee(o.domainCount))
  }

  /**
   * The tier's add-on discount never reaches the fees: apart from the two
   * fees whose own rule names a tier (commercial rights and the ad package),
   * every fee of an order is what the same order pays on the Starter tier,
   * which has no add-on discount.
   */
  lemma AddOnDiscountNotApplied(o: Order)
    ensures var f, s := AddOnFees(o), AddOnFees(o.(packageTier := "Starter Package"));
      AddOnDiscount(TierOf("Starter Package")) == 0.0 &&
      f.charDesign == s.charDesign && f.packagingDesign == s.packagingDesign &&
      f.branding == s.branding && f.sourcing == s.sourcing &&
      f.customParts == s.customParts && f.creation == s.creation &&
      f.packagingCost == s.packagingCost && f.keychainCost == s.keychainCost &&
      f.landingPage == s.landingPage && f.domains == s.domains
  {
  }

  // --------------------------------------------------------------- shipping

  /** Estimated parcel weight: 12 per keychain figure, 18 per plain figure, plus 50. */
  function Weight(qty: int, keychain: bool): (w: int)
    ensures keychain ==> w == 12 * qty + 50
    ensures !keychain ==> w == 18 * qty + 50
  {
    if keychain then 12 * qty + 50 + 0 else 15 * qty + 50 + 3 * qty
  }

  /** The shipping cost for a parcel weight, by breakpoints. */
  function ShipCost(weight: int): (r: real)
    ensures r in {12.0, 14.5, 18.0, 22.0, 26.0, 30.0}
  {
    if weight <= 100 then 12.0
    else if weight <= 250 then 14.5
    else if weight <= 500 then 18.0
    else if weight <= 1000 then 22.0
    else if weight <= 1500 then 26.0
    else 30.0
  }

  /** The same breakpoints as a table of (weight ceiling, cost) rows. */
  const ShipTable: seq<(int, real)> :=
    [(100, 12.0), (250, 14.5), (500, 18.0), (1000, 22.0), (1500, 26.0)]

  /** The cost for parcels heavier than every ceiling of the table. */
  const HeaviestRate: real := 30.0

  /** The cost of the first row whose ceiling the weight does not exceed. */
  function TableRate(table: seq<(int, real)>, weight: int): real
  {
    if table == [] then HeaviestRate
    else if weight <= table[0].0 then table[0].1
    else TableRate(table[1..], weight)
  }

  /** The chain of conditionals and the breakpoint table agree on every weight. */
  lemma ShipCostMatchesTable(weight: int)
    ensures ShipCost(weight) == TableRate(ShipTable, weight)
  {
    var t := ShipTable;
    assert t[1..] == [(250, 14.5), (500, 18.0), (1000, 22.0), (1500, 26.0)];
    assert t[1..][1..] == [(500, 18.0), (1000, 22.0), (1500, 26.0)];
    assert t[1..][1..][1..] == [(1000, 22.0), (1500, 26.0)];
    assert t[1..][1..][1..][1..] == [(1500, 26.0)];
    assert t[1..][1..][1..][1..][1..] == [];
    if weight > 100 {
      assert TableRate(t, weight) == TableRate(t[1..], weight);
      if weight > 250 {
        assert TableRate(t[1..], weight) == TableRate(t[1..][1..], weight);
        if weight > 500 {
          assert TableRate(t[1..][1..], weight) == TableRate(t[1..][1..][1..], weight);
          if weight > 1000 {
            assert TableRate(t[1..][1..][1..], weight) == TableRate(t[1..][1..][1..][1..], weight);
            if weight > 1500 {
              assert TableRate(t[1..][1..][1..][1..], weight)
                  == TableRate(t[1..][1..][1..][1..][1..], weight);
            }
          }
        }
      }
    }
  }

  /** A heavier parcel never ships for less. */
  lemma ShipCostMonotone(w1: int, w2: int)
    requires w1 <= w2
    ensures ShipCost(w1) <= ShipCost(w2)
  {
  }

  /** For the same quantity, keychains never cost more to ship than plain figures. */
  lemma KeychainShipsNoDearer(qty: int)
    requires qty >= 0
    ensures ShipCost(Weight(qty, true)) <= ShipCost(Weight(qty, false))
  {
    ShipCostMonotone(Weight(qty, true), Weight(qty, false));
  }

  // --------------------------------------------------------- service charge

  /** The product of the service-charge multipliers that apply to an order. */
  function ServiceMultiplier(qty: int, packaging: bool, landingPage: bool, partSourcing: bool): (m: real)
    ensures 1.0 <= m <= 1.15 * 1.05 * 1.05 * 1.03
    ensures m == 1.0 <==> !(qty >= 75 || packaging || landingPage || partSourcing)
  {
    (if qty >= 75 then 1.15 else 1.0) * (if packaging then 1.05 else 1.0)
      * (if landingPage then 1.05 else 1.0) * (if partSourcing then 1.03 else 1.0)
  }

  /** `amount` raised by `factor` when `applies`, unchanged otherwise. */
  function Surcharge(amount: real, applies: bool, factor: real): real
  {
    if applies then amount * factor else amount
  }

  /**
   * The service charge for orders of at least 25: the configured base raised
   * by 15% for 75 figures or more, then by 5% for packaging, 5% for a landing
   * page and 3% for part sourcing.
   */
  function ServiceCharge(serviceBase: real, o: Order): real
  {
    if o.qty >= MinimumQuantity
    then Surcharge(Surcharge(Surcharge(Surcharge(serviceBase, o.qty >= 75, 1.15),
                                       o.packaging, 1.05), o.landingPage, 1.05), o.partSourcing, 1.03)
    else 0.0
  }

  /** Compounding the surcharges one after another multiplies the base by the product of their factors. */
  lemma ServiceChargeIsBaseTimesMultiplier(serviceBase: real, o: Order)
    requires o.qty >= MinimumQuantity
    ensures ServiceCharge(serviceBase, o)
      == serviceBase * ServiceMultiplier(o.qty, o.packaging, o.landingPage, o.partSourcing)
  {
    var a := if o.qty >= 75 then 1.15 else 1.0;
    var b := if o.packaging then 1.05 else 1.0;
    var c := if o.landingPage then 1.05 else 1.0;
    var d := if o.partSourcing then 1.03 else 1.0;
    assert Surcharge(serviceBase, o.qty >= 75, 1.15) == serviceBase * a;
    assert Surcharge(serviceBase * a, o.packaging, 1.05) == serviceBase * a * b;
    assert Surcharge(serviceBase * a * b, o.landingPage, 1.05) == serviceBase * a * b * c;
    assert Surcharge(serviceBase * a * b * c, o.partSourcing, 1.03) == serviceBase * a * b * c * d;
  }

  /** Compounds the service charge one multiplier at a time, as the quote function does. */
  method CompoundServiceCharge(serviceBase: real, o: Order) returns (svc: real)
    ensures svc == ServiceCharge(serviceBase, o)
  {
    svc := 0.0;
    if o.qty >= 25 {
      svc := serviceBase;
      if o.qty >= 75 {
        svc := svc * 1.15;
      }
      if o.packaging {
        svc := svc * 1.05;
      }
      if o.landingPage {
        svc := svc * 1.05;
      }
      if o.partSourcing {
        svc := svc * 1.03;
      }
    }
  }

  /** The service charge is linear in the configured base. */
  lemma ServiceChargeLinear(serviceBase: real, k: real, o: Order)
    ensures ServiceCharge(k * serviceBase, o) == k * ServiceCharge(serviceBase, o)
  {
    if o.qty >= MinimumQuantity {
      var m := ServiceMultiplier(o.qty, o.packaging, o.landingPage, o.partSourcing);
      ServiceChargeIsBaseTimesMultiplier(k * serviceBase, o);
      ServiceChargeIsBaseTimesMultiplier(serviceBase, o);
      assert (k * serviceBase) * m == k * (serviceBase * m);
    }
  }

  /** Doubling the configured base doubles the service charge. */
  lemma ServiceChargeDoubles(serviceBase: real, o: Order)
    ensures ServiceCharge(2.0 * serviceBase, o) == 2.0 * ServiceCharge(serviceBase, o)
  {
    ServiceChargeLinear(serviceBase, 2.0, o);
  }

  /** For an accepted order and a non-negative base the charge lies between the base and the base with every multiplier. */
  lemma ServiceChargeBounds(serviceBase: real, o: Order)
    requires o.qty >= MinimumQuantity && serviceBase >= 0.0
    ensures serviceBase <= ServiceCharge(serviceBase, o) <= serviceBase * (1.15 * 1.05 * 1.05 * 1.03)
  {
    var m := ServiceMultiplier(o.qty, o.packaging, o.landingPage, o.partSourcing);
    ServiceChargeIsBaseTimesMultiplier(serviceBase, o);
    assert serviceBase * 1.0 <= serviceBase * m;
  }

  /** An accepted order below 75 figures with none of the surcharged add-ons pays exactly the base. */
  lemma ServiceChargeIsBase(serviceBase: real, o: Order)
    requires MinimumQuantity <= o.qty < 75
    requires !o.packaging && !o.landingPage && !o.partSourcing
    ensures ServiceCharge(serviceBase, o) == serviceBase
  {
  }

  // ---------------------------------------------------------------- totals

  /** Every value the quote function computes for an accepted order. */
  datatype Breakdown = Breakdown(
    discountRate: real,
    baseCost: real,
    figuresTotal: real,
    unitPrice: real,
    addOnDiscount: real,
    fees: Fees,
    weight: int,
    shipCost: real,
    serviceCharge: real,
    total: real,
    costBasis: real,
    profit: real)

  /** The price breakdown of an order; the quote function computes it once the quantity passes the minimum. */
  function Price(o: Order, serviceBase: real): Breakdown
  {
    var tier := TierOf(o.packageTier);
    var rate := DiscountRate(o.qty, tier);
    var baseCost := BaseCost(o.qty, rate);
    var figuresTotal := FiguresTotal(o.qty, rate);
    var f := AddOnFees(o);
    var weight := Weight(o.qty, o.keychain);
    var ship := ShipCost(weight);
    var svc := ServiceCharge(serviceBase, o);
    var total := figuresTotal + FeesTotal(f) + ship + svc;
    var costBasis := baseCost + f.packagingCost + ship + f.customParts * 0.5;
    Breakdown(rate, baseCost, figuresTotal, UnitPrice(o.qty, figuresTotal), AddOnDiscount(tier),
              f, weight, ship, svc, total, costBasis, total - costBasis)
  }

  /** How the total, the cost basis and the profit of a breakdown are made up from its other figures. */
  lemma BreakdownParts(o: Order, serviceBase: real)
    ensures var b := Price(o, serviceBase);
      b.total == b.figuresTotal + FeesTotal(b.fees) + b.shipCost + b.serviceCharge &&
      b.costBasis == b.baseCost + b.fees.packagingCost + b.shipCost + b.fees.customParts * 0.5 &&
      b.profit == b.total - b.costBasis
  {
  }

  /**
   * Where the profit comes from: the markup on the figures, every add-on fee
   * except packaging production, half of the custom-parts fee and the
   * service charge. Shipping and packaging production are passed on at cost.
   */
  lemma ProfitDecomposition(o: Order, serviceBase: real)
    ensures var b := Price(o, serviceBase); var f := b.fees;
      b.profit == 0.15 * b.baseCost + f.charDesign + f.commercialRights + f.packagingDesign
        + f.branding + f.ad + f.sourcing + 0.5 * f.customParts + f.creation
        + f.keychainCost + f.landingPage + f.domains + b.serviceCharge
  {
  }

  /** With non-negative counts and base, an accepted order always makes a profit. */
  lemma ProfitPositive(o: Order, serviceBase: real)
    requires o.qty >= MinimumQuantity
    requires o.customPartsQty >= 0 && o.domainCount >= 0 && serviceBase >= 0.0
    ensures Price(o, serviceBase).profit > 0.0
  {
    var b := Price(o, serviceBase);
    ProfitDecomposition(o, serviceBase);
    FiguresTotalIsDiscountedListPrice(o.qty, TierOf(o.packageTier));
    ServiceChargeBounds(serviceBase, o);
    var q := o.qty as real;
    assert b.fees.customParts >= 0.0 by {
      assert (o.customPartsQty as real) * q >= 0.0;
    }
    assert b.baseCost * 1.15 == b.figuresTotal;
  }

  /** The package name enters the price only through the tier it selects. */
  lemma PriceDependsOnTierOnly(o1: Order, o2: Order, serviceBase: real)
    requires o2 == o1.(packageTier := o2.packageTier)
    requires TierOf(o1.packageTier) == TierOf(o2.packageTier)
    ensures Price(o1, serviceBase) == Price(o2, serviceBase)
  {
    assert o1.qty == o2.qty && o1.keychain == o2.keychain;
    FeesDependOnTierOnly(o1, o2);
    ServiceChargeIgnoresTier(o1, o2, serviceBase);
  }

  /** The add-on fees look at the package name only through the tier it selects. */
  lemma FeesDependOnTierOnly(o1: Order, o2: Order)
    requires o2 == o1.(packageTier := o2.packageTier)
    requires TierOf(o1.packageTier) == TierOf(o2.packageTier)
    ensures AddOnFees(o1) == AddOnFees(o2)
  {
  }

  /** The service charge does not look at the package tier at all. */
  lemma ServiceChargeIgnoresTier(o1: Order, o2: Order, serviceBase: real)
    requires o2 == o1.(packageTier := o2.packageTier)
    ensures ServiceCharge(serviceBase, o1) == ServiceCharge(serviceBase, o2)
  {
  }

  /** A package name the rules do not recognise prices exactly like the Starter package. */
  lemma UnknownTierPricesAsStarter(o: Order, serviceBase: real)
    requires TierOf(o.packageTier).Starter?
    ensures Price(o, serviceBase) == Price(o.(packageTier := "Starter Package"), serviceBase)
  {
    PriceDependsOnTierOnly(o, o.(packageTier := "Starter Package"), serviceBase);
  }

  // -------------------------------------------------------------- examples

  /**
   * Fifty Starter figures at the default base: a 4% discount, a base cost of
   * 696.00 and figures at 800.40.
   */
  lemma FiftyStarterFigures()
    ensures var o := Order(50, true, true, true, false, false, false, false, 0,
                           false, false, false, 0, "Starter Package", true);
      var b := Price(o, 50.0);
      b.discountRate == 0.04 && b.baseCost == 696.0 && b.figuresTotal == 800.40
  {
    var o := Order(50, true, true, true, false, false, false, false, 0,
                   false, false, false, 0, "Starter Package", true);
    var b := Price(o, 50.0);
    assert b.discountRate == 0.04;
    assert b.baseCost == 696.0;
  }

  /**
   * The same order without add-ons ships as a 950-unit parcel for 22.00 and
   * carries no add-on fee.
   */
  lemma FiftyStarterShipping()
    ensures var o := Order(50, true, true, true, false, false, false, false, 0,
                           false, false, false, 0, "Starter Package", true);
      var b := Price(o, 50.0);
      b.weight == 950 && b.shipCost == 22.0 &&
      FeesTotal(b.fees) == 0.0 && b.fees.packagingCost == 0.0 && b.fees.customParts == 0.0
  {
  }
}
