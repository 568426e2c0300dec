/** What a GSTR-1 upload holds, told of the invoice table itself
    (Backend/backend/gst_gsp_fynamics.py). */
module Gstr1Upload {
  import Sums
  import opened Gstr1

  function TaxableOf(i: Invoice): int { i.taxable }
  function IgstOf(i: Invoice): int { i.igst }
  function CgstOf(i: Invoice): int { i.cgst }
  function SgstOf(i: Invoice): int { i.sgst }

  /** The four amounts are the sums over these invoices. */
  predicate Summed(a: Amounts, mine: seq<Invoice>) {
    && a.txval == Sums.SumBy(TaxableOf, mine) && a.iamt == Sums.SumBy(IgstOf, mine)
    && a.camt == Sums.SumBy(CgstOf, mine) && a.samt == Sums.SumBy(SgstOf, mine)
  }

  /** `mine` is just the uncancelled invoices of the month for which `picks` holds, each as
      often as the table has it. */
  ghost predicate Picked(all: seq<Invoice>, month: string, mine: seq<Invoice>, picks: Invoice -> bool) {
    forall i :: multiset(mine)[i] == if i.month == month && !i.cancelled && picks(i) then multiset(all)[i] else 0
  }

  function GstinOf(m: Masters, i: Invoice): string { if i.customer in m.customers then m.customers[i.customer].gstin else "" }
  function StateOf(m: Masters, i: Invoice): string { if i.customer in m.customers then m.customers[i.customer].state else "" }

  /** Large means more than one lakh rupees from August 2024 on, and 2.5 lakh before. */
  predicate IsLarge(m: Masters, i: Invoice) {
    i.total > if m.year < 2024 || (m.year == 2024 && m.month < 8) then 25_000_000 else 10_000_000
  }

  ghost predicate BuyerHolds(m: Masters, all: seq<Invoice>, month: string, e: (string, seq<Invoice>)) {
    e.0 != "" && e.1 != [] && Picked(all, month, e.1, (i: Invoice) => GstinOf(m, i) == e.0)
  }

  ghost predicate BucketHolds(m: Masters, all: seq<Invoice>, month: string, e: (SupplyKey, Amounts)) {
    exists mine: seq<Invoice> ::
      && mine != [] && Summed(e.1, mine)
      && Picked(all, month, mine, (i: Invoice) => GstinOf(m, i) == "" && !(i.igst > 0 && IsLarge(m, i))
                                       && e.0 == SupplyKey(i.igst > 0, i.rateBps, StateOf(m, i)))
  }

  /** The description of an HSN line: the product's name, or else the invoice's own text,
      cut after thirty characters. */
  predicate Describes(m: Masters, desc: string, i: Invoice) {
    var text := if i.product in m.products then m.products[i.product] else i.description;
    desc <= text && (|desc| == 30 || (|desc| < 30 && desc == text))
  }

  ghost predicate HsnHolds(m: Masters, all: seq<Invoice>, month: string, e: (HsnKey, Hsn)) {
    exists mine: seq<Invoice> ::
      && mine != [] && Summed(e.1.amounts, mine)
      && e.1.qty == Sums.SumBy(QtyOf, mine) && e.1.val == Sums.SumBy(ValueOf, mine)
      && Picked(all, month, mine, (i: Invoice) => i.sac == e.0.sac && i.rateBps == e.0.rateBps && Describes(m, e.0.desc, i))
  }

  /** Each list, bucket and line holds just its invoices of the month. */
  ghost predicate UploadHolds(m: Masters, all: seq<Invoice>, month: string, p: Payload) {
    && DistinctKeys(p.b2b) && DistinctKeys(p.b2cs) && DistinctKeys(p.hsn)
    && (forall n :: 0 <= n < |p.b2b| ==> BuyerHolds(m, all, month, p.b2b[n]))
    && Picked(all, month, p.b2cl, (i: Invoice) => GstinOf(m, i) == "" && i.igst > 0 && IsLarge(m, i))
    && (forall n :: 0 <= n < |p.b2cs| ==> BucketHolds(m, all, month, p.b2cs[n]))
    && (forall n :: 0 <= n < |p.hsn| ==> p.hsn[n].1.num == n + 1 && HsnHolds(m, all, month, p.hsn[n]))
  }

  /** And every such invoice is in one of them. */
  ghost predicate UploadHasAll(m: Masters, all: seq<Invoice>, month: string, p: Payload) {
    forall i :: i in all && i.month == month && !i.cancelled ==> HasLine(m, p, i) && IsPlaced(m, p, i)
  }

  // ------------------------------------------------------------ the selection

  /** The invoices selected for a month are just its uncancelled ones. */
  lemma {:induction false} InPeriodExactly(all: seq<Invoice>, month: string, i: Invoice)
    ensures multiset(InPeriod(all, month))[i] == if i.month == month && !i.cancelled then multiset(all)[i] else 0
  {
    if |all| > 0 {
      var most, last := all[..|all| - 1], all[|all| - 1];
      assert all == most + [last];
      InPeriodExactly(most, month, i);
    }
  }

  /** What one section takes of a list. */
  lemma {:induction false} WithinExactly(m: Masters, s: Section, invoices: seq<Invoice>, i: Invoice)
    requires CustomersKnown(m, invoices)
    ensures multiset(Within(m, s, invoices))[i]
         == if i.customer in m.customers && SectionOf(m, i) == s then multiset(invoices)[i] else 0
  {
    hide SectionOf;
    if |invoices| > 0 {
      var most, last := invoices[..|invoices| - 1], invoices[|invoices| - 1];
      assert invoices == most + [last];
      WithinExactly(m, s, most, i);
    }
  }

  lemma {:induction false} UnderExactly(m: Masters, k: HsnKey, invoices: seq<Invoice>, i: Invoice)
    ensures multiset(Under(m, k, invoices))[i] == if HsnKeyOf(m, i) == k then multiset(invoices)[i] else 0
  {
    hide HsnKeyOf;
    if |invoices| > 0 {
      var most, last := invoices[..|invoices| - 1], invoices[|invoices| - 1];
      assert invoices == most + [last];
      UnderExactly(m, k, most, i);
    }
  }

  lemma {:induction false} TotalIsSummed(s: seq<Invoice>)
    ensures Summed(TotalBy(AmountsOf, s), s)
  {
    if |s| > 0 {
      var most, last := s[..|s| - 1], s[|s| - 1];
      assert s == most + [last];
      TotalIsSummed(most);
      Sums.SumSnoc(TaxableOf, most, last);
      Sums.SumSnoc(IgstOf, most, last);
      Sums.SumSnoc(CgstOf, most, last);
      Sums.SumSnoc(SgstOf, most, last);
      hide Sums.SumBy;
    }
  }

  /** Where an invoice goes. */
  lemma SectionExactly(m: Masters, i: Invoice)
    requires i.customer in m.customers
    ensures forall g :: SectionOf(m, i) == B2b(g) <==> g != "" && GstinOf(m, i) == g
    ensures SectionOf(m, i) == B2cl <==> GstinOf(m, i) == "" && i.igst > 0 && IsLarge(m, i)
    ensures forall k :: SectionOf(m, i) == B2cs(k) <==>
              GstinOf(m, i) == "" && !(i.igst > 0 && IsLarge(m, i)) && k == SupplyKey(i.igst > 0, i.rateBps, StateOf(m, i))
  {
  }

  lemma HsnExactly(m: Masters, i: Invoice, k: HsnKey)
    ensures HsnKeyOf(m, i) == k <==> i.sac == k.sac && i.rateBps == k.rateBps && Describes(m, k.desc, i)
  {
    var text := if i.product in m.products then m.products[i.product] else i.description;
    assert |text| > 30 && k.desc <= text && |k.desc| == 30 ==> k.desc == text[..30];
  }

  /** A section's invoices, picked from the table. */
  lemma WithinIsPicked(m: Masters, s: Section, all: seq<Invoice>, month: string, picks: Invoice -> bool)
    requires CustomersKnown(m, InPeriod(all, month))
    requires forall i :: i in InPeriod(all, month) ==> (picks(i) <==> SectionOf(m, i) == s)
    ensures Picked(all, month, Within(m, s, InPeriod(all, month)), picks)
  {
    var mine, chosen := Within(m, s, InPeriod(all, month)), InPeriod(all, month);
    hide SectionOf;
    forall i: Invoice ensures multiset(mine)[i] == if i.month == month && !i.cancelled && picks(i) then multiset(all)[i] else 0 {
      InPeriodExactly(all, month, i);
      WithinExactly(m, s, chosen, i);
      assert i in chosen <==> multiset(chosen)[i] > 0;
    }
  }

  lemma KnownOf(m: Masters, invoices: seq<Invoice>, i: Invoice)
    requires CustomersKnown(m, invoices) && i in invoices
    ensures i.customer in m.customers
  {
  }

  lemma SectionPicked(m: Masters, s: Section, all: seq<Invoice>, month: string, picks: Invoice -> bool)
    requires CustomersKnown(m, InPeriod(all, month))
    requires forall i: Invoice :: i.customer in m.customers ==> (picks(i) <==> SectionOf(m, i) == s)
    ensures Picked(all, month, Within(m, s, InPeriod(all, month)), picks)
  {
    hide SectionOf, InPeriod, Within;
    forall i | i in InPeriod(all, month) ensures picks(i) <==> SectionOf(m, i) == s {
      KnownOf(m, InPeriod(all, month), i);
    }
    WithinIsPicked(m, s, all, month, picks);
  }

  lemma BuyerPicked(m: Masters, all: seq<Invoice>, month: string, e: (string, seq<Invoice>))
    requires CustomersKnown(m, InPeriod(all, month)) && BuyerFits(m, InPeriod(all, month), e)
    ensures BuyerHolds(m, all, month, e)
  {
    hide SectionOf, InPeriod, CustomersKnown, Picked;
    forall i: Invoice | i.customer in m.customers ensures GstinOf(m, i) == e.0 && e.0 != "" <==> SectionOf(m, i) == B2b(e.0) {
      SectionExactly(m, i);
    }
    NonEmptyGstin(m, all, month, e);
    hide Within;
    SectionPicked(m, B2b(e.0), all, month, (i: Invoice) => GstinOf(m, i) == e.0);
  }

  lemma NonEmptyGstin(m: Masters, all: seq<Invoice>, month: string, e: (string, seq<Invoice>))
    requires CustomersKnown(m, InPeriod(all, month)) && BuyerFits(m, InPeriod(all, month), e)
    ensures e.0 != ""
  {
    var i := e.1[0];
    assert i in e.1;
    WithinExactly(m, B2b(e.0), InPeriod(all, month), i);
    assert multiset(e.1)[i] > 0;
    SectionExactly(m, i);
  }

  lemma BucketPicked(m: Masters, all: seq<Invoice>, month: string, e: (SupplyKey, Amounts))
    requires CustomersKnown(m, InPeriod(all, month))
    requires var mine := Within(m, B2cs(e.0), InPeriod(all, month)); mine != [] && e.1 == TotalBy(AmountsOf, mine)
    ensures BucketHolds(m, all, month, e)
  {
    hide SectionOf, InPeriod, CustomersKnown, Picked, Within, TotalBy, Summed;
    var picks := (i: Invoice) => GstinOf(m, i) == "" && !(i.igst > 0 && IsLarge(m, i))
                                 && e.0 == SupplyKey(i.igst > 0, i.rateBps, StateOf(m, i));
    forall i: Invoice | i.customer in m.customers ensures picks(i) <==> SectionOf(m, i) == B2cs(e.0) {
      SectionExactly(m, i);
    }
    SectionPicked(m, B2cs(e.0), all, month, picks);
    TotalIsSummed(Within(m, B2cs(e.0), InPeriod(all, month)));
  }

  lemma HsnPicked(m: Masters, all: seq<Invoice>, month: string, n: nat, e: (HsnKey, Hsn))
    requires HsnLine(m, InPeriod(all, month), n, e)
    ensures e.1.num == n + 1 && HsnHolds(m, all, month, e)
  {
    var mine := Under(m, e.0, InPeriod(all, month));
    forall i: Invoice
      ensures multiset(mine)[i] == if i.month == month && !i.cancelled
        && (i.sac == e.0.sac && i.rateBps == e.0.rateBps && Describes(m, e.0.desc, i)) then multiset(all)[i] else 0
    {
      InPeriodExactly(all, month, i);
      UnderExactly(m, e.0, InPeriod(all, month), i);
      HsnExactly(m, i, e.0);
    }
    TotalIsSummed(mine);
    hide Under, InPeriod, TotalBy, Summed, HsnKeyOf, Describes;
    assert Picked(all, month, mine, (i: Invoice) => i.sac == e.0.sac && i.rateBps == e.0.rateBps && Describes(m, e.0.desc, i));
  }

  lemma LargePicked(m: Masters, all: seq<Invoice>, month: string)
    requires CustomersKnown(m, InPeriod(all, month))
    ensures Picked(all, month, Within(m, B2cl, InPeriod(all, month)), (i: Invoice) => GstinOf(m, i) == "" && i.igst > 0 && IsLarge(m, i))
  {
    hide SectionOf, InPeriod, CustomersKnown, Picked, Within;
    var large := (i: Invoice) => GstinOf(m, i) == "" && i.igst > 0 && IsLarge(m, i);
    forall i: Invoice | i.customer in m.customers ensures large(i) <==> SectionOf(m, i) == B2cl { SectionExactly(m, i); }
    SectionPicked(m, B2cl, all, month, large);
    assert Picked(all, month, Within(m, B2cl, InPeriod(all, month)), large);
    SamePicks(all, month, Within(m, B2cl, InPeriod(all, month)), large,
              (i: Invoice) => GstinOf(m, i) == "" && i.igst > 0 && IsLarge(m, i));
  }

  lemma SamePicks(all: seq<Invoice>, month: string, mine: seq<Invoice>, picks: Invoice -> bool, others: Invoice -> bool)
    requires Picked(all, month, mine, picks) && forall i :: picks(i) == others(i)
    ensures Picked(all, month, mine, others)
  {
  }

  lemma LinesHold(m: Masters, all: seq<Invoice>, month: string, p: Payload)
    requires CustomersKnown(m, InPeriod(all, month))
    requires HoldsBuckets(m, InPeriod(all, month), p.b2cs) && HoldsHsn(m, InPeriod(all, month), p.hsn)
    ensures forall n :: 0 <= n < |p.b2cs| ==> BucketHolds(m, all, month, p.b2cs[n])
    ensures forall n :: 0 <= n < |p.hsn| ==> p.hsn[n].1.num == n + 1 && HsnHolds(m, all, month, p.hsn[n])
  {
    hide InPeriod, CustomersKnown, Within, TotalBy, HsnLine, BucketHolds, HsnHolds, Find;
    forall n | 0 <= n < |p.b2cs| ensures BucketHolds(m, all, month, p.b2cs[n]) { BucketPicked(m, all, month, p.b2cs[n]); }
    forall n | 0 <= n < |p.hsn| ensures p.hsn[n].1.num == n + 1 && HsnHolds(m, all, month, p.hsn[n]) {
      HsnPicked(m, all, month, n, p.hsn[n]);
    }
  }

  lemma BuyersHold(m: Masters, all: seq<Invoice>, month: string, p: Payload)
    requires CustomersKnown(m, InPeriod(all, month)) && HoldsBuyers(m, InPeriod(all, month), p.b2b)
    ensures forall n :: 0 <= n < |p.b2b| ==> BuyerHolds(m, all, month, p.b2b[n])
  {
    hide InPeriod, CustomersKnown, Within, BuyerFits, BuyerHolds, Find;
    forall n | 0 <= n < |p.b2b| ensures BuyerHolds(m, all, month, p.b2b[n]) { BuyerPicked(m, all, month, p.b2b[n]); }
  }

  /** The built payload holds in every list, bucket and line just the invoices of the month
      that belong there. */
  lemma BuiltHolds(m: Masters, all: seq<Invoice>, month: string)
    requires CustomersKnown(m, InPeriod(all, month))
    ensures UploadHolds(m, all, month, Grouped(m, InPeriod(all, month)))
  {
    GroupingHolds(m, InPeriod(all, month));
    hide InPeriod, Grouped, CustomersKnown, Within, Picked, HsnLine, BuyerFits, BuyerHolds, BucketHolds, HsnHolds, Find, TotalBy;
    var p := Grouped(m, InPeriod(all, month));
    BuyersHold(m, all, month, p);
    LinesHold(m, all, month, p);
    LargePicked(m, all, month);
    SamePicks(all, month, p.b2cl, (i: Invoice) => GstinOf(m, i) == "" && i.igst > 0 && IsLarge(m, i),
              (i: Invoice) => GstinOf(m, i) == "" && i.igst > 0 && IsLarge(m, i));
  }

  lemma FoundThere<K, V>(d: seq<(K, V)>, k: K)
    requires Find(d, k) < |d|
    ensures exists n :: 0 <= n < |d| && d[n].0 == k
  {
    assert d[Find(d, k)].0 == k;
  }

  lemma HasInvoice(m: Masters, all: seq<Invoice>, month: string, i: Invoice)
    requires CustomersKnown(m, InPeriod(all, month)) && i in all && i.month == month && !i.cancelled
    ensures i.customer in m.customers && i in Within(m, SectionOf(m, i), InPeriod(all, month))
    ensures i in Under(m, HsnKeyOf(m, i), InPeriod(all, month))
  {
    var chosen := InPeriod(all, month);
    InPeriodExactly(all, month, i);
    assert multiset(all)[i] > 0 && multiset(chosen)[i] > 0;
    KnownOf(m, chosen, i);
    WithinExactly(m, SectionOf(m, i), chosen, i);
    UnderExactly(m, HsnKeyOf(m, i), chosen, i);
  }

  /** The place an invoice falls in. */
  predicate IsPlaced(m: Masters, p: Payload, i: Invoice) {
    if GstinOf(m, i) != "" then exists n :: 0 <= n < |p.b2b| && p.b2b[n].0 == GstinOf(m, i)
    else if i.igst > 0 && IsLarge(m, i) then i in p.b2cl
    else exists n :: 0 <= n < |p.b2cs| && p.b2cs[n].0 == SupplyKey(i.igst > 0, i.rateBps, StateOf(m, i))
  }

  /** The line that takes it up. */
  predicate HasLine(m: Masters, p: Payload, i: Invoice) {
    exists n :: 0 <= n < |p.hsn| && p.hsn[n].0.sac == i.sac && p.hsn[n].0.rateBps == i.rateBps && Describes(m, p.hsn[n].0.desc, i)
  }

  lemma InvoicePlaced(m: Masters, all: seq<Invoice>, month: string, p: Payload, i: Invoice)
    requires CustomersKnown(m, InPeriod(all, month)) && i in all && i.month == month && !i.cancelled
    requires HoldsBuyers(m, InPeriod(all, month), p.b2b) && HoldsBuckets(m, InPeriod(all, month), p.b2cs)
    requires p.b2cl == Within(m, B2cl, InPeriod(all, month))
    ensures IsPlaced(m, p, i)
  {
    HasInvoice(m, all, month, i);
    SectionExactly(m, i);
    hide InPeriod, CustomersKnown, Within, TotalBy, BuyerFits, Find, IsLarge, SectionOf;
    match SectionOf(m, i) {
      case B2b(g) => FoundThere(p.b2b, g);
      case B2cl =>
      case B2cs(k) => FoundThere(p.b2cs, k);
    }
  }

  lemma InvoiceHasLine(m: Masters, all: seq<Invoice>, month: string, p: Payload, i: Invoice)
    requires CustomersKnown(m, InPeriod(all, month)) && i in all && i.month == month && !i.cancelled
    requires HoldsHsn(m, InPeriod(all, month), p.hsn)
    ensures HasLine(m, p, i)
  {
    HasInvoice(m, all, month, i);
    HsnExactly(m, i, HsnKeyOf(m, i));
    hide InPeriod, CustomersKnown, Within, Under, HsnLine, Find, HsnKeyOf, Describes;
    FoundThere(p.hsn, HsnKeyOf(m, i));
  }

  lemma BuiltHasAll(m: Masters, all: seq<Invoice>, month: string)
    requires CustomersKnown(m, InPeriod(all, month))
    ensures UploadHasAll(m, all, month, Grouped(m, InPeriod(all, month)))
  {
    GroupingHolds(m, InPeriod(all, month));
    hide InPeriod, Grouped, CustomersKnown, HoldsBuyers, HoldsBuckets, HoldsHsn, Within, IsPlaced, HasLine;
    var p := Grouped(m, InPeriod(all, month));
    forall i | i in all && i.month == month && !i.cancelled ensures HasLine(m, p, i) && IsPlaced(m, p, i) {
      InvoicePlaced(m, all, month, p, i);
      InvoiceHasLine(m, all, month, p, i);
    }
  }

  // --------------------------------------------------------------- the build

  datatype Result = Built(payload: Payload) | CustomerMissing(invoice: string) | TurnoverMissing

  /** The provider settings the build looks at; an unset turnover is an empty text. */
  datatype Settings = Settings(production: bool, previousTurnover: string, currentTurnover: string)

  predicate Missing(m: Masters, month: string, i: Invoice) {
    i.month == month && !i.cancelled && i.customer !in m.customers
  }

  lemma KnownIsNoneMissing(m: Masters, all: seq<Invoice>, month: string)
    ensures CustomersKnown(m, InPeriod(all, month)) <==> forall i :: i in all ==> !Missing(m, month, i)
    ensures forall i :: i in InPeriod(all, month) ==> i in all && i.month == month && !i.cancelled
  {
    var chosen := InPeriod(all, month);
    forall i: Invoice ensures i in chosen <==> i in all && i.month == month && !i.cancelled {
      InPeriodExactly(all, month, i);
      assert (i in chosen <==> multiset(chosen)[i] > 0) && (i in all <==> multiset(all)[i] > 0);
    }
    hide InPeriod;
    assert forall k :: 0 <= k < |chosen| ==> chosen[k] in chosen;
  }

  /** `build_gstr1_payload`: the settings, then the loop over the invoices of the period. */
  method BuildGstr1(c: Settings, m: Masters, all: seq<Invoice>, month: string) returns (r: Result)
    ensures r.TurnoverMissing? <==> c.production && (c.previousTurnover == "" || c.currentTurnover == "")
    ensures r.CustomerMissing? ==> exists i :: i in all && Missing(m, month, i) && i.no == r.invoice
    ensures r.Built? <==> !r.TurnoverMissing? && forall i :: i in all ==> !Missing(m, month, i)
    ensures r.Built? ==> UploadHolds(m, all, month, r.payload) && UploadHasAll(m, all, month, r.payload)
    ensures r.Built? ==> CustomersKnown(m, InPeriod(all, month)) && r.payload == Grouped(m, InPeriod(all, month))
  {
    hide AddInvoice, InPeriod, Grouped, CustomersKnown, UploadHolds, UploadHasAll, Missing;
    if (c.previousTurnover == "" || c.currentTurnover == "") && c.production { return TurnoverMissing; }
    var invoices := InPeriod(all, month);
    var payload := EMPTY;
    NoneGrouped(m);
    for k := 0 to |invoices|
      invariant CustomersKnown(m, invoices[..k])
      invariant payload == Grouped(m, invoices[..k])
    {
      var invoice := invoices[k];
      KnownExactly(m, invoices, k);
      if invoice.customer !in m.customers {
        MissingThere(m, all, month, k);
        return CustomerMissing(invoice.no);
      }
      assert invoices[..k + 1][..k] == invoices[..k];
      GroupedSnoc(m, invoices[..k + 1]);
      payload := FileInvoice(m, payload, invoice);
    }
    assert invoices[..|invoices|] == invoices;
    KnownIsNoneMissing(m, all, month);
    BuiltHolds(m, all, month);
    BuiltHasAll(m, all, month);
    return Built(payload);
  }

  lemma MissingThere(m: Masters, all: seq<Invoice>, month: string, k: nat)
    requires k < |InPeriod(all, month)| && InPeriod(all, month)[k].customer !in m.customers
    ensures InPeriod(all, month)[k] in all && Missing(m, month, InPeriod(all, month)[k])
  {
    KnownIsNoneMissing(m, all, month);
    hide InPeriod;
    assert InPeriod(all, month)[k] in InPeriod(all, month);
  }

  /** The outward supplies of a GSTR-3B are the sums over the uncancelled invoices of its month. */
  lemma OutwardExactly(all: seq<Invoice>, month: string) returns (mine: seq<Invoice>)
    ensures forall i: Invoice :: multiset(mine)[i] == if i.month == month && !i.cancelled then multiset(all)[i] else 0
    ensures Summed(OutwardSupplies(all, month), mine)
  {
    mine := InPeriod(all, month);
    forall i: Invoice ensures multiset(mine)[i] == if i.month == month && !i.cancelled then multiset(all)[i] else 0 {
      InPeriodExactly(all, month, i);
    }
    TotalIsSummed(mine);
  }

  /** The places of the payload hold each uncancelled invoice of the month as often as the
      table does, and nothing else. */
  lemma EachOfMonthOnce(m: Masters, all: seq<Invoice>, month: string, i: Invoice)
    requires CustomersKnown(m, InPeriod(all, month))
    ensures var p := Grouped(m, InPeriod(all, month));
            (Buyers(p.b2b) + multiset(p.b2cl) + Bucketed(m, InPeriod(all, month), p.b2cs))[i]
            == if i.month == month && !i.cancelled then multiset(all)[i] else 0
  {
    EachInvoiceOnce(m, InPeriod(all, month));
    InPeriodExactly(all, month, i);
    hide InPeriod, Grouped, Buyers, Bucketed;
  }
}
