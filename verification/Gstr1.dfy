/** The GSTR-1 upload: invoices grouped into sections and under HSN codes
    (Backend/backend/gst_gsp_fynamics.py), in integer paise. */
module Gstr1 {
  import Sums

  type Id = string

  datatype Invoice = Invoice(
    no: string, customer: Id, product: Id, month: string, cancelled: bool,
    taxable: int, igst: int, cgst: int, sgst: int, total: int, rateBps: int,
    sac: string, description: string, qtyMilli: int)

  /** `gstin` is empty for an unregistered customer. */
  datatype Customer = Customer(gstin: string, state: string)

  /** The tables the build reads, and the period it is for. */
  datatype Masters = Masters(customers: map<Id, Customer>, products: map<Id, string>, year: nat, month: nat)

  datatype Amounts = Amounts(txval: int, iamt: int, camt: int, samt: int)

  const NIL := Amounts(0, 0, 0, 0)

  function Add(a: Amounts, b: Amounts): Amounts {
    Amounts(a.txval + b.txval, a.iamt + b.iamt, a.camt + b.camt, a.samt + b.samt)
  }

  function AmountsOf(i: Invoice): Amounts { Amounts(i.taxable, i.igst, i.cgst, i.sgst) }

  function TotalBy<T>(f: T -> Amounts, s: seq<T>): Amounts {
    if |s| == 0 then NIL else Add(TotalBy(f, s[..|s| - 1]), f(s[|s| - 1]))
  }

  // ---------------------------------------------------------------- sections

  datatype SupplyKey = SupplyKey(inter: bool, rateBps: int, state: string)

  /** Where an invoice goes: under its buyer's GSTIN, on its own, or into a bucket. */
  datatype Section = B2b(gstin: string) | B2cl | B2cs(key: SupplyKey)

  datatype HsnKey = HsnKey(sac: string, rateBps: int, desc: string)

  datatype Hsn = Hsn(num: nat, qty: int, val: int, amounts: Amounts)

  /** The payload lists, dictionaries in insertion order. */
  datatype Payload = Payload(
    b2b: seq<(string, seq<Invoice>)>, b2cl: seq<Invoice>, b2cs: seq<(SupplyKey, Amounts)>, hsn: seq<(HsnKey, Hsn)>)

  const EMPTY := Payload([], [], [], [])

  function ThresholdPaise(m: Masters): int {
    if m.year > 2024 || (m.year == 2024 && m.month >= 8) then 10_000_000 else 25_000_000
  }

  function SectionOf(m: Masters, i: Invoice): Section
    requires i.customer in m.customers
  {
    var customer := m.customers[i.customer];
    var interstate := i.igst > 0;
    if customer.gstin != "" then B2b(customer.gstin)
    else if interstate && i.total > ThresholdPaise(m) then B2cl
    else B2cs(SupplyKey(interstate, i.rateBps, customer.state))
  }

  function Cut(s: string): string { if |s| <= 30 then s else s[..30] }

  function HsnKeyOf(m: Masters, i: Invoice): HsnKey {
    HsnKey(i.sac, i.rateBps, Cut(if i.product in m.products then m.products[i.product] else i.description))
  }

  /** The position of a key, or the length. */
  function Find<K(==), V>(d: seq<(K, V)>, k: K): (n: nat)
    ensures n <= |d|
    ensures n < |d| ==> d[n].0 == k
    ensures forall i :: 0 <= i < n ==> d[i].0 != k
  {
    if |d| == 0 then 0
    else if d[0].0 == k then 0
    else Find(d[1..], k) + 1
  }

  /** `d.setdefault(k, []).append(i)`. */
  function AppendTo(d: seq<(string, seq<Invoice>)>, k: string, i: Invoice): seq<(string, seq<Invoice>)> {
    var n := Find(d, k);
    if n < |d| then d[n := (k, d[n].1 + [i])] else d + [(k, [i])]
  }

  /** `d.setdefault(k, zero)`, then each amount added. */
  function AddTo(d: seq<(SupplyKey, Amounts)>, k: SupplyKey, a: Amounts): seq<(SupplyKey, Amounts)> {
    var n := Find(d, k);
    if n < |d| then d[n := (k, Add(d[n].1, a))] else d + [(k, Add(NIL, a))]
  }

  function AddHsn(h: Hsn, i: Invoice): Hsn {
    Hsn(h.num, h.qty + i.qtyMilli, h.val + i.total, Add(h.amounts, AmountsOf(i)))
  }

  /** `d.setdefault(k, numbered zero)`, then each amount added. */
  function AddUnder(d: seq<(HsnKey, Hsn)>, k: HsnKey, i: Invoice): seq<(HsnKey, Hsn)> {
    var n := Find(d, k);
    if n < |d| then d[n := (k, AddHsn(d[n].1, i))] else d + [(k, AddHsn(Hsn(|d| + 1, 0, 0, NIL), i))]
  }

  function AddInvoice(m: Masters, p: Payload, i: Invoice): Payload
    requires i.customer in m.customers
  {
    var filed := match SectionOf(m, i)
      case B2b(gstin) => p.(b2b := AppendTo(p.b2b, gstin, i))
      case B2cl => p.(b2cl := p.b2cl + [i])
      case B2cs(key) => p.(b2cs := AddTo(p.b2cs, key, AmountsOf(i)));
    filed.(hsn := AddUnder(p.hsn, HsnKeyOf(m, i), i))
  }

  predicate CustomersKnown(m: Masters, invoices: seq<Invoice>) {
    forall k :: 0 <= k < |invoices| ==> invoices[k].customer in m.customers
  }

  /** The grouping, one invoice after another. */
  function Grouped(m: Masters, invoices: seq<Invoice>): Payload
    requires CustomersKnown(m, invoices)
  {
    if |invoices| == 0 then EMPTY
    else AddInvoice(m, Grouped(m, invoices[..|invoices| - 1]), invoices[|invoices| - 1])
  }

  /** The invoices of the period that were not cancelled. */
  function InPeriod(all: seq<Invoice>, month: string): seq<Invoice> {
    if |all| == 0 then []
    else
      var last := all[|all| - 1];
      InPeriod(all[..|all| - 1], month) + if last.month == month && !last.cancelled then [last] else []
  }

  /** `osup_det` of `build_gstr3b_payload`. */
  function OutwardSupplies(all: seq<Invoice>, month: string): Amounts {
    TotalBy(AmountsOf, InPeriod(all, month))
  }

  /** The body of the loop: one invoice into its section and under its HSN code. */
  method FileInvoice(m: Masters, p: Payload, invoice: Invoice) returns (q: Payload)
    requires invoice.customer in m.customers
    ensures q == AddInvoice(m, p, invoice)
  {
    hide AppendTo, AddTo, AddUnder, HsnKeyOf, ThresholdPaise;
    q := p;
    var customer := m.customers[invoice.customer];
    var interstate := invoice.igst > 0;
    if customer.gstin != "" {
      q := q.(b2b := AppendTo(q.b2b, customer.gstin, invoice));
    } else if interstate && invoice.total > ThresholdPaise(m) {
      q := q.(b2cl := q.b2cl + [invoice]);
    } else {
      q := q.(b2cs := AddTo(q.b2cs, SupplyKey(interstate, invoice.rateBps, customer.state), AmountsOf(invoice)));
    }
    q := q.(hsn := AddUnder(q.hsn, HsnKeyOf(m, invoice), invoice));
  }

  // ------------------------------------------------------------ total lemmas

  lemma TotalSnoc<T>(f: T -> Amounts, s: seq<T>, x: T)
    ensures TotalBy(f, s + [x]) == Add(TotalBy(f, s), f(x))
  {
    assert (s + [x])[..|s|] == s;
  }

  lemma {:induction false} TotalAppend<T>(f: T -> Amounts, s: seq<T>, t: seq<T>)
    ensures TotalBy(f, s + t) == Add(TotalBy(f, s), TotalBy(f, t))
  {
    if |t| == 0 {
      assert s + t == s;
    } else {
      var most := t[..|t| - 1];
      assert s + t == s + most + [t[|t| - 1]];
      TotalAppend(f, s, most);
      TotalSnoc(f, s + most, t[|t| - 1]);
    }
  }

  /** Adding to one element adds to the total. */
  lemma TotalRaised<T>(f: T -> Amounts, s: seq<T>, n: nat, x: T, a: Amounts)
    requires n < |s| && f(x) == Add(f(s[n]), a)
    ensures TotalBy(f, s[n := x]) == Add(TotalBy(f, s), a)
  {
    assert s == s[..n] + [s[n]] + s[n + 1..];
    assert s[n := x] == s[..n] + [x] + s[n + 1..];
    TotalSnoc(f, s[..n], s[n]);
    TotalSnoc(f, s[..n], x);
    TotalAppend(f, s[..n] + [s[n]], s[n + 1..]);
    TotalAppend(f, s[..n] + [x], s[n + 1..]);
  }

  lemma {:induction false} TotalPermutation<T>(f: T -> Amounts, s: seq<T>, t: seq<T>)
    requires multiset(s) == multiset(t)
    ensures TotalBy(f, s) == TotalBy(f, t)
  {
    if |s| == 0 {
      assert |multiset(t)| == 0;
    } else {
      var a, b := Sums.Extract(s, t);
      TotalPermutation(f, s[1..], a + b);
      assert s == [s[0]] + s[1..];
      TotalAppend(f, [s[0]], s[1..]);
      TotalAppend(f, a + [s[0]], b);
      TotalSnoc(f, a, s[0]);
      TotalAppend(f, a, b);
      TotalSnoc(f, [], s[0]);
      assert [] + [s[0]] == [s[0]];
    }
  }

  // ------------------------------------------------------------ conservation

  function BuyerTotal(e: (string, seq<Invoice>)): Amounts { TotalBy(AmountsOf, e.1) }
  function BucketTotal(e: (SupplyKey, Amounts)): Amounts { e.1 }
  function HsnTotal(e: (HsnKey, Hsn)): Amounts { e.1.amounts }

  /** What the three sections add up to. */
  function SectionsTotal(p: Payload): Amounts {
    Add(Add(TotalBy(BuyerTotal, p.b2b), TotalBy(AmountsOf, p.b2cl)), TotalBy(BucketTotal, p.b2cs))
  }

  lemma AppendToTotal(d: seq<(string, seq<Invoice>)>, k: string, i: Invoice)
    ensures TotalBy(BuyerTotal, AppendTo(d, k, i)) == Add(TotalBy(BuyerTotal, d), AmountsOf(i))
  {
    hide TotalBy, AmountsOf, BuyerTotal, Add, Find;
    var n := Find(d, k);
    if n < |d| {
      BuyerGains(k, d[n].1, i);
      assert d[n] == (k, d[n].1);
      TotalRaised(BuyerTotal, d, n, (k, d[n].1 + [i]), AmountsOf(i));
    } else {
      NewBuyerTotal(k, i);
      TotalSnoc(BuyerTotal, d, (k, [i]));
    }
  }

  lemma BuyerGains(k: string, mine: seq<Invoice>, i: Invoice)
    ensures BuyerTotal((k, mine + [i])) == Add(BuyerTotal((k, mine)), AmountsOf(i))
  {
    hide TotalBy, AmountsOf;
    TotalSnoc(AmountsOf, mine, i);
  }

  lemma NewBuyerTotal(k: string, i: Invoice)
    ensures BuyerTotal((k, [i])) == AmountsOf(i)
  {
    hide AmountsOf;
    TotalSnoc(AmountsOf, [], i);
    assert [] + [i] == [i];
  }

  lemma AddToTotal(d: seq<(SupplyKey, Amounts)>, k: SupplyKey, a: Amounts)
    ensures TotalBy(BucketTotal, AddTo(d, k, a)) == Add(TotalBy(BucketTotal, d), a)
  {
    var n := Find(d, k);
    if n < |d| {
      TotalRaised(BucketTotal, d, n, (k, Add(d[n].1, a)), a);
    } else {
      TotalSnoc(BucketTotal, d, (k, Add(NIL, a)));
    }
  }

  lemma AddUnderTotal(d: seq<(HsnKey, Hsn)>, k: HsnKey, i: Invoice)
    ensures TotalBy(HsnTotal, AddUnder(d, k, i)) == Add(TotalBy(HsnTotal, d), AmountsOf(i))
  {
    var n := Find(d, k);
    if n < |d| {
      TotalRaised(HsnTotal, d, n, (k, AddHsn(d[n].1, i)), AmountsOf(i));
    } else {
      TotalSnoc(HsnTotal, d, (k, AddHsn(Hsn(|d| + 1, 0, 0, NIL), i)));
    }
  }

  lemma AddInvoiceTotals(m: Masters, p: Payload, i: Invoice)
    requires i.customer in m.customers
    ensures SectionsTotal(AddInvoice(m, p, i)) == Add(SectionsTotal(p), AmountsOf(i))
    ensures TotalBy(HsnTotal, AddInvoice(m, p, i).hsn) == Add(TotalBy(HsnTotal, p.hsn), AmountsOf(i))
  {
    hide AppendTo, AddTo, AddUnder, TotalBy, AmountsOf;
    AddUnderTotal(p.hsn, HsnKeyOf(m, i), i);
    match SectionOf(m, i)
    case B2b(gstin) => AppendToTotal(p.b2b, gstin, i);
    case B2cl => TotalSnoc(AmountsOf, p.b2cl, i);
    case B2cs(key) => AddToTotal(p.b2cs, key, AmountsOf(i));
  }

  lemma {:induction false} GroupingConserves(m: Masters, invoices: seq<Invoice>)
    requires CustomersKnown(m, invoices)
    ensures SectionsTotal(Grouped(m, invoices)) == TotalBy(AmountsOf, invoices)
    ensures TotalBy(HsnTotal, Grouped(m, invoices).hsn) == TotalBy(AmountsOf, invoices)
  {
    hide SectionsTotal, AddInvoice, AmountsOf, HsnTotal;
    if |invoices| == 0 {
      NothingGrouped();
    } else {
      var most, last := invoices[..|invoices| - 1], invoices[|invoices| - 1];
      GroupingConserves(m, most);
      GroupedSnoc(m, invoices);
      AddInvoiceTotals(m, Grouped(m, most), last);
      hide Grouped;
    }
  }

  lemma NothingGrouped()
    ensures SectionsTotal(EMPTY) == NIL && TotalBy(HsnTotal, EMPTY.hsn) == NIL
  {
    TotalOfNone(BuyerTotal);
    TotalOfNone(AmountsOf);
    TotalOfNone(BucketTotal);
    TotalOfNone(HsnTotal);
    hide TotalBy;
  }

  lemma TotalOfNone<T>(f: T -> Amounts)
    ensures TotalBy(f, []) == NIL
  {
  }

  lemma NoneGrouped(m: Masters)
    ensures CustomersKnown(m, []) && Grouped(m, []) == EMPTY
  {
  }

  lemma KnownExactly(m: Masters, invoices: seq<Invoice>, k: nat)
    requires k < |invoices|
    ensures CustomersKnown(m, invoices[..k + 1]) <==> CustomersKnown(m, invoices[..k]) && invoices[k].customer in m.customers
    ensures CustomersKnown(m, invoices) ==> invoices[k].customer in m.customers
  {
    assert invoices[..k + 1] == invoices[..k] + [invoices[k]];
  }

  lemma GroupedSnoc(m: Masters, invoices: seq<Invoice>)
    requires CustomersKnown(m, invoices) && |invoices| > 0
    ensures CustomersKnown(m, invoices[..|invoices| - 1])
    ensures Grouped(m, invoices) == AddInvoice(m, Grouped(m, invoices[..|invoices| - 1]), invoices[|invoices| - 1])
  {
    hide AddInvoice;
  }

  /** Taxable value and each tax: the sections, the HSN summary and the GSTR-3B outward
      supplies of the same period agree to the paisa. */
  lemma SectionsMatchHsnAndGstr3b(m: Masters, all: seq<Invoice>, month: string)
    requires CustomersKnown(m, InPeriod(all, month))
    ensures var p := Grouped(m, InPeriod(all, month));
            SectionsTotal(p) == TotalBy(HsnTotal, p.hsn) == OutwardSupplies(all, month)
  {
    GroupingConserves(m, InPeriod(all, month));
  }

  // ---------------------------------------------------------------- contents

  /** The invoices that go to one section, in order. */
  function Within(m: Masters, s: Section, invoices: seq<Invoice>): seq<Invoice>
    requires CustomersKnown(m, invoices)
  {
    if |invoices| == 0 then []
    else
      var last := invoices[|invoices| - 1];
      Within(m, s, invoices[..|invoices| - 1]) + if SectionOf(m, last) == s then [last] else []
  }

  function Under(m: Masters, k: HsnKey, invoices: seq<Invoice>): seq<Invoice> {
    if |invoices| == 0 then []
    else
      var last := invoices[|invoices| - 1];
      Under(m, k, invoices[..|invoices| - 1]) + if HsnKeyOf(m, last) == k then [last] else []
  }

  predicate DistinctKeys<K(==), V>(d: seq<(K, V)>) {
    forall i, j :: 0 <= i < j < |d| ==> d[i].0 != d[j].0
  }

  /** What a grouping holds, section by section: every buyer's list is the invoices of
      that buyer, every bucket the total of its invoices, every HSN line the total of
      its invoices; keys are there once and exactly when some invoice has them. */
  ghost predicate HoldsBuyers(m: Masters, invoices: seq<Invoice>, d: seq<(string, seq<Invoice>)>)
    requires CustomersKnown(m, invoices)
  {
    && DistinctKeys(d)
    && (forall k :: Within(m, B2b(k), invoices) != [] ==> Find(d, k) < |d|)
    && (forall n :: 0 <= n < |d| ==> BuyerFits(m, invoices, d[n]))
  }

  predicate BuyerFits(m: Masters, invoices: seq<Invoice>, e: (string, seq<Invoice>))
    requires CustomersKnown(m, invoices)
  {
    e.1 == Within(m, B2b(e.0), invoices) != []
  }

  ghost predicate HoldsBuckets(m: Masters, invoices: seq<Invoice>, d: seq<(SupplyKey, Amounts)>)
    requires CustomersKnown(m, invoices)
  {
    && DistinctKeys(d)
    && (forall k :: Within(m, B2cs(k), invoices) != [] ==> Find(d, k) < |d|)
    && (forall n :: 0 <= n < |d| ==>
          Within(m, B2cs(d[n].0), invoices) != [] && d[n].1 == TotalBy(AmountsOf, Within(m, B2cs(d[n].0), invoices)))
  }

  ghost predicate HoldsHsn(m: Masters, invoices: seq<Invoice>, d: seq<(HsnKey, Hsn)>) {
    && DistinctKeys(d)
    && (forall k :: Under(m, k, invoices) != [] ==> Find(d, k) < |d|)
    && (forall n :: 0 <= n < |d| ==> HsnLine(m, invoices, n, d[n]))
  }

  ghost predicate HsnLine(m: Masters, invoices: seq<Invoice>, n: nat, e: (HsnKey, Hsn)) {
    var mine := Under(m, e.0, invoices);
    && mine != [] && e.1.num == n + 1 && e.1.amounts == TotalBy(AmountsOf, mine)
    && e.1.qty == Sums.SumBy(QtyOf, mine) && e.1.val == Sums.SumBy(ValueOf, mine)
  }

  function QtyOf(i: Invoice): int { i.qtyMilli }
  function ValueOf(i: Invoice): int { i.total }

  lemma WithinSnoc(m: Masters, s: Section, invoices: seq<Invoice>, i: Invoice)
    requires CustomersKnown(m, invoices) && i.customer in m.customers
    ensures CustomersKnown(m, invoices + [i])
    ensures Within(m, s, invoices + [i]) == if SectionOf(m, i) == s then Within(m, s, invoices) + [i] else Within(m, s, invoices)
  {
    assert (invoices + [i])[..|invoices|] == invoices;
  }

  lemma UnderSnoc(m: Masters, k: HsnKey, invoices: seq<Invoice>, i: Invoice)
    ensures Under(m, k, invoices + [i]) == if HsnKeyOf(m, i) == k then Under(m, k, invoices) + [i] else Under(m, k, invoices)
  {
    assert (invoices + [i])[..|invoices|] == invoices;
  }

  lemma FoundElsewhere<K, V>(d: seq<(K, V)>, later: seq<(K, V)>, k: K)
    requires |later| >= |d| && forall i :: 0 <= i < |d| ==> later[i].0 == d[i].0
    ensures Find(d, k) < |d| ==> Find(later, k) < |later|
  {
    if Find(d, k) < |d| {
      assert later[Find(d, k)].0 == k;
    }
  }

  /** One more invoice, seen from one buyer's list. */
  lemma BuyerSnoc(m: Masters, invoices: seq<Invoice>, k: string, list: seq<Invoice>, i: Invoice)
    requires CustomersKnown(m, invoices) && i.customer in m.customers
    ensures CustomersKnown(m, invoices + [i])
    ensures SectionOf(m, i) == B2b(k) ==> Within(m, B2b(k), invoices + [i]) == Within(m, B2b(k), invoices) + [i] != []
    ensures SectionOf(m, i) != B2b(k) ==> Within(m, B2b(k), invoices + [i]) == Within(m, B2b(k), invoices)
    ensures BuyerFits(m, invoices, (k, list)) ==>
              BuyerFits(m, invoices + [i], (k, if SectionOf(m, i) == B2b(k) then list + [i] else list))
  {
    WithinSnoc(m, B2b(k), invoices, i);
    hide Within, SectionOf;
  }

  lemma BuyersSnoc(m: Masters, invoices: seq<Invoice>, d: seq<(string, seq<Invoice>)>, i: Invoice)
    requires CustomersKnown(m, invoices) && i.customer in m.customers && HoldsBuyers(m, invoices, d)
    ensures CustomersKnown(m, invoices + [i])
    ensures HoldsBuyers(m, invoices + [i], match SectionOf(m, i) case B2b(k) => AppendTo(d, k, i) case _ => d)
  {
    hide Within, SectionOf, Find, BuyerFits;
    var later := match SectionOf(m, i) case B2b(k) => AppendTo(d, k, i) case _ => d;
    forall n | 0 <= n < |later| ensures CustomersKnown(m, invoices + [i]) && BuyerFits(m, invoices + [i], later[n]) {
      var k := later[n].0;
      if n < |d| {
        assert d[n].0 == k;
        BuyerSnoc(m, invoices, k, d[n].1, i);
        assert BuyerFits(m, invoices, (k, d[n].1)) by { assert d[n] == (k, d[n].1); }
        assert SectionOf(m, i) == B2b(k) ==> Find(d, k) == n;
        assert later[n] == (k, if SectionOf(m, i) == B2b(k) then d[n].1 + [i] else d[n].1);
      } else {
        BuyerSnoc(m, invoices, k, [i], i);
        assert Find(d, k) == |d| && Within(m, B2b(k), invoices) == [];
        NewBuyer(m, invoices + [i], k, i);
      }
    }
    assert CustomersKnown(m, invoices + [i]);
    forall k | Within(m, B2b(k), invoices + [i]) != [] ensures Find(later, k) < |later| {
      BuyerSnoc(m, invoices, k, [], i);
      FoundElsewhere(d, later, k);
      if SectionOf(m, i) == B2b(k) {
        assert later[Find(d, k)].0 == k;
      }
    }
  }

  lemma NewBuyer(m: Masters, invoices: seq<Invoice>, k: string, i: Invoice)
    requires CustomersKnown(m, invoices) && Within(m, B2b(k), invoices) == [] + [i]
    ensures BuyerFits(m, invoices, (k, [i]))
  {
    assert [] + [i] == [i];
    hide Within;
  }

  lemma BucketsSnoc(m: Masters, invoices: seq<Invoice>, d: seq<(SupplyKey, Amounts)>, i: Invoice)
    requires CustomersKnown(m, invoices) && i.customer in m.customers && HoldsBuckets(m, invoices, d)
    ensures CustomersKnown(m, invoices + [i])
    ensures HoldsBuckets(m, invoices + [i], match SectionOf(m, i) case B2cs(k) => AddTo(d, k, AmountsOf(i)) case _ => d)
  {
    hide Within, SectionOf, Find, TotalBy, AmountsOf;
    var later := match SectionOf(m, i) case B2cs(k) => AddTo(d, k, AmountsOf(i)) case _ => d;
    assert CustomersKnown(m, invoices + [i]);
    forall k
      ensures Within(m, B2cs(k), invoices + [i])
           == if SectionOf(m, i) == B2cs(k) then Within(m, B2cs(k), invoices) + [i] else Within(m, B2cs(k), invoices)
      ensures TotalBy(AmountsOf, Within(m, B2cs(k), invoices) + [i]) == Add(TotalBy(AmountsOf, Within(m, B2cs(k), invoices)), AmountsOf(i))
      ensures Within(m, B2cs(k), invoices) == [] ==> TotalBy(AmountsOf, Within(m, B2cs(k), invoices)) == NIL
    {
      WithinSnoc(m, B2cs(k), invoices, i);
      TotalSnoc(AmountsOf, Within(m, B2cs(k), invoices), i);
      NoTotal();
    }
    forall n | 0 <= n < |later|
      ensures Within(m, B2cs(later[n].0), invoices + [i]) != []
      ensures later[n].1 == TotalBy(AmountsOf, Within(m, B2cs(later[n].0), invoices + [i]))
    {
      var k := later[n].0;
      if n < |d| {
        assert d[n].0 == k && d[n].1 == TotalBy(AmountsOf, Within(m, B2cs(d[n].0), invoices));
        if SectionOf(m, i) == B2cs(k) {
          assert Find(d, k) == n;
        }
      } else {
        assert Find(d, k) == |d| && Within(m, B2cs(k), invoices) == [];
      }
    }
    forall k | Within(m, B2cs(k), invoices + [i]) != [] ensures Find(later, k) < |later| {
      FoundElsewhere(d, later, k);
      if SectionOf(m, i) == B2cs(k) {
        assert later[Find(d, k)].0 == k;
      }
    }
  }

  lemma NoTotal()
    ensures TotalBy(AmountsOf, []) == NIL
  {
  }

  lemma NoSums()
    ensures Sums.SumBy(QtyOf, []) == 0 && Sums.SumBy(ValueOf, []) == 0
  {
  }

  lemma HsnSnoc(m: Masters, invoices: seq<Invoice>, d: seq<(HsnKey, Hsn)>, i: Invoice)
    requires HoldsHsn(m, invoices, d)
    ensures HoldsHsn(m, invoices + [i], AddUnder(d, HsnKeyOf(m, i), i))
  {
    hide Under, HsnKeyOf, Find, TotalBy, AmountsOf, Sums.SumBy;
    var later := AddUnder(d, HsnKeyOf(m, i), i);
    forall k
      ensures Under(m, k, invoices + [i]) == if HsnKeyOf(m, i) == k then Under(m, k, invoices) + [i] else Under(m, k, invoices)
      ensures TotalBy(AmountsOf, Under(m, k, invoices) + [i]) == Add(TotalBy(AmountsOf, Under(m, k, invoices)), AmountsOf(i))
      ensures Under(m, k, invoices) == [] ==> TotalBy(AmountsOf, Under(m, k, invoices)) == NIL
      ensures Sums.SumBy(QtyOf, Under(m, k, invoices) + [i]) == Sums.SumBy(QtyOf, Under(m, k, invoices)) + i.qtyMilli
      ensures Sums.SumBy(ValueOf, Under(m, k, invoices) + [i]) == Sums.SumBy(ValueOf, Under(m, k, invoices)) + i.total
      ensures Under(m, k, invoices) == [] ==>
                Sums.SumBy(QtyOf, Under(m, k, invoices)) == 0 && Sums.SumBy(ValueOf, Under(m, k, invoices)) == 0
    {
      Sums.SumSnoc(QtyOf, Under(m, k, invoices), i);
      Sums.SumSnoc(ValueOf, Under(m, k, invoices), i);
      NoSums();
      UnderSnoc(m, k, invoices, i);
      TotalSnoc(AmountsOf, Under(m, k, invoices), i);
      NoTotal();
    }
    forall n | 0 <= n < |later| ensures HsnLine(m, invoices + [i], n, later[n]) {
      var k := later[n].0;
      if n < |d| {
        assert HsnLine(m, invoices, n, d[n]) && d[n].0 == k;
        if HsnKeyOf(m, i) == k {
          assert Find(d, k) == n;
        }
      } else {
        assert Find(d, k) == |d| && Under(m, k, invoices) == [];
      }
    }
    forall k | Under(m, k, invoices + [i]) != [] ensures Find(later, k) < |later| {
      FoundElsewhere(d, later, k);
      if HsnKeyOf(m, i) == k {
        assert later[Find(d, k)].0 == k;
      }
    }
  }

  /** The grouping holds what it should, and HSN lines are numbered 1 to k. */
  lemma {:induction false} GroupingHolds(m: Masters, invoices: seq<Invoice>)
    requires CustomersKnown(m, invoices)
    ensures var p := Grouped(m, invoices);
            && HoldsBuyers(m, invoices, p.b2b) && p.b2cl == Within(m, B2cl, invoices)
            && HoldsBuckets(m, invoices, p.b2cs) && HoldsHsn(m, invoices, p.hsn)
  {
    if |invoices| > 0 {
      hide HoldsBuyers, HoldsBuckets, HoldsHsn, SectionOf, AppendTo, AddTo, AddUnder;
      var most, last := invoices[..|invoices| - 1], invoices[|invoices| - 1];
      assert most + [last] == invoices;
      GroupingHolds(m, most);
      var p := Grouped(m, most);
      BuyersSnoc(m, most, p.b2b, last);
      BucketsSnoc(m, most, p.b2cs, last);
      HsnSnoc(m, most, p.hsn, last);
      WithinSnoc(m, B2cl, most, last);
    }
  }

  // -------------------------------------------------------------- partition

  function Buyers(d: seq<(string, seq<Invoice>)>): multiset<Invoice> {
    if |d| == 0 then multiset{} else Buyers(d[..|d| - 1]) + multiset(d[|d| - 1].1)
  }

  /** The invoices whose totals the given buckets are. */
  function Bucketed(m: Masters, invoices: seq<Invoice>, d: seq<(SupplyKey, Amounts)>): multiset<Invoice>
    requires CustomersKnown(m, invoices)
  {
    if |d| == 0 then multiset{}
    else Bucketed(m, invoices, d[..|d| - 1]) + multiset(Within(m, B2cs(d[|d| - 1].0), invoices))
  }

  lemma {:induction false} BuyersRaised(d: seq<(string, seq<Invoice>)>, n: nat, k: string, i: Invoice)
    requires n < |d|
    ensures Buyers(d[n := (k, d[n].1 + [i])]) == Buyers(d) + multiset{i}
  {
    var later := d[n := (k, d[n].1 + [i])];
    var last := |d| - 1;
    if n == last {
      assert later[..last] == d[..last];
    } else {
      assert later[..last] == d[..last][n := (k, d[..last][n].1 + [i])];
      BuyersRaised(d[..last], n, k, i);
    }
  }

  lemma AppendToBuyers(d: seq<(string, seq<Invoice>)>, k: string, i: Invoice)
    ensures Buyers(AppendTo(d, k, i)) == Buyers(d) + multiset{i}
  {
    var n := Find(d, k);
    if n < |d| {
      BuyersRaised(d, n, k, i);
    } else {
      assert (d + [(k, [i])])[..|d|] == d;
    }
  }

  predicate HasKey(d: seq<(SupplyKey, Amounts)>, k: SupplyKey) {
    exists n :: 0 <= n < |d| && d[n].0 == k
  }

  lemma HasKeySnoc(d: seq<(SupplyKey, Amounts)>, e: (SupplyKey, Amounts), k: SupplyKey)
    ensures HasKey(d + [e], k) <==> HasKey(d, k) || e.0 == k
  {
    assert (d + [e])[|d|] == e;
    forall n | 0 <= n < |d| ensures (d + [e])[n] == d[n] {}
  }

  /** One more invoice enters the one bucket with its key, if there is one. */
  lemma {:induction false} BucketedSnoc(m: Masters, invoices: seq<Invoice>, d: seq<(SupplyKey, Amounts)>, i: Invoice)
    requires CustomersKnown(m, invoices) && CustomersKnown(m, invoices + [i]) && i.customer in m.customers && DistinctKeys(d)
    ensures Bucketed(m, invoices + [i], d)
         == Bucketed(m, invoices, d) + (if SectionOf(m, i).B2cs? && HasKey(d, SectionOf(m, i).key) then multiset{i} else multiset{})
  {
    if |d| > 0 {
      hide Within, SectionOf, HasKey;
      var most, last := d[..|d| - 1], d[|d| - 1];
      BucketedSnoc(m, invoices, most, i);
      WithinSnoc(m, B2cs(last.0), invoices, i);
      assert most + [last] == d;
      if SectionOf(m, i).B2cs? {
        HasKeySnoc(most, last, SectionOf(m, i).key);
        LastKeyIsNew(d);
      }
    }
  }

  lemma LastKeyIsNew(d: seq<(SupplyKey, Amounts)>)
    requires DistinctKeys(d) && |d| > 0
    ensures !HasKey(d[..|d| - 1], d[|d| - 1].0)
  {
  }

  /** Which invoices a bucket stands for depends on its key alone. */
  lemma {:induction false} BucketedByKey(
    m: Masters, invoices: seq<Invoice>, d: seq<(SupplyKey, Amounts)>, e: seq<(SupplyKey, Amounts)>)
    requires CustomersKnown(m, invoices) && |d| == |e| && forall n :: 0 <= n < |d| ==> d[n].0 == e[n].0
    ensures Bucketed(m, invoices, d) == Bucketed(m, invoices, e)
  {
    if |d| > 0 {
      hide Within;
      BucketedByKey(m, invoices, d[..|d| - 1], e[..|e| - 1]);
    }
  }

  lemma AddToBucketed(m: Masters, invoices: seq<Invoice>, d: seq<(SupplyKey, Amounts)>, k: SupplyKey, i: Invoice)
    requires CustomersKnown(m, invoices) && i.customer in m.customers && HoldsBuckets(m, invoices, d)
    requires SectionOf(m, i) == B2cs(k)
    ensures CustomersKnown(m, invoices + [i])
    ensures Bucketed(m, invoices + [i], AddTo(d, k, AmountsOf(i))) == Bucketed(m, invoices, d) + multiset{i}
  {
    hide Within, SectionOf, AmountsOf, TotalBy;
    var n, a := Find(d, k), AmountsOf(i);
    BucketedSnoc(m, invoices, d, i);
    if n < |d| {
      assert HasKey(d, k);
      BucketedByKey(m, invoices + [i], d, AddTo(d, k, a));
    } else {
      assert !HasKey(d, k);
      assert (d + [(k, Add(NIL, a))])[..|d|] == d;
      WithinSnoc(m, B2cs(k), invoices, i);
      assert Within(m, B2cs(k), invoices) == [];
    }
  }

  /** What the sections of a payload hold of these invoices. */
  ghost function Sections(m: Masters, invoices: seq<Invoice>, p: Payload): multiset<Invoice>
    requires CustomersKnown(m, invoices)
  {
    Buyers(p.b2b) + multiset(p.b2cl) + Bucketed(m, invoices, p.b2cs)
  }

  lemma SectionsSnoc(m: Masters, invoices: seq<Invoice>, p: Payload, i: Invoice)
    requires CustomersKnown(m, invoices) && i.customer in m.customers && HoldsBuckets(m, invoices, p.b2cs)
    ensures CustomersKnown(m, invoices + [i])
    ensures Sections(m, invoices + [i], AddInvoice(m, p, i)) == Sections(m, invoices, p) + multiset{i}
  {
    hide SectionOf, AppendTo, AddTo, AddUnder, Buyers, Bucketed, HsnKeyOf, Within, AmountsOf;
    assert DistinctKeys(p.b2cs);
    hide HoldsBuckets;
    BucketedSnoc(m, invoices, p.b2cs, i);
    match SectionOf(m, i)
    case B2b(gstin) => AppendToBuyers(p.b2b, gstin, i);
    case B2cl =>
    case B2cs(key) => AddToBucketed(m, invoices, p.b2cs, key, i);
  }

  lemma {:induction false} SectionsHoldAll(m: Masters, invoices: seq<Invoice>)
    requires CustomersKnown(m, invoices)
    ensures Sections(m, invoices, Grouped(m, invoices)) == multiset(invoices)
  {
    if |invoices| > 0 {
      hide AddInvoice, Sections, HoldsBuckets, HoldsBuyers, HoldsHsn;
      var most, last := invoices[..|invoices| - 1], invoices[|invoices| - 1];
      assert most + [last] == invoices;
      SectionsHoldAll(m, most);
      GroupingHolds(m, most);
      GroupedSnoc(m, invoices);
      hide Grouped;
      SectionsSnoc(m, most, Grouped(m, most), last);
    }
  }

  /** Every invoice of the period falls in exactly one place of the payload: the list of
      its buyer, b2cl, or the bucket of its key, whose amounts are the totals of just the
      invoices that fall there. */
  lemma EachInvoiceOnce(m: Masters, invoices: seq<Invoice>)
    requires CustomersKnown(m, invoices)
    ensures var p := Grouped(m, invoices);
            && multiset(invoices) == Buyers(p.b2b) + multiset(p.b2cl) + Bucketed(m, invoices, p.b2cs)
            && (forall n :: 0 <= n < |p.b2cs| ==> p.b2cs[n].1 == TotalBy(AmountsOf, Within(m, B2cs(p.b2cs[n].0), invoices)))
  {
    SectionsHoldAll(m, invoices);
    GroupingHolds(m, invoices);
    hide Grouped, Buyers, Bucketed, Within, TotalBy, HoldsBuyers, HoldsHsn;
  }

  // ------------------------------------------------------------------ order

  lemma {:induction false} WithinAppend(m: Masters, s: Section, a: seq<Invoice>, b: seq<Invoice>)
    requires CustomersKnown(m, a) && CustomersKnown(m, b)
    ensures CustomersKnown(m, a + b) && Within(m, s, a + b) == Within(m, s, a) + Within(m, s, b)
  {
    if |b| == 0 {
      assert a + b == a;
    } else {
      var most := b[..|b| - 1];
      assert a + b == a + most + [b[|b| - 1]];
      WithinAppend(m, s, a, most);
      WithinSnoc(m, s, a + most, b[|b| - 1]);
    }
  }

  lemma {:induction false} WithinPermutes(m: Masters, s: Section, a: seq<Invoice>, b: seq<Invoice>)
    requires CustomersKnown(m, a) && CustomersKnown(m, b) && multiset(a) == multiset(b)
    ensures multiset(Within(m, s, a)) == multiset(Within(m, s, b))
  {
    if |a| == 0 {
      assert |multiset(b)| == 0;
    } else {
      hide Within, SectionOf, CustomersKnown;
      var c, d := Sums.Extract(a, b);
      KnownParts(m, a, b, c, d);
      WithinPermutes(m, s, a[1..], c + d);
      WithinMoved(m, s, [a[0]], a[1..], c, d);
      assert a == [a[0]] + a[1..];
    }
  }

  lemma WithinMoved(m: Masters, s: Section, x: seq<Invoice>, rest: seq<Invoice>, c: seq<Invoice>, d: seq<Invoice>)
    requires CustomersKnown(m, x) && CustomersKnown(m, rest) && CustomersKnown(m, c) && CustomersKnown(m, d)
    requires CustomersKnown(m, c + d) && multiset(Within(m, s, rest)) == multiset(Within(m, s, c + d))
    ensures CustomersKnown(m, x + rest) && CustomersKnown(m, c + x + d)
    ensures multiset(Within(m, s, x + rest)) == multiset(Within(m, s, c + x + d))
  {
    hide Within, CustomersKnown;
    WithinAppend(m, s, x, rest);
    WithinAppend(m, s, c, x);
    WithinAppend(m, s, c + x, d);
    WithinAppend(m, s, c, d);
  }

  lemma KnownParts(m: Masters, a: seq<Invoice>, b: seq<Invoice>, c: seq<Invoice>, d: seq<Invoice>)
    requires CustomersKnown(m, a) && CustomersKnown(m, b) && |a| > 0 && b == c + [a[0]] + d
    ensures CustomersKnown(m, a[1..]) && CustomersKnown(m, [a[0]]) && CustomersKnown(m, c) && CustomersKnown(m, d)
    ensures CustomersKnown(m, c + [a[0]]) && CustomersKnown(m, c + d)
  {
    forall k | 0 <= k < |c| ensures c[k].customer in m.customers { assert c[k] == b[k]; }
    forall k | 0 <= k < |d| ensures d[k].customer in m.customers { assert d[k] == b[|c| + 1 + k]; }
  }

  lemma {:induction false} UnderAppend(m: Masters, k: HsnKey, a: seq<Invoice>, b: seq<Invoice>)
    ensures Under(m, k, a + b) == Under(m, k, a) + Under(m, k, b)
  {
    if |b| == 0 {
      assert a + b == a;
    } else {
      var most := b[..|b| - 1];
      assert a + b == a + most + [b[|b| - 1]];
      UnderAppend(m, k, a, most);
      UnderSnoc(m, k, a + most, b[|b| - 1]);
    }
  }

  lemma {:induction false} UnderPermutes(m: Masters, k: HsnKey, a: seq<Invoice>, b: seq<Invoice>)
    requires multiset(a) == multiset(b)
    ensures multiset(Under(m, k, a)) == multiset(Under(m, k, b))
  {
    if |a| == 0 {
      assert |multiset(b)| == 0;
    } else {
      hide Under, HsnKeyOf;
      var c, d := Sums.Extract(a, b);
      UnderPermutes(m, k, a[1..], c + d);
      assert a == [a[0]] + a[1..];
      UnderAppend(m, k, [a[0]], a[1..]);
      UnderAppend(m, k, c + [a[0]], d);
      UnderAppend(m, k, c, [a[0]]);
      UnderAppend(m, k, c, d);
    }
  }

  /** The value under a key, if it is there. */
  function Get<K(==), V>(d: seq<(K, V)>, k: K): seq<V> {
    var n := Find(d, k);
    if n < |d| then [d[n].1] else []
  }

  /** Two HSN lines alike in all but their number. */
  predicate SameLine(g: Hsn, h: Hsn) { h == g.(num := h.num) }

  /** The contents of a buyer's list, of a bucket and of an HSN line do not depend on
      the order of the invoices. */
  lemma GroupingIgnoresOrder(m: Masters, a: seq<Invoice>, b: seq<Invoice>, gstin: string, supply: SupplyKey,
                             code: HsnKey)
    requires CustomersKnown(m, a) && CustomersKnown(m, b) && multiset(a) == multiset(b)
    ensures var (p, q) := (Grouped(m, a), Grouped(m, b));
            && |Get(p.b2b, gstin)| == |Get(q.b2b, gstin)|
            && (Get(p.b2b, gstin) != [] ==> multiset(Get(p.b2b, gstin)[0]) == multiset(Get(q.b2b, gstin)[0]))
            && multiset(p.b2cl) == multiset(q.b2cl)
            && Get(p.b2cs, supply) == Get(q.b2cs, supply)
            && |Get(p.hsn, code)| == |Get(q.hsn, code)|
            && (Get(p.hsn, code) != [] ==> SameLine(Get(p.hsn, code)[0], Get(q.hsn, code)[0]))
  {
    GroupingHolds(m, a);
    GroupingHolds(m, b);
    WithinPermutes(m, B2cl, a, b);
    hide Grouped;
    BuyersAgree(m, a, b, Grouped(m, a).b2b, Grouped(m, b).b2b, gstin);
    BucketsAgree(m, a, b, Grouped(m, a).b2cs, Grouped(m, b).b2cs, supply);
    HsnAgree(m, a, b, Grouped(m, a).hsn, Grouped(m, b).hsn, code);
  }

  lemma EmptyTogether(s: seq<Invoice>, t: seq<Invoice>)
    requires multiset(s) == multiset(t)
    ensures s == [] <==> t == []
  {
    assert |multiset(s)| == |s| && |multiset(t)| == |t|;
  }

  lemma BuyersAgree(m: Masters, a: seq<Invoice>, b: seq<Invoice>, d: seq<(string, seq<Invoice>)>,
                    e: seq<(string, seq<Invoice>)>, k: string)
    requires CustomersKnown(m, a) && CustomersKnown(m, b) && multiset(a) == multiset(b)
    requires HoldsBuyers(m, a, d) && HoldsBuyers(m, b, e)
    ensures |Get(d, k)| == |Get(e, k)| && (Get(d, k) != [] ==> multiset(Get(d, k)[0]) == multiset(Get(e, k)[0]))
  {
    hide Within, Find;
    WithinPermutes(m, B2b(k), a, b);
    EmptyTogether(Within(m, B2b(k), a), Within(m, B2b(k), b));
    assert Find(d, k) < |d| ==> d[Find(d, k)].0 == k && BuyerFits(m, a, d[Find(d, k)]);
    assert Find(e, k) < |e| ==> e[Find(e, k)].0 == k && BuyerFits(m, b, e[Find(e, k)]);
  }

  lemma BucketsAgree(m: Masters, a: seq<Invoice>, b: seq<Invoice>, d: seq<(SupplyKey, Amounts)>,
                     e: seq<(SupplyKey, Amounts)>, k: SupplyKey)
    requires CustomersKnown(m, a) && CustomersKnown(m, b) && multiset(a) == multiset(b)
    requires HoldsBuckets(m, a, d) && HoldsBuckets(m, b, e)
    ensures Get(d, k) == Get(e, k)
  {
    hide Within, Find, TotalBy;
    WithinPermutes(m, B2cs(k), a, b);
    EmptyTogether(Within(m, B2cs(k), a), Within(m, B2cs(k), b));
    TotalPermutation(AmountsOf, Within(m, B2cs(k), a), Within(m, B2cs(k), b));
    assert Find(d, k) < |d| ==> d[Find(d, k)].0 == k;
    assert Find(e, k) < |e| ==> e[Find(e, k)].0 == k;
  }

  lemma HsnAgree(m: Masters, a: seq<Invoice>, b: seq<Invoice>, d: seq<(HsnKey, Hsn)>, e: seq<(HsnKey, Hsn)>, k: HsnKey)
    requires multiset(a) == multiset(b) && HoldsHsn(m, a, d) && HoldsHsn(m, b, e)
    ensures |Get(d, k)| == |Get(e, k)| && (Get(d, k) != [] ==> SameLine(Get(d, k)[0], Get(e, k)[0]))
  {
    hide Under, Find, TotalBy, Sums.SumBy;
    UnderPermutes(m, k, a, b);
    Sums.SumPermutation(QtyOf, Under(m, k, a), Under(m, k, b));
    Sums.SumPermutation(ValueOf, Under(m, k, a), Under(m, k, b));
    EmptyTogether(Under(m, k, a), Under(m, k, b));
    TotalPermutation(AmountsOf, Under(m, k, a), Under(m, k, b));
    var i, j := Find(d, k), Find(e, k);
    if i < |d| { assert d[i].0 == k && HsnLine(m, a, i, d[i]); }
    if j < |e| { assert e[j].0 == k && HsnLine(m, b, j, e[j]); }
  }
}
