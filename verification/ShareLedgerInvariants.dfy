/** What every ledger request keeps. */
module ShareLedgerInvariants {
  import opened ShareLedger

  // ----------------------------------------------------------- sums of rows

  lemma BalanceSnoc(entries: seq<Entry>, e: Entry, holder: Id, cls: Id)
    ensures Balance(entries + [e], holder, cls) == Balance(entries, holder, cls) + Part(e, holder, cls)
    ensures Issued(entries + [e], cls) == Issued(entries, cls) + ClassPart(e, cls)
  {
    assert (entries + [e])[..|entries|] == entries;
  }

  lemma {:induction false} BalanceAppend(entries: seq<Entry>, more: seq<Entry>, holder: Id, cls: Id)
    ensures Balance(entries + more, holder, cls) == Balance(entries, holder, cls) + Balance(more, holder, cls)
    ensures Issued(entries + more, cls) == Issued(entries, cls) + Issued(more, cls)
  {
    if |more| == 0 {
      assert entries + more == entries;
    } else {
      var most := more[..|more| - 1];
      assert entries + more == entries + most + [more[|more| - 1]];
      BalanceAppend(entries, most, holder, cls);
      BalanceSnoc(entries + most, more[|more| - 1], holder, cls);
    }
  }

  // ---------------------------------------------------------- class tables

  lemma {:induction false} ClassMapItem(items: seq<ClassItem>, code: Id) returns (i: nat)
    requires code in ClassMap(items)
    ensures i < |items| && items[i].code == code && items[i].authorised == ClassMap(items)[code]
  {
    i := |items| - 1;
    if items[i].code != code {
      i := ClassMapItem(items[..i], code);
    }
  }

  lemma {:induction false} ClassListed(items: seq<ClassItem>, i: nat)
    requires DistinctCodes(items) && i < |items|
    ensures items[i].code in ClassMap(items) && ClassMap(items)[items[i].code] == items[i].authorised
  {
    var last := |items| - 1;
    if i < last {
      ClassListed(items[..last], i);
      assert items[i].code != items[last].code;
    }
  }

  lemma {:induction false} AddedClass(classes: map<Id, ShareClass>, items: seq<ClassItem>, code: Id)
    ensures var m := AddClasses(classes, items);
            && (code in m <==> code in classes || code in ClassMap(items))
            && (code in classes ==> m[code] == classes[code])
            && (code in m && code !in classes ==> exists i :: 0 <= i < |items| && items[i].code == code && m[code] == NewClassRow(items[i]))
  {
    if |items| > 0 {
      var last := |items| - 1;
      AddedClass(classes, items[..last], code);
      var m := AddClasses(classes, items);
      if code in m && code !in classes {
        if code in AddClasses(classes, items[..last]) {
          var i :| 0 <= i < last && items[..last][i].code == code && m[code] == NewClassRow(items[..last][i]);
          assert items[i].code == code;
        } else {
          assert items[last].code == code;
        }
      }
    }
  }

  // ---------------------------------------------------- what a posting wrote

  predicate Names(changes: map<Id, Change>, transfers: map<Id, Transfer>, p: Posting) {
    match p
    case ChangePosted(id) => id in changes
    case TransferPosted(id) => id in transfers
  }

  predicate AllNamed(changes: map<Id, Change>, transfers: map<Id, Transfer>, posted: seq<Posting>) {
    forall k :: 0 <= k < |posted| ==> Names(changes, transfers, posted[k])
  }

  function EntriesOf(changes: map<Id, Change>, transfers: map<Id, Transfer>, p: Posting): seq<Entry>
    requires Names(changes, transfers, p)
  {
    match p
    case ChangePosted(id) => [ChangeEntry(changes[id])]
    case TransferPosted(id) => [OutEntry(transfers[id]), InEntry(transfers[id])]
  }

  /** The ledger rows of all postings, in order. */
  function Flat(changes: map<Id, Change>, transfers: map<Id, Transfer>, posted: seq<Posting>): seq<Entry>
    requires AllNamed(changes, transfers, posted)
  {
    if |posted| == 0 then []
    else
      Flat(changes, transfers, posted[..|posted| - 1]) + EntriesOf(changes, transfers, posted[|posted| - 1])
  }

  /** Requests keep what was asked; only their status moves. */
  ghost predicate SameRequests(changes: map<Id, Change>, transfers: map<Id, Transfer>, later: map<Id, Change>,
                               after: map<Id, Transfer>) {
    && (forall c :: c in changes ==> c in later && later[c].(status := changes[c].status) == changes[c])
    && (forall t :: t in transfers ==> t in after && after[t].(status := transfers[t].status) == transfers[t])
  }

  lemma {:induction false} FlatSame(
    changes: map<Id, Change>, transfers: map<Id, Transfer>, later: map<Id, Change>, after: map<Id, Transfer>, posted: seq<Posting>)
    requires AllNamed(changes, transfers, posted) && SameRequests(changes, transfers, later, after)
    ensures AllNamed(later, after, posted) && Flat(later, after, posted) == Flat(changes, transfers, posted)
  {
    forall k | 0 <= k < |posted| ensures Names(later, after, posted[k]) {
      assert Names(changes, transfers, posted[k]);
    }
    if |posted| > 0 {
      FlatSame(changes, transfers, later, after, posted[..|posted| - 1]);
      assert Names(changes, transfers, posted[|posted| - 1]);
    }
  }

  lemma {:induction false} FlatMember(changes: map<Id, Change>, transfers: map<Id, Transfer>, posted: seq<Posting>,
                                      e: Entry) returns (p: Posting)
    requires AllNamed(changes, transfers, posted) && e in Flat(changes, transfers, posted)
    ensures p in posted && Names(changes, transfers, p) && e in EntriesOf(changes, transfers, p)
  {
    var last := posted[|posted| - 1];
    if e in EntriesOf(changes, transfers, last) {
      p := last;
    } else {
      p := FlatMember(changes, transfers, posted[..|posted| - 1], e);
    }
  }

  // --------------------------------------------------------------- invariant

  ghost predicate NonNegative(entries: seq<Entry>) {
    forall holder, cls :: Balance(entries, holder, cls) >= 0
  }

  ghost predicate WithinAuthorised(entries: seq<Entry>, classes: map<Id, ShareClass>) {
    forall cls :: Issued(entries, cls) <= Authorised(classes, cls)
  }

  /** Idempotency keys are unique, and requests are as their forms demand. */
  ghost predicate RequestsFit(changes: map<Id, Change>, transfers: map<Id, Transfer>) {
    && (forall c, d :: c in changes && d in changes && changes[c].key == changes[d].key ==> c == d)
    && (forall t, u :: t in transfers && u in transfers && transfers[t].key == transfers[u].key ==> t == u)
    && (forall t :: t in transfers ==> transfers[t].input.quantity > 0 && transfers[t].input.source != transfers[t].input.target)
  }

  predicate IsPosted(changes: map<Id, Change>, transfers: map<Id, Transfer>, p: Posting) {
    match p
    case ChangePosted(id) => id in changes && changes[id].status == PostedRow
    case TransferPosted(id) => id in transfers && transfers[id].status == PostedRow
  }

  /** The posting events list exactly the POSTED requests, each once. */
  ghost predicate Listed(changes: map<Id, Change>, transfers: map<Id, Transfer>, posted: seq<Posting>) {
    && (forall p :: p in posted <==> IsPosted(changes, transfers, p))
    && (forall i, j :: 0 <= i < j < |posted| ==> posted[i] != posted[j])
  }

  ghost predicate Accounted(b: Books) {
    AllNamed(b.changes, b.transfers, b.posted) && b.entries == b.opening + Flat(b.changes, b.transfers, b.posted)
  }

  predicate IsHex(c: char) { c in "0123456789abcdef" }

  /** Keys of imported rows end in a hexadecimal digit. */
  ghost predicate ImportKeys(opening: seq<Entry>) {
    forall i :: 0 <= i < |opening| ==> |opening[i].key| > 0 && IsHex(opening[i].key[|opening[i].key| - 1])
  }

  predicate AllPresent(entries: seq<Entry>, cin: string, allocations: seq<Allocation>) {
    forall i :: 0 <= i < |allocations| ==> KeyTaken(entries, LedgerKey(cin, allocations[i]))
  }

  ghost predicate ImportHolds(entries: seq<Entry>, imported: Option<Bootstrap>) {
    imported.Some? ==> AllPresent(entries, imported.value.cin, imported.value.allocations)
  }

  ghost predicate Inv(b: Books) {
    && NonNegative(b.entries) && WithinAuthorised(b.entries, b.classes) && UniqueKeys(b.entries)
    && RequestsFit(b.changes, b.transfers) && Listed(b.changes, b.transfers, b.posted) && Accounted(b)
    && ImportKeys(b.opening) && ImportHolds(b.entries, b.imported)
  }

  // ------------------------------------------------------- keys never collide

  lemma SuffixDiffers(k: string, suffix: string, l: string, other: string)
    requires |suffix| > 0 && |other| > 0
    ensures suffix[|suffix| - 1] != other[|other| - 1] ==> k + suffix != l + other
  {
    assert (k + suffix)[|k + suffix| - 1] == suffix[|suffix| - 1];
    assert (l + other)[|l + other| - 1] == other[|other| - 1];
  }

  lemma SuffixDropped(k: string, l: string, suffix: string)
    requires k + suffix == l + suffix
    ensures k == l
  {
    assert |k| == |l|;
    assert k == (k + suffix)[..|k|];
    assert l == (l + suffix)[..|l|];
  }

  /** The three endings of a request's ledger keys tell them apart. */
  lemma EndingsDiffer(k: string, l: string)
    ensures k + ":POST" != l + ":OUT" && k + ":POST" != l + ":IN" && k + ":OUT" != l + ":IN"
    ensures k + ":POST" == l + ":POST" ==> k == l
    ensures k + ":OUT" == l + ":OUT" ==> k == l
    ensures k + ":IN" == l + ":IN" ==> k == l
  {
    PostIsNotOut(k, l);
    SuffixDiffers(k, ":POST", l, ":IN");
    SuffixDiffers(k, ":OUT", l, ":IN");
    if k + ":POST" == l + ":POST" { SuffixDropped(k, l, ":POST"); }
    if k + ":OUT" == l + ":OUT" { SuffixDropped(k, l, ":OUT"); }
    if k + ":IN" == l + ":IN" { SuffixDropped(k, l, ":IN"); }
  }

  lemma PostIsNotOut(k: string, l: string)
    ensures k + ":POST" != l + ":OUT"
  {
    var post, out := k + ":POST", l + ":OUT";
    assert post[|post| - 2] == 'S' && out[|out| - 2] == 'U';
  }

  lemma EndingIsNotHex(k: string, suffix: string)
    requires |suffix| > 0 && !IsHex(suffix[|suffix| - 1])
    ensures |k + suffix| > 0 && !IsHex((k + suffix)[|k + suffix| - 1])
  {
  }

  /** A key with an ending that no import uses belongs to a posting. */
  lemma OwnerOf(b: Books, key: string) returns (p: Posting, e: Entry)
    requires Accounted(b) && ImportKeys(b.opening) && KeyTaken(b.entries, key)
    requires |key| > 0 && !IsHex(key[|key| - 1])
    ensures p in b.posted && Names(b.changes, b.transfers, p) && e in EntriesOf(b.changes, b.transfers, p) && e.key == key
  {
    hide IsHex;
    var i :| 0 <= i < |b.entries| && b.entries[i].key == key;
    e := b.entries[i];
    var flat := Flat(b.changes, b.transfers, b.posted);
    assert i >= |b.opening|;
    assert e == flat[i - |b.opening|];
    p := FlatMember(b.changes, b.transfers, b.posted, e);
  }

  /** Posting a change never meets its own ledger key. */
  lemma ChangeKeyIsFree(b: Books, id: Id)
    requires Accounted(b) && ImportKeys(b.opening) && RequestsFit(b.changes, b.transfers) && Listed(b.changes, b.transfers, b.posted)
    requires id in b.changes && b.changes[id].status == StagedRow
    ensures !KeyTaken(b.entries, b.changes[id].key + ":POST")
  {
    var key := b.changes[id].key;
    EndingIsNotHex(key, ":POST");
    if KeyTaken(b.entries, key + ":POST") {
      hide Flat, AllNamed, Accounted, KeyTaken, ImportKeys, IsHex;
      var p, e := OwnerOf(b, key + ":POST");
      assert IsPosted(b.changes, b.transfers, p);
      match p
      case ChangePosted(c) => EndingsDiffer(key, b.changes[c].key);
      case TransferPosted(t) => EndingsDiffer(key, b.transfers[t].key);
    }
  }

  lemma TransferKeysAreFree(b: Books, id: Id)
    requires Accounted(b) && ImportKeys(b.opening) && RequestsFit(b.changes, b.transfers) && Listed(b.changes, b.transfers, b.posted)
    requires id in b.transfers && b.transfers[id].status == StagedRow
    ensures !KeyTaken(b.entries, b.transfers[id].key + ":OUT") && !KeyTaken(b.entries, b.transfers[id].key + ":IN")
  {
    TransferKeyIsFree(b, id, ":OUT");
    TransferKeyIsFree(b, id, ":IN");
  }

  lemma TransferKeyIsFree(b: Books, id: Id, ending: string)
    requires Accounted(b) && ImportKeys(b.opening) && RequestsFit(b.changes, b.transfers) && Listed(b.changes, b.transfers, b.posted)
    requires id in b.transfers && b.transfers[id].status == StagedRow && (ending == ":OUT" || ending == ":IN")
    ensures !KeyTaken(b.entries, b.transfers[id].key + ending)
  {
    var key := b.transfers[id].key;
    EndingIsNotHex(key, ending);
    if KeyTaken(b.entries, key + ending) {
      hide Flat, AllNamed, Accounted, KeyTaken, ImportKeys, IsHex;
      var p, e := OwnerOf(b, key + ending);
      assert IsPosted(b.changes, b.transfers, p);
      match p
      case ChangePosted(c) => EndingsDiffer(b.changes[c].key, key);
      case TransferPosted(t) => EndingsDiffer(key, b.transfers[t].key); EndingsDiffer(b.transfers[t].key, key);
    }
  }

  // ------------------------------------------------------------- the postings

  lemma AppendKeepsKeys(entries: seq<Entry>, e: Entry, cin: string, allocations: seq<Allocation>)
    requires UniqueKeys(entries) && !KeyTaken(entries, e.key)
    ensures UniqueKeys(entries + [e])
    ensures AllPresent(entries, cin, allocations) ==> AllPresent(entries + [e], cin, allocations)
  {
    forall i, j | 0 <= i < j < |entries + [e]|
      ensures (entries + [e])[i].key != (entries + [e])[j].key
    {
      if j == |entries| {
        assert entries[i].key != e.key;
      }
    }
    if AllPresent(entries, cin, allocations) {
      forall i | 0 <= i < |allocations| ensures KeyTaken(entries + [e], LedgerKey(cin, allocations[i])) {
        KeyStays(entries, [e], LedgerKey(cin, allocations[i]));
      }
    }
  }

  lemma KeyStays(entries: seq<Entry>, more: seq<Entry>, key: string)
    ensures KeyTaken(entries, key) ==> KeyTaken(entries + more, key)
  {
    if KeyTaken(entries, key) {
      var k :| 0 <= k < |entries| && entries[k].key == key;
      assert (entries + more)[k].key == key;
    }
  }

  lemma AppendKeepsImport(entries: seq<Entry>, e: Entry, imported: Option<Bootstrap>)
    requires UniqueKeys(entries) && !KeyTaken(entries, e.key) && ImportHolds(entries, imported)
    ensures UniqueKeys(entries + [e]) && ImportHolds(entries + [e], imported)
  {
    hide UniqueKeys, AllPresent, KeyTaken;
    if imported.Some? {
      AppendKeepsKeys(entries, e, imported.value.cin, imported.value.allocations);
    } else {
      AppendKeepsKeys(entries, e, "", []);
    }
  }

  /** One row within the guards keeps balances and totals in bounds. */
  lemma AppendKeepsBounds(entries: seq<Entry>, e: Entry, classes: map<Id, ShareClass>)
    requires NonNegative(entries) && WithinAuthorised(entries, classes)
    ensures Balance(entries, e.holder, e.cls) + e.delta >= 0 ==> NonNegative(entries + [e])
    ensures Issued(entries, e.cls) + e.delta <= Authorised(classes, e.cls) ==> WithinAuthorised(entries + [e], classes)
  {
    forall holder, cls
      ensures Balance(entries + [e], holder, cls) == Balance(entries, holder, cls) + Part(e, holder, cls)
      ensures Issued(entries + [e], cls) == Issued(entries, cls) + ClassPart(e, cls)
    {
      BalanceSnoc(entries, e, holder, cls);
    }
    hide Balance, Issued;
    assert forall cls :: Issued(entries, cls) <= Authorised(classes, cls);
  }

  /** The two rows of a transfer move shares between holders within one class. */
  lemma TransferKeepsBounds(entries: seq<Entry>, t: Transfer, classes: map<Id, ShareClass>)
    requires NonNegative(entries) && WithinAuthorised(entries, classes)
    requires t.input.quantity > 0 && Balance(entries, t.input.source, t.input.cls) >= t.input.quantity
    ensures var later := entries + [OutEntry(t)] + [InEntry(t)];
            && NonNegative(later) && WithinAuthorised(later, classes)
            && (forall cls :: Issued(later, cls) == Issued(entries, cls))
  {
    var middle := entries + [OutEntry(t)];
    hide Balance, Issued;
    forall cls
      ensures Issued(middle, cls) == Issued(entries, cls) + ClassPart(OutEntry(t), cls)
      ensures Issued(middle + [InEntry(t)], cls) == Issued(middle, cls) + ClassPart(InEntry(t), cls)
    {
      BalanceSnoc(entries, OutEntry(t), "", cls);
      BalanceSnoc(middle, InEntry(t), "", cls);
    }
    AppendKeepsBounds(entries, OutEntry(t), classes);
    assert Balance(middle, t.input.target, t.input.cls) >= 0;
    assert Issued(entries, t.input.cls) <= Authorised(classes, t.input.cls);
    AppendKeepsBounds(middle, InEntry(t), classes);
  }

  lemma ListedSnoc(
    changes: map<Id, Change>, transfers: map<Id, Transfer>, later: map<Id, Change>, after: map<Id, Transfer>,
    posted: seq<Posting>, p: Posting)
    requires Listed(changes, transfers, posted) && !IsPosted(changes, transfers, p)
    requires forall q :: IsPosted(later, after, q) <==> IsPosted(changes, transfers, q) || q == p
    ensures Listed(later, after, posted + [p])
  {
    hide IsPosted;
    assert p !in posted;
    assert forall q :: q in posted + [p] <==> q in posted || q == p;
  }

  lemma AccountedSnoc(b: Books, later: map<Id, Change>, after: map<Id, Transfer>, p: Posting)
    requires Accounted(b) && SameRequests(b.changes, b.transfers, later, after) && Names(later, after, p)
    ensures AllNamed(later, after, b.posted + [p])
    ensures b.entries + EntriesOf(later, after, p) == b.opening + Flat(later, after, b.posted + [p])
  {
    hide EntriesOf, Names, Flat;
    FlatSame(b.changes, b.transfers, later, after, b.posted);
    NamedSnoc(later, after, b.posted, p);
    FlatSnoc(later, after, b.posted, p);
    hide AllNamed, SameRequests;
    AppendedTwice(b.opening, Flat(b.changes, b.transfers, b.posted), EntriesOf(later, after, p));
  }

  lemma NamedSnoc(changes: map<Id, Change>, transfers: map<Id, Transfer>, posted: seq<Posting>, p: Posting)
    requires AllNamed(changes, transfers, posted) && Names(changes, transfers, p)
    ensures AllNamed(changes, transfers, posted + [p])
  {
    hide Names;
    forall k | 0 <= k < |posted + [p]| ensures Names(changes, transfers, (posted + [p])[k]) {
      if k < |posted| {
        assert (posted + [p])[k] == posted[k];
        assert Names(changes, transfers, posted[k]);
      }
    }
  }

  lemma FlatSnoc(changes: map<Id, Change>, transfers: map<Id, Transfer>, posted: seq<Posting>, p: Posting)
    requires AllNamed(changes, transfers, posted) && AllNamed(changes, transfers, posted + [p]) && Names(changes, transfers, p)
    ensures Flat(changes, transfers, posted + [p]) == Flat(changes, transfers, posted) + EntriesOf(changes, transfers, p)
  {
    hide EntriesOf, Names;
    assert (posted + [p])[..|posted|] == posted;
  }

  lemma AppendedTwice(a: seq<Entry>, b: seq<Entry>, c: seq<Entry>)
    ensures (a + b) + c == a + (b + c)
  {
  }

  lemma ChangeAccounts(b: Books, id: Id)
    requires Accounted(b) && Listed(b.changes, b.transfers, b.posted)
    requires id in b.changes && b.changes[id].status == StagedRow
    ensures var later := b.(entries := b.entries + [ChangeEntry(b.changes[id])],
                            changes := b.changes[id := b.changes[id].(status := PostedRow)],
                            posted := b.posted + [ChangePosted(id)]);
            Accounted(later) && Listed(later.changes, later.transfers, later.posted)
  {
    hide Flat, AllNamed, Listed;
    var changes := b.changes[id := b.changes[id].(status := PostedRow)];
    ListedSnoc(b.changes, b.transfers, changes, b.transfers, b.posted, ChangePosted(id));
    AccountedSnoc(b, changes, b.transfers, ChangePosted(id));
  }

  lemma TransferAccounts(b: Books, id: Id)
    requires Accounted(b) && Listed(b.changes, b.transfers, b.posted)
    requires id in b.transfers && b.transfers[id].status == StagedRow
    ensures var row := b.transfers[id];
            var later := b.(entries := b.entries + [OutEntry(row)] + [InEntry(row)],
                            transfers := b.transfers[id := row.(status := PostedRow)],
                            posted := b.posted + [TransferPosted(id)]);
            Accounted(later) && Listed(later.changes, later.transfers, later.posted)
  {
    hide Flat, AllNamed, Listed;
    var row := b.transfers[id];
    var transfers := b.transfers[id := row.(status := PostedRow)];
    ListedSnoc(b.changes, b.transfers, b.changes, transfers, b.posted, TransferPosted(id));
    AccountedSnoc(b, b.changes, transfers, TransferPosted(id));
    assert b.entries + [OutEntry(row)] + [InEntry(row)] == b.entries + [OutEntry(row), InEntry(row)];
  }

  lemma PostChangeKeeps(b: Books, id: Id)
    requires Inv(b)
    ensures Inv(PostChange(b, id).0) && PostChange(b, id).1 != Refused(500)
  {
    hide NonNegative, WithinAuthorised, UniqueKeys, Listed, Accounted, ImportKeys, ImportHolds, KeyTaken, Balance;
    hide Issued;
    if id in b.changes && b.changes[id].status == StagedRow {
      ChangeKeyIsFree(b, id);
      if PostChange(b, id).1 == Posted {
        AppendKeepsImport(b.entries, ChangeEntry(b.changes[id]), b.imported);
        AppendKeepsBounds(b.entries, ChangeEntry(b.changes[id]), b.classes);
        ChangeAccounts(b, id);
      }
    }
  }

  lemma PostTransferKeeps(b: Books, id: Id)
    requires Inv(b)
    ensures Inv(PostTransfer(b, id).0) && PostTransfer(b, id).1 != Refused(500)
    ensures forall cls :: Issued(PostTransfer(b, id).0.entries, cls) == Issued(b.entries, cls)
  {
    hide NonNegative, WithinAuthorised, UniqueKeys, Listed, Accounted, ImportKeys, ImportHolds, KeyTaken, Balance;
    hide Issued;
    if id in b.transfers && b.transfers[id].status == StagedRow {
      TransferKeysAreFree(b, id);
      if PostTransfer(b, id).1 == Posted {
        var row := b.transfers[id];
        AppendKeepsImport(b.entries, OutEntry(row), b.imported);
        InKeyStaysFree(b.entries, row);
        AppendKeepsImport(b.entries + [OutEntry(row)], InEntry(row), b.imported);
        TransferKeepsBounds(b.entries, row, b.classes);
        TransferAccounts(b, id);
      }
    }
  }

  lemma InKeyStaysFree(entries: seq<Entry>, t: Transfer)
    requires !KeyTaken(entries, t.key + ":IN")
    ensures !KeyTaken(entries + [OutEntry(t)], InEntry(t).key)
  {
    EndingsDiffer(t.key, t.key);
  }

  // -------------------------------------------------------- staging and rest

  lemma StageChangeKeeps(b: Books, key: string, i: ChangeInput, id: Id, approval: Id)
    requires Inv(b) && id !in b.changes
    ensures Inv(StageChange(b, key, i, id, approval).0)
  {
    hide NonNegative, WithinAuthorised, UniqueKeys, ImportKeys, ImportHolds, Flat, AllNamed;
    if StageChange(b, key, i, id, approval).1 == Staged {
      var changes := b.changes[id := Change(i, key, approval, StagedRow)];
      FlatSame(b.changes, b.transfers, changes, b.transfers, b.posted);
      hide SignFits;
      assert forall p :: IsPosted(changes, b.transfers, p) <==> IsPosted(b.changes, b.transfers, p);
    }
  }

  lemma StageTransferKeeps(b: Books, key: string, i: TransferInput, id: Id, approval: Id)
    requires Inv(b) && id !in b.transfers
    ensures Inv(StageTransfer(b, key, i, id, approval).0)
  {
    hide NonNegative, WithinAuthorised, UniqueKeys, ImportKeys, ImportHolds, Flat, AllNamed, Balance, RequestsFit, Listed;
    if StageTransfer(b, key, i, id, approval).1 == Staged {
      var row := Transfer(i, key, approval, StagedRow);
      FlatSame(b.changes, b.transfers, b.changes, b.transfers[id := row], b.posted);
      StagedTransferFits(b.changes, b.transfers, id, row);
      StagedTransferUnlisted(b.changes, b.transfers, id, row, b.posted);
    }
  }

  lemma StagedTransferFits(changes: map<Id, Change>, transfers: map<Id, Transfer>, id: Id, row: Transfer)
    requires RequestsFit(changes, transfers) && id !in transfers
    requires row.input.quantity > 0 && row.input.source != row.input.target
    requires forall t :: t in transfers ==> transfers[t].key != row.key
    ensures RequestsFit(changes, transfers[id := row])
  {
  }

  lemma StagedTransferUnlisted(
    changes: map<Id, Change>, transfers: map<Id, Transfer>, id: Id, row: Transfer, posted: seq<Posting>)
    requires Listed(changes, transfers, posted) && id !in transfers && row.status == StagedRow
    ensures Listed(changes, transfers[id := row], posted)
  {
    assert forall p :: IsPosted(changes, transfers[id := row], p) <==> IsPosted(changes, transfers, p);
  }

  lemma MasterDataKeeps(b: Books, code: Id, row: ShareClass, number: Id, name: string, approval: Id, approve: bool)
    requires Inv(b)
    ensures Inv(CreateClass(b, code, row).0) && Inv(CreateHolder(b, number, name).0) && Inv(Decide(b, approval, approve).0)
  {
    hide NonNegative, UniqueKeys, RequestsFit, Listed, ImportKeys, ImportHolds, Flat, AllNamed, Issued;
    var later := CreateClass(b, code, row).0;
    forall cls ensures Issued(later.entries, cls) <= Authorised(later.classes, cls) {
      assert Issued(b.entries, cls) <= Authorised(b.classes, cls);
    }
  }
}
