/** The ledger over whole runs, and the opening import. */
module ShareLedgerRuns {
  import opened ShareLedger
  import opened ShareLedgerInvariants

  // ------------------------------------------------------------ import rows

  lemma {:induction false} NewRowsCover(entries: seq<Entry>, cin: string, allocations: seq<Allocation>, i: nat)
    requires i < |allocations|
    ensures KeyTaken(entries + NewRows(entries, cin, allocations), LedgerKey(cin, allocations[i]))
  {
    hide LedgerKey, KeyTaken, RowsFor;
    var n := |allocations| - 1;
    var before, last := NewRows(entries, cin, allocations[..n]), RowsFor(entries, cin, allocations[n]);
    assert entries + NewRows(entries, cin, allocations) == entries + before + last;
    if i < n {
      NewRowsCover(entries, cin, allocations[..n], i);
      KeyStays(entries + before, last, LedgerKey(cin, allocations[i]));
    } else {
      RowIsThere(entries, before, cin, allocations[n]);
    }
  }

  lemma RowIsThere(entries: seq<Entry>, before: seq<Entry>, cin: string, a: Allocation)
    ensures KeyTaken(entries + before + RowsFor(entries, cin, a), LedgerKey(cin, a))
  {
    hide LedgerKey;
    var key := LedgerKey(cin, a);
    if KeyTaken(entries, key) {
      KeyStays(entries, before, key);
      KeyStays(entries + before, RowsFor(entries, cin, a), key);
    } else {
      assert (entries + before + RowsFor(entries, cin, a))[|entries| + |before|] == RowOf(cin, a);
    }
  }

  lemma {:induction false} NothingNew(entries: seq<Entry>, cin: string, allocations: seq<Allocation>)
    requires AllPresent(entries, cin, allocations)
    ensures NewRows(entries, cin, allocations) == []
  {
    hide LedgerKey, KeyTaken;
    if |allocations| > 0 {
      var n := |allocations| - 1;
      assert KeyTaken(entries, LedgerKey(cin, allocations[n]));
      NothingNew(entries, cin, allocations[..n]);
    }
  }

  predicate AllImports(rows: seq<Entry>) { forall i :: 0 <= i < |rows| ==> IsImport(rows[i]) }

  lemma AllImportsAppend(rows: seq<Entry>, more: seq<Entry>)
    requires AllImports(rows) && AllImports(more)
    ensures AllImports(rows + more)
  {
    hide IsImport;
  }

  lemma RowsForAreImports(entries: seq<Entry>, cin: string, a: Allocation)
    requires a.quantity > 0
    ensures AllImports(RowsFor(entries, cin, a))
  {
    hide IsImport, RowOf, LedgerKey, KeyTaken;
    RowIsImport(cin, a);
  }

  lemma {:induction false} NewRowsAreImports(entries: seq<Entry>, cin: string, allocations: seq<Allocation>)
    requires forall i :: 0 <= i < |allocations| ==> allocations[i].quantity > 0
    ensures AllImports(NewRows(entries, cin, allocations))
  {
    if |allocations| > 0 {
      hide AllImports, RowsFor;
      var most, last := allocations[..|allocations| - 1], allocations[|allocations| - 1];
      NewRowsAreImports(entries, cin, most);
      RowsForAreImports(entries, cin, last);
      AllImportsAppend(NewRows(entries, cin, most), RowsFor(entries, cin, last));
    }
  }

  predicate IsImport(e: Entry) { e.delta > 0 && |e.key| > 0 && IsHex(e.key[|e.key| - 1]) }

  lemma RowIsImport(cin: string, a: Allocation)
    requires a.quantity > 0
    ensures IsImport(RowOf(cin, a))
  {
    LedgerKeyEnds(cin, a);
  }

  lemma LedgerKeyEnds(cin: string, a: Allocation)
    ensures var key := LedgerKey(cin, a); |key| > 0 && IsHex(key[|key| - 1])
  {
    hide Decimal;
    var key := LedgerKey(cin, a);
    assert key[|key| - 1] == a.evidence[15];
    assert a.evidence[15] in a.evidence;
  }

  lemma {:induction false} PositiveRows(rows: seq<Entry>, holder: Id, cls: Id)
    requires AllImports(rows)
    ensures Balance(rows, holder, cls) >= 0
  {
    if |rows| > 0 {
      PositiveRows(rows[..|rows| - 1], holder, cls);
      assert IsImport(rows[|rows| - 1]);
    }
  }

  /** Into an empty ledger every allocation is posted. */
  lemma {:induction false} FirstImportIssues(cin: string, allocations: seq<Allocation>, cls: Id)
    ensures Issued(NewRows([], cin, allocations), cls) == ClassTotal(allocations, cls)
  {
    if |allocations| > 0 {
      var n := |allocations| - 1;
      FirstImportIssues(cin, allocations[..n], cls);
      hide LedgerKey;
      BalanceSnoc(NewRows([], cin, allocations[..n]), RowOf(cin, allocations[n]), "", cls);
    }
  }

  lemma {:induction false} NoTotalOutside(allocations: seq<Allocation>, cls: Id)
    requires forall i :: 0 <= i < |allocations| ==> allocations[i].cls != cls
    ensures ClassTotal(allocations, cls) == 0
  {
    if |allocations| > 0 {
      NoTotalOutside(allocations[..|allocations| - 1], cls);
    }
  }

  lemma NoneOutside(f: Bootstrap, cls: Id)
    requires AllocationsValid(f) && cls !in ClassMap(f.classes)
    ensures forall i :: 0 <= i < |f.allocations| ==> f.allocations[i].cls != cls
  {
    hide ClassMap, ClassTotal;
    forall i | 0 <= i < |f.allocations| ensures f.allocations[i].cls != cls {
      assert AllocationFits(f, f.allocations[i]);
    }
  }

  /** The class table after an import agrees with the file. */
  lemma ImportedClasses(b: Books, f: Bootstrap, cls: Id)
    requires Valid(f) && !Conflicts(b, f) && cls in ClassMap(f.classes)
    ensures Authorised(AddClasses(b.classes, f.classes), cls) == ClassMap(f.classes)[cls]
  {
    hide AddClasses, ClassMap, AllocationsValid;
    AddedClass(b.classes, f.classes, cls);
    var i := ClassMapItem(f.classes, cls);
    assert !ClassConflicts(b.classes, f.classes[i]);
  }

  lemma FirstImportTotals(b: Books, f: Bootstrap, cls: Id)
    requires Valid(f) && !Conflicts(b, f)
    ensures Issued(NewRows([], f.cin, f.allocations), cls) <= Authorised(AddClasses(b.classes, f.classes), cls)
  {
    FirstImportIssues(f.cin, f.allocations, cls);
    hide NewRows, Issued, AddClasses;
    if cls in ClassMap(f.classes) {
      ImportedClasses(b, f, cls);
    } else {
      NoneOutside(f, cls);
      NoTotalOutside(f.allocations, cls);
    }
  }

  lemma ImportsHaveKeys(rows: seq<Entry>)
    requires AllImports(rows)
    ensures ImportKeys(rows)
  {
    hide IsHex;
  }

  lemma FirstImportRows(f: Bootstrap)
    requires forall i :: 0 <= i < |f.allocations| ==> AllocationFits(f, f.allocations[i])
    ensures var rows := NewRows([], f.cin, f.allocations);
            ImportKeys(rows) && AllImports(rows)
  {
    hide NewRows, AllImports, ImportKeys, ClassMap;
    forall i | 0 <= i < |f.allocations| ensures f.allocations[i].quantity > 0 { assert AllocationFits(f, f.allocations[i]); }
    NewRowsAreImports([], f.cin, f.allocations);
    ImportsHaveKeys(NewRows([], f.cin, f.allocations));
  }

  lemma FirstImportFits(b: Books, f: Bootstrap)
    requires Valid(f) && !Conflicts(b, f)
    ensures var rows := NewRows([], f.cin, f.allocations);
            NonNegative(rows) && WithinAuthorised(rows, AddClasses(b.classes, f.classes)) && ImportKeys(rows)
  {
    FirstImportRows(f);
    hide NewRows, Balance, Issued, AddClasses, Conflicts, AllImports, ImportKeys, ClassMap, Authorised;
    var rows := NewRows([], f.cin, f.allocations);
    forall holder, cls ensures Balance(rows, holder, cls) >= 0 {
      PositiveRows(rows, holder, cls);
    }
    var classes := AddClasses(b.classes, f.classes);
    hide Valid;
    forall cls ensures Issued(rows, cls) <= Authorised(classes, cls) {
      FirstImportTotals(b, f, cls);
    }
  }

  lemma MoreClasses(entries: seq<Entry>, classes: map<Id, ShareClass>, f: Bootstrap)
    requires Valid(f) && WithinAuthorised(entries, classes)
    ensures WithinAuthorised(entries, AddClasses(classes, f.classes))
  {
    hide AddClasses, Issued, AllocationsValid, ClassMap;
    var more := AddClasses(classes, f.classes);
    forall cls ensures Issued(entries, cls) <= Authorised(more, cls) {
      assert Issued(entries, cls) <= Authorised(classes, cls);
      AddedClass(classes, f.classes, cls);
    }
  }

  lemma AllCovered(entries: seq<Entry>, cin: string, allocations: seq<Allocation>)
    ensures AllPresent(entries + NewRows(entries, cin, allocations), cin, allocations)
  {
    forall i | 0 <= i < |allocations|
      ensures KeyTaken(entries + NewRows(entries, cin, allocations), LedgerKey(cin, allocations[i]))
    {
      NewRowsCover(entries, cin, allocations, i);
    }
  }

  /** No posting can have happened while the ledger is empty. */
  lemma EmptyLedger(b: Books)
    requires Accounted(b) && b.entries == []
    ensures b.opening == [] && Flat(b.changes, b.transfers, b.posted) == []
  {
    hide Flat, AllNamed;
    assert |b.entries| == |b.opening| + |Flat(b.changes, b.transfers, b.posted)|;
  }

  /** An import into an empty ledger, or the same file applied again. */
  predicate MayImport(b: Books, f: Bootstrap) {
    b.entries == [] || b.imported == Some(f)
  }

  lemma ImportKeeps(b: Books, f: Bootstrap)
    requires Inv(b) && MayImport(b, f)
    ensures Inv(ApplyConfig(b, f).0)
  {
    hide Valid, Conflicts, NewRows, AddClasses, NonNegative, WithinAuthorised, UniqueKeys, RequestsFit, Listed;
    hide Accounted;
    hide ImportKeys, AllPresent;
    if ApplyConfig(b, f).1.Imported? {
      var rows := NewRows(b.entries, f.cin, f.allocations);
      AllCovered(b.entries, f.cin, f.allocations);
      var later := b.(entries := b.entries + rows, opening := b.opening + rows);
      if b.entries == [] {
        EmptyLedger(b);
        FirstImportFits(b, f);
        assert later.entries == rows == later.opening;
        OpeningAccounts(b, rows);
      } else {
        NothingNew(b.entries, f.cin, f.allocations);
        MoreClasses(b.entries, b.classes, f);
        assert later.entries == b.entries && later.opening == b.opening;
      }
      SameAccounts(later, ApplyConfig(b, f).0);
    }
  }

  lemma OpeningAccounts(b: Books, rows: seq<Entry>)
    requires Accounted(b) && b.entries == []
    ensures Accounted(b.(entries := b.entries + rows, opening := b.opening + rows))
  {
    EmptyLedger(b);
    hide Flat, AllNamed;
  }

  lemma SameAccounts(b: Books, later: Books)
    requires Accounted(b)
    requires later.entries == b.entries && later.opening == b.opening && later.posted == b.posted
    requires later.changes == b.changes && later.transfers == b.transfers
    ensures Accounted(later)
  {
  }

  lemma FileClassesAgree(b: Books, f: Bootstrap)
    requires Valid(f) && !Conflicts(b, f)
    ensures var classes := AddClasses(b.classes, f.classes);
            forall i :: 0 <= i < |f.classes| ==>
              f.classes[i].code in classes && IsSameClass(classes[f.classes[i].code], f.classes[i])
  {
    var classes := AddClasses(b.classes, f.classes);
    hide AddClasses, ClassMap, AllocationsValid;
    forall i | 0 <= i < |f.classes|
      ensures f.classes[i].code in classes && IsSameClass(classes[f.classes[i].code], f.classes[i])
    {
      ClassListed(f.classes, i);
      AddedClass(b.classes, f.classes, f.classes[i].code);
      assert !ClassConflicts(b.classes, f.classes[i]);
    }
  }

  lemma {:induction false} SameClasses(classes: map<Id, ShareClass>, items: seq<ClassItem>)
    requires forall i :: 0 <= i < |items| ==> items[i].code in classes
    ensures AddClasses(classes, items) == classes
  {
    if |items| > 0 {
      SameClasses(classes, items[..|items| - 1]);
    }
  }

  // --------------------------------------------------------------------- runs

  datatype Event =
    | NewClass(code: Id, row: ShareClass)
    | NewHolder(number: Id, name: string)
    | StagesChange(key: string, change: ChangeInput, id: Id, approval: Id)
    | StagesTransfer(key: string, transfer: TransferInput, id: Id, approval: Id)
    | Decides(approval: Id, approve: bool)
    | PostsChange(id: Id)
    | PostsTransfer(id: Id)
    | Imports(file: Bootstrap)

  function Step(b: Books, e: Event): (Books, Reply) {
    match e
    case NewClass(code, row) => CreateClass(b, code, row)
    case NewHolder(number, name) => CreateHolder(b, number, name)
    case StagesChange(key, change, id, approval) => StageChange(b, key, change, id, approval)
    case StagesTransfer(key, transfer, id, approval) => StageTransfer(b, key, transfer, id, approval)
    case Decides(approval, approve) => Decide(b, approval, approve)
    case PostsChange(id) => PostChange(b, id)
    case PostsTransfer(id) => PostTransfer(b, id)
    case Imports(file) => ApplyConfig(b, file)
  }

  /** Drawn identifiers are new; imports go into an empty ledger or repeat the last one. */
  predicate Possible(b: Books, e: Event) {
    match e
    case StagesChange(_, _, id, approval) => id !in b.changes && approval !in b.approvals
    case StagesTransfer(_, _, id, approval) => id !in b.transfers && approval !in b.approvals
    case Imports(file) => MayImport(b, file)
    case _ => true
  }

  predicate IsRun(books: seq<Books>, events: seq<Event>) {
    && |books| == |events| + 1 && books[0] == EMPTY
    && forall k :: 0 <= k < |events| ==> Possible(books[k], events[k]) && books[k + 1] == Step(books[k], events[k]).0
  }

  lemma StepKeeps(b: Books, e: Event)
    requires Inv(b) && Possible(b, e)
    ensures Inv(Step(b, e).0)
  {
    hide Inv, CreateClass, CreateHolder, StageChange, StageTransfer, Decide, PostChange, PostTransfer, ApplyConfig;
    match e
    case NewClass(code, row) => MasterDataKeeps(b, code, row, "", "", "", true);
    case NewHolder(number, name) => MasterDataKeeps(b, "", ShareClass(0, "", 0), number, name, "", true);
    case StagesChange(key, change, id, approval) => StageChangeKeeps(b, key, change, id, approval);
    case StagesTransfer(key, transfer, id, approval) => StageTransferKeeps(b, key, transfer, id, approval);
    case Decides(approval, approve) => MasterDataKeeps(b, "", ShareClass(0, "", 0), "", "", approval, approve);
    case PostsChange(id) => PostChangeKeeps(b, id);
    case PostsTransfer(id) => PostTransferKeeps(b, id);
    case Imports(file) => ImportKeeps(b, file);
  }

  lemma StartsWell()
    ensures Inv(EMPTY)
  {
    forall holder, cls ensures Balance([], holder, cls) == 0 && Issued([], cls) == 0 {}
  }

  lemma {:induction false} RunKeeps(books: seq<Books>, events: seq<Event>, n: nat)
    requires IsRun(books, events) && n <= |events|
    ensures Inv(books[n])
  {
    hide Step, Inv, Possible;
    StartsWell();
    if n > 0 {
      RunKeeps(books, events, n - 1);
      StepKeeps(books[n - 1], events[n - 1]);
    }
  }

  // ---------------------------------------------------------------- promises

  /** In every run no holder's balance is negative and no class exceeds its authorised shares. */
  lemma BalancesStayInBounds(books: seq<Books>, events: seq<Event>, n: nat, holder: Id, cls: Id)
    requires IsRun(books, events) && n <= |events|
    ensures Balance(books[n].entries, holder, cls) >= 0
    ensures Issued(books[n].entries, cls) <= Authorised(books[n].classes, cls)
  {
    hide Step, Possible, Balance, Issued;
    RunKeeps(books, events, n);
    assert Issued(books[n].entries, cls) <= Authorised(books[n].classes, cls);
  }

  /** What one posted request did to one holding. */
  function Effect(b: Books, p: Posting, holder: Id, cls: Id): int
    requires Names(b.changes, b.transfers, p)
  {
    match p
    case ChangePosted(id) =>
      var i := b.changes[id].input;
      if i.holder == holder && i.cls == cls then i.delta else 0
    case TransferPosted(id) =>
      var i := b.transfers[id].input;
      if i.cls != cls then 0 else if i.source == holder then -i.quantity else if i.target == holder then i.quantity else 0
  }

  function Effects(b: Books, posted: seq<Posting>, holder: Id, cls: Id): int
    requires AllNamed(b.changes, b.transfers, posted)
  {
    if |posted| == 0 then 0
    else Effects(b, posted[..|posted| - 1], holder, cls) + Effect(b, posted[|posted| - 1], holder, cls)
  }

  lemma RowsBalance(d: Entry, e: Entry, holder: Id, cls: Id)
    ensures Balance([d], holder, cls) == Part(d, holder, cls)
    ensures Balance([d, e], holder, cls) == Part(d, holder, cls) + Part(e, holder, cls)
  {
    BalanceSnoc([], d, holder, cls);
    BalanceSnoc([d], e, holder, cls);
    assert [] + [d] == [d] && [d] + [e] == [d, e];
  }

  lemma PostingBalance(b: Books, p: Posting, holder: Id, cls: Id)
    requires Names(b.changes, b.transfers, p) && RequestsFit(b.changes, b.transfers)
    ensures Balance(EntriesOf(b.changes, b.transfers, p), holder, cls) == Effect(b, p, holder, cls)
  {
    hide Balance, RequestsFit;
    match p
    case ChangePosted(id) =>
      var row := ChangeEntry(b.changes[id]);
      RowsBalance(row, row, holder, cls);
    case TransferPosted(id) =>
      RowsBalance(OutEntry(b.transfers[id]), InEntry(b.transfers[id]), holder, cls);
      TransferFits(b, id);
  }

  lemma TransferFits(b: Books, id: Id)
    requires id in b.transfers && RequestsFit(b.changes, b.transfers)
    ensures b.transfers[id].input.source != b.transfers[id].input.target
  {
  }

  lemma {:induction false} FlatBalance(b: Books, posted: seq<Posting>, holder: Id, cls: Id)
    requires AllNamed(b.changes, b.transfers, posted) && RequestsFit(b.changes, b.transfers)
    ensures Balance(Flat(b.changes, b.transfers, posted), holder, cls) == Effects(b, posted, holder, cls)
  {
    hide RequestsFit, EntriesOf, Effect, Names;
    if |posted| > 0 {
      var most, last := posted[..|posted| - 1], posted[|posted| - 1];
      FlatBalance(b, most, holder, cls);
      assert Names(b.changes, b.transfers, last);
      PostingBalance(b, last, holder, cls);
      BalanceAppend(Flat(b.changes, b.transfers, most), EntriesOf(b.changes, b.transfers, last), holder, cls);
    }
  }

  /** Every balance is the opening plus the effect of each POSTED request, each counted
      exactly once: `posted` lists the POSTED requests without repetition. */
  lemma BalanceIsOpeningPlusPosted(books: seq<Books>, events: seq<Event>, n: nat, holder: Id, cls: Id)
    requires IsRun(books, events) && n <= |events|
    ensures var b := books[n];
            && (forall p :: p in b.posted <==> IsPosted(b.changes, b.transfers, p))
            && (forall i, j :: 0 <= i < j < |b.posted| ==> b.posted[i] != b.posted[j])
            && AllNamed(b.changes, b.transfers, b.posted)
            && Balance(b.entries, holder, cls) == Balance(b.opening, holder, cls) + Effects(b, b.posted, holder, cls)
  {
    hide Step, Possible, Balance, Flat, AllNamed, Effects, NonNegative, WithinAuthorised, IsPosted, Names;
    RunKeeps(books, events, n);
    var b := books[n];
    FlatBalance(b, b.posted, holder, cls);
    BalanceAppend(b.opening, Flat(b.changes, b.transfers, b.posted), holder, cls);
  }

  /** Class totals move only by posted changes and imports: through any other requests,
      posted transfers among them, every total stays as it was. */
  lemma {:induction false} TransfersKeepTotals(books: seq<Books>, events: seq<Event>, i: nat, j: nat, cls: Id)
    requires IsRun(books, events) && i <= j <= |events|
    requires forall k :: i <= k < j ==> !events[k].PostsChange? && !events[k].Imports?
    ensures Issued(books[j].entries, cls) == Issued(books[i].entries, cls)
    decreases j
  {
    hide Inv, Issued, Step, Possible;
    if i < j {
      TransfersKeepTotals(books, events, i, j - 1, cls);
      RunKeeps(books, events, j - 1);
      TotalsStep(books[j - 1], events[j - 1], cls);
    }
  }

  lemma TotalsStep(b: Books, e: Event, cls: Id)
    requires Inv(b) && !e.PostsChange? && !e.Imports?
    ensures Issued(Step(b, e).0.entries, cls) == Issued(b.entries, cls)
  {
    hide Inv, Issued, Balance, PostTransfer, KeyTaken, SignFits;
    if e.PostsTransfer? {
      PostTransferKeeps(b, e.id);
    }
  }

  /** The unique key of the ledger is never what a post fails on. */
  lemma PostsNeverCollide(books: seq<Books>, events: seq<Event>, n: nat, id: Id)
    requires IsRun(books, events) && n <= |events|
    ensures PostChange(books[n], id).1 != Refused(500) && PostTransfer(books[n], id).1 != Refused(500)
  {
    hide Inv, PostChange, PostTransfer, Step, Possible;
    RunKeeps(books, events, n);
    PostChangeKeeps(books[n], id);
    PostTransferKeeps(books[n], id);
  }

  lemma StepAppends(b: Books, e: Event)
    ensures b.entries <= Step(b, e).0.entries
    ensures forall p :: IsPosted(b.changes, b.transfers, p) && Possible(b, e) ==> IsPosted(Step(b, e).0.changes, Step(b, e).0.transfers, p)
  {
    hide Balance, Issued, KeyTaken, NewRows, AddClasses, Valid, Conflicts, UniqueKeys, SignFits;
  }

  /** The ledger is append-only, and a POSTED request stays POSTED. */
  lemma {:induction false} LedgerOnlyGrows(books: seq<Books>, events: seq<Event>, i: nat, j: nat, p: Posting)
    requires IsRun(books, events) && i <= j <= |events|
    ensures books[i].entries <= books[j].entries
    ensures IsPosted(books[i].changes, books[i].transfers, p) ==> IsPosted(books[j].changes, books[j].transfers, p)
    decreases j
  {
    hide Step, Possible, IsPosted;
    if i < j {
      LedgerOnlyGrows(books, events, i, j - 1, p);
      StepAppends(books[j - 1], events[j - 1]);
    }
  }

  // -------------------------------------------------------- the same file again

  /** What an import leaves behind for the next application of its file. */
  predicate Loaded(b: Books, f: Bootstrap) {
    && (!IsPlaceholder(f.cin) ==> b.cin == Some(f.cin))
    && (forall i :: 0 <= i < |f.holders| ==> f.holders[i].number in b.holders && b.holders[f.holders[i].number] == f.holders[i].name)
    && (forall i :: 0 <= i < |f.classes| ==>
          f.classes[i].code in b.classes && IsSameClass(b.classes[f.classes[i].code], f.classes[i]))
    && AllPresent(b.entries, f.cin, f.allocations) && UniqueKeys(b.entries)
  }

  lemma ImportLoads(b: Books, f: Bootstrap)
    requires ApplyConfig(b, f).1.Imported?
    ensures Valid(f) && Loaded(ApplyConfig(b, f).0, f)
  {
    hide NewRows, UniqueKeys, AllPresent, AddClasses, Valid, Conflicts;
    AllCovered(b.entries, f.cin, f.allocations);
    FileClassesAgree(b, f);
    FileHoldersAgree(b, f);
  }

  lemma FileHoldersAgree(b: Books, f: Bootstrap)
    requires Valid(f) && !Conflicts(b, f)
    ensures var holders := AddHolders(b.holders, f.holders);
            forall i :: 0 <= i < |f.holders| ==>
              f.holders[i].number in holders && holders[f.holders[i].number] == f.holders[i].name
  {
    hide AllocationsValid, ClassesValid, AddHolders;
    forall i | 0 <= i < |f.holders|
      ensures f.holders[i].number in AddHolders(b.holders, f.holders)
      ensures AddHolders(b.holders, f.holders)[f.holders[i].number] == f.holders[i].name
    {
      assert !HolderConflicts(b.holders, f.holders[i]);
      AddedHolder(b.holders, f.holders, i);
    }
  }

  lemma {:induction false} AddedHolder(holders: map<Id, string>, items: seq<HolderItem>, i: nat)
    requires i < |items| && DistinctNumbers(items)
    ensures var m, item := AddHolders(holders, items), items[i];
            item.number in m && m[item.number] == if item.number in holders then holders[item.number] else item.name
  {
    var last := |items| - 1;
    if i < last {
      AddedHolder(holders, items[..last], i);
      assert items[i].number != items[last].number;
    } else {
      HoldersStay(holders, items[..last], items[last].number);
    }
  }

  /** Holders on record keep their name, and only listed numbers are added. */
  lemma {:induction false} HoldersStay(holders: map<Id, string>, items: seq<HolderItem>, number: Id)
    ensures var m := AddHolders(holders, items);
            && (number in holders ==> number in m && m[number] == holders[number])
            && (number in m && number !in holders ==> HasHolder(items, number))
  {
    if |items| > 0 {
      var last := |items| - 1;
      HoldersStay(holders, items[..last], number);
      if HasHolder(items[..last], number) {
        var k :| 0 <= k < last && items[..last][k].number == number;
        assert items[k].number == number;
      }
    }
  }

  lemma {:induction false} SameHolders(holders: map<Id, string>, items: seq<HolderItem>)
    requires forall i :: 0 <= i < |items| ==> items[i].number in holders
    ensures AddHolders(holders, items) == holders
  {
    if |items| > 0 {
      SameHolders(holders, items[..|items| - 1]);
    }
  }

  lemma PresentStays(entries: seq<Entry>, later: seq<Entry>, cin: string, allocations: seq<Allocation>)
    requires AllPresent(entries, cin, allocations) && entries <= later
    ensures AllPresent(later, cin, allocations)
  {
    hide LedgerKey, KeyTaken;
    assert later == entries + later[|entries|..];
    forall i | 0 <= i < |allocations| ensures KeyTaken(later, LedgerKey(cin, allocations[i])) {
      KeyStays(entries, later[|entries|..], LedgerKey(cin, allocations[i]));
    }
  }

  /** Master data is only added to, whatever the request. */
  lemma StepAdds(b: Books, e: Event)
    ensures var t := Step(b, e).0;
            && b.entries <= t.entries && (b.cin.Some? && !IsPlaceholder(b.cin.value) ==> t.cin == b.cin)
            && (forall h :: h in b.holders ==> h in t.holders && t.holders[h] == b.holders[h])
            && (forall c :: c in b.classes ==> c in t.classes && t.classes[c] == b.classes[c])
  {
    hide Balance, Issued, KeyTaken, NewRows, AddClasses, AddHolders, Valid, ClassesConflict, HoldersConflict, UniqueKeys;
    hide SignFits, IsPlaceholder;
    if e.Imports? {
      forall h | h in b.holders
        ensures h in AddHolders(b.holders, e.file.holders) && AddHolders(b.holders, e.file.holders)[h] == b.holders[h]
      {
        HoldersStay(b.holders, e.file.holders, h);
      }
      forall c | c in b.classes
        ensures c in AddClasses(b.classes, e.file.classes) && AddClasses(b.classes, e.file.classes)[c] == b.classes[c]
      {
        AddedClass(b.classes, e.file.classes, c);
      }
    }
  }

  /** The ledger's own unique key holds after any request, since a row that breaks it is refused. */
  lemma StepKeepsKeys(b: Books, e: Event)
    requires UniqueKeys(b.entries)
    ensures UniqueKeys(Step(b, e).0.entries)
  {
    hide Balance, Issued, NewRows, AddClasses, Valid, Conflicts, SignFits, KeyTaken, UniqueKeys;
    match e
    case PostsChange(id) =>
      if id in b.changes && !KeyTaken(b.entries, b.changes[id].key + ":POST") {
        AppendKeepsKeys(b.entries, ChangeEntry(b.changes[id]), "", []);
      }
    case PostsTransfer(id) =>
      if id in b.transfers && !KeyTaken(b.entries, b.transfers[id].key + ":OUT") {
        var out := OutEntry(b.transfers[id]);
        AppendKeepsKeys(b.entries, out, b.transfers[id].key + ":IN", []);
        EndingsOfTransfer(b.transfers[id].key);
        NotTakenSnoc(b.entries, out, b.transfers[id].key + ":IN");
        if !KeyTaken(b.entries, b.transfers[id].key + ":IN") {
          AppendKeepsKeys(b.entries + [out], InEntry(b.transfers[id]), "", []);
        }
      }
    case _ =>
  }

  lemma EndingsOfTransfer(key: string)
    ensures key + ":OUT" != key + ":IN"
  {
    assert |key + ":OUT"| == |key| + 4 && |key + ":IN"| == |key| + 3;
  }

  lemma NotTakenSnoc(entries: seq<Entry>, e: Entry, key: string)
    ensures KeyTaken(entries + [e], key) ==> KeyTaken(entries, key) || e.key == key
  {
  }

  /** Any requests one after another, from any books. */
  predicate InSequence(books: seq<Books>, events: seq<Event>) {
    |books| == |events| + 1 && forall k :: 0 <= k < |events| ==> books[k + 1] == Step(books[k], events[k]).0
  }

  lemma {:induction false} LoadedStays(books: seq<Books>, events: seq<Event>, i: nat, j: nat, f: Bootstrap)
    requires InSequence(books, events) && i <= j <= |events| && Loaded(books[i], f)
    ensures Loaded(books[j], f)
    decreases j
  {
    hide Step, AllPresent, UniqueKeys;
    if i < j {
      LoadedStays(books, events, i, j - 1, f);
      StepAdds(books[j - 1], events[j - 1]);
      StepKeepsKeys(books[j - 1], events[j - 1]);
      PresentStays(books[j - 1].entries, books[j].entries, f.cin, f.allocations);
    }
  }

  /** Applying the file posts nothing: every allocation is skipped, and of the books only the
      note of the last file changes. */
  predicate AddsNothing(b: Books, f: Bootstrap) {
    var (later, reply) := ApplyConfig(b, f);
    && later.entries == b.entries
    && (reply.Imported? ==> reply == Imported(0, |f.allocations|))
    && (!IsPlaceholder(f.cin) ==> (later, reply) == (b.(imported := Some(f)), Imported(0, |f.allocations|)))
  }

  lemma LoadedPostsNothing(b: Books, f: Bootstrap)
    requires Valid(f) && Loaded(b, f)
    ensures AddsNothing(b, f)
  {
    hide Valid, NewRows, AddClasses, AddHolders, UniqueKeys, AllPresent, IsPlaceholder;
    NothingNew(b.entries, f.cin, f.allocations);
    assert Conflicts(b, f) == CinConflicts(b.cin, f);
    SameClasses(b.classes, f.classes);
    SameHolders(b.holders, f.holders);
    assert b.entries + [] == b.entries && b.opening + [] == b.opening;
  }

  /** Once a file was imported, applying it again at any later point posts nothing: every
      allocation is skipped, and nothing changes but the note of which file came last,
      whatever the books held before and was staged, posted or imported in between. (A file
      with a placeholder for the company number is refused instead if another one has set
      the number since.) */
  lemma ReapplyPostsNothing(books: seq<Books>, events: seq<Event>, i: nat, j: nat, f: Bootstrap)
    requires InSequence(books, events) && i < j <= |events|
    requires events[i] == Imports(f) && Step(books[i], events[i]).1.Imported?
    ensures AddsNothing(books[j], f)
  {
    hide ApplyConfig, Valid, Loaded, AddsNothing, Step;
    StepImports(books[i], f);
    ImportLoads(books[i], f);
    LoadedStays(books, events, i + 1, j, f);
    LoadedPostsNothing(books[j], f);
  }

  lemma StepImports(b: Books, f: Bootstrap)
    ensures Step(b, Imports(f)) == ApplyConfig(b, f)
  {
    hide ApplyConfig;
  }

  // ------------------------------------------------------ imports over holdings

  lemma {:induction false} NothingNewOutside(entries: seq<Entry>, cin: string, allocations: seq<Allocation>, cls: Id)
    requires forall i :: 0 <= i < |allocations| ==> allocations[i].cls != cls
    ensures Issued(NewRows(entries, cin, allocations), cls) == 0
  {
    hide LedgerKey, KeyTaken;
    if |allocations| > 0 {
      var n := |allocations| - 1;
      var before := NewRows(entries, cin, allocations[..n]);
      NothingNewOutside(entries, cin, allocations[..n], cls);
      if RowsFor(entries, cin, allocations[n]) == [] {
        assert NewRows(entries, cin, allocations) == before;
      } else {
        BalanceSnoc(before, RowOf(cin, allocations[n]), "", cls);
      }
    }
  }

  /** What a class has issued once the new rows of a file are in. */
  function IssuedWith(b: Books, f: Bootstrap, cls: Id): int {
    Issued(b.entries, cls) + Issued(NewRows(b.entries, f.cin, f.allocations), cls)
  }

  /** The exact condition for an import over holdings: from a ledger that is within its
      authorised shares it stays within them if and only if each class of the file has
      room for the rows the ledger does not hold yet. */
  lemma ImportFitsExactly(b: Books, f: Bootstrap)
    requires WithinAuthorised(b.entries, b.classes) && ApplyConfig(b, f).1.Imported?
    ensures WithinAuthorised(ApplyConfig(b, f).0.entries, ApplyConfig(b, f).0.classes)
       <==> forall cls :: cls in ClassMap(f.classes) ==> IssuedWith(b, f, cls) <= ClassMap(f.classes)[cls]
  {
    var later := ApplyConfig(b, f).0;
    assert later.entries == b.entries + NewRows(b.entries, f.cin, f.allocations);
    assert Valid(f) && !Conflicts(b, f) && later.classes == AddClasses(b.classes, f.classes);
    hide ApplyConfig, Issued, Balance, ClassMap, AddClasses, Conflicts, NewRows, Authorised;
    forall cls
      ensures Issued(later.entries, cls) == IssuedWith(b, f, cls)
      ensures if cls in ClassMap(f.classes) then Authorised(later.classes, cls) == ClassMap(f.classes)[cls]
              else Issued(later.entries, cls) <= Authorised(later.classes, cls)
    {
      BalanceAppend(b.entries, NewRows(b.entries, f.cin, f.allocations), "", cls);
      if cls in ClassMap(f.classes) {
        ImportedClasses(b, f, cls);
      } else {
        NoneOutside(f, cls);
        NothingNewOutside(b.entries, f.cin, f.allocations, cls);
        AuthorisedBefore(b.classes, f.classes, cls);
        assert Issued(b.entries, cls) <= Authorised(b.classes, cls);
      }
    }
    hide Valid, IssuedWith;
  }

  lemma AuthorisedBefore(classes: map<Id, ShareClass>, items: seq<ClassItem>, cls: Id)
    requires cls !in ClassMap(items)
    ensures Authorised(AddClasses(classes, items), cls) == Authorised(classes, cls)
  {
    hide AddClasses, ClassMap;
    AddedClass(classes, items, cls);
  }

  const FIRST_SHARE := Allocation("1", "EQ", 1, "2024-04-01", true, "M", "0000000000000000")
  const ONE_CLASS := ClassItem("EQ", 1, "E", 10.0, 1000, "A")

  function OneShareFile(a: Allocation): Bootstrap {
    Bootstrap("C", Entity("N", "O", "29", "S"), [ONE_CLASS], [HolderItem("1", "H", "R")], [a])
  }

  lemma HeldLedger() returns (b: Books, f: Bootstrap, first: Allocation)
    ensures f == OneShareFile(first) && first == FIRST_SHARE
    ensures b == ApplyConfig(EMPTY, f).0
    ensures Inv(b) && Loaded(b, f) && b.imported == Some(f) && b.entries == [RowOf("C", first)]
    ensures b.classes == AddClasses(map[], f.classes)
  {
    hide ApplyConfig, Inv, Valid, LedgerKey, AddClasses, ClassMap, Conflicts, Loaded;
    first := FIRST_SHARE;
    f := OneShareFile(first);
    b := ApplyConfig(EMPTY, f).0;
    OneAllocation(f, first);
    StartsWell();
    ImportKeeps(EMPTY, f);
    EmptyHasNoConflict(f);
    OneRowImports(EMPTY, f, first);
    ImportLoads(EMPTY, f);
    assert [] + [RowOf("C", first)] == [RowOf("C", first)];
  }

  lemma EmptyHasNoConflict(f: Bootstrap)
    ensures !Conflicts(EMPTY, f)
  {
  }

  lemma RealNumber()
    ensures !IsPlaceholder("C")
  {
    assert |"C"| != |"CONTROLLED_NOT_CONFIGURED"|;
  }

  lemma LoadedHasNoConflict(b: Books, before: Bootstrap, f: Bootstrap)
    requires Loaded(b, before) && f == before.(allocations := f.allocations) && !IsPlaceholder(f.cin)
    ensures !Conflicts(b, f)
  {
    hide AllPresent, UniqueKeys;
  }

  /** Over a ledger that already holds shares an import may pass the authorised total. */
  lemma ImportOverHoldingsMayExceed() returns (b: Books, before: Bootstrap, f: Bootstrap)
    ensures Inv(b) && !MayImport(b, f) && b == ApplyConfig(EMPTY, before).0 && ApplyConfig(b, f).1 == Imported(1, 0)
    ensures Issued(ApplyConfig(b, f).0.entries, "EQ") > Authorised(ApplyConfig(b, f).0.classes, "EQ")
  {
    hide ApplyConfig, Inv, Valid, LedgerKey, AddClasses, ClassMap, Issued, Conflicts, IsPlaceholder, Loaded;
    var first: Allocation;
    b, before, first := HeldLedger();
    var second := first.(date := "2024-04-02");
    assert first.date[9] != second.date[9];
    f := OneShareFile(second);
    assert before.allocations[0] != f.allocations[0];
    RealNumber();
    LoadedHasNoConflict(b, before, f);
    OneAllocation(f, second);
    KeysDiffer("C", first, second);
    OneClass(b.classes, f.classes);
    OneRowImports(b, f, second);
    OneIssued(RowOf("C", first), RowOf("C", second));
  }

  lemma OneClass(classes: map<Id, ShareClass>, items: seq<ClassItem>)
    requires items == [ONE_CLASS] && classes == AddClasses(map[], items)
    ensures classes == map["EQ" := NewClassRow(ONE_CLASS)] && AddClasses(classes, items) == classes
  {
    assert items[..0] == [];
  }

  lemma OneIssued(first: Entry, second: Entry)
    requires first.cls == "EQ" && first.delta == 1 && second.cls == "EQ" && second.delta == 1
    ensures Issued([first] + [second], "EQ") == 2
  {
    BalanceSnoc([], first, "1", "EQ");
    BalanceSnoc([first], second, "1", "EQ");
    assert [] + [first] == [first];
  }

  lemma OneAllocation(f: Bootstrap, a: Allocation)
    requires f == OneShareFile(a) && a.holder == "1" && a.cls == "EQ" && a.quantity == 1 && a.dated && a.reference != ""
    ensures Valid(f) && ClassMap(f.classes) == map["EQ" := 1]
  {
    hide EntityValid, ClassesValid, HoldersValid, AllocationsValid, ClassMap;
    OneInMap();
    OneFileMasters(f, a);
    OneFileAllocations(f, a);
  }

  lemma OneFileMasters(f: Bootstrap, a: Allocation)
    requires f == OneShareFile(a)
    ensures EntityValid(f) && ClassesValid(f.classes) && HoldersValid(f.holders)
  {
  }

  lemma OneFileAllocations(f: Bootstrap, a: Allocation)
    requires f == OneShareFile(a) && a.holder == "1" && a.cls == "EQ" && a.quantity == 1 && a.dated && a.reference != ""
    ensures AllocationsValid(f)
  {
    OneInMap();
    OneInTotal(a);
    hide ClassMap, ClassTotal;
    assert HasHolder(f.holders, "1") by { assert f.holders[0].number == "1"; }
    assert AllocationFits(f, a);
  }

  lemma OneInMap()
    ensures ClassMap([ONE_CLASS]) == map["EQ" := 1]
  {
    assert [ONE_CLASS][..0] == [];
  }

  lemma OneInTotal(a: Allocation)
    requires a.cls == "EQ" && a.quantity == 1
    ensures ClassTotal([a], "EQ") == 1
  {
    assert [a][..0] == [];
  }

  lemma KeysDiffer(cin: string, a: Allocation, b: Allocation)
    requires b == a.(date := "2024-04-02") && a.date == "2024-04-01"
    ensures LedgerKey(cin, a) != LedgerKey(cin, b)
  {
    hide Decimal;
    var at := |"bootstrap:" + cin + ":" + a.holder + ":" + a.cls + ":"| + 9;
    assert LedgerKey(cin, a)[at] == '1';
    assert LedgerKey(cin, b)[at] == '2';
  }

  lemma OneRowImports(b: Books, f: Bootstrap, a: Allocation)
    requires Valid(f) && f.allocations == [a] && !Conflicts(b, f)
    requires UniqueKeys(b.entries) && !KeyTaken(b.entries, LedgerKey(f.cin, a))
    ensures ApplyConfig(b, f).1 == Imported(1, 0)
    ensures ApplyConfig(b, f).0.entries == b.entries + [RowOf(f.cin, a)]
    ensures ApplyConfig(b, f).0.classes == AddClasses(b.classes, f.classes) && ApplyConfig(b, f).0.cin == Some(f.cin)
    ensures ApplyConfig(b, f).0.imported == Some(f)
  {
    hide LedgerKey, Valid, Conflicts, AddClasses, AddHolders, KeyTaken, UniqueKeys;
    assert [a][..0] == [];
    assert NewRows(b.entries, f.cin, [a]) == [] + [RowOf(f.cin, a)];
    assert b.entries + NewRows(b.entries, f.cin, [a]) == b.entries + [RowOf(f.cin, a)];
    AppendKeepsKeys(b.entries, RowOf(f.cin, a), "", []);
  }
}
