/** The ledger service as it runs: rows staged, guards checked, rows appended
    (Backend/backend/finance_ownership.py, Backend/backend/controlled_bootstrap.py).
    Every method ends in the state and the reply that ShareLedger states for it, and a
    register that serves requests goes through a run of ShareLedgerRuns. */
module ShareRegister {
  import opened ShareLedger
  import opened ShareLedgerInvariants
  import opened ShareLedgerRuns

  /** `validate_controlled_config`: fill the class and holder maps, then the totals. */
  method ValidateConfig(f: Bootstrap) returns (ok: bool)
    ensures ok == Valid(f)
  {
    hide ClassesValid, HoldersValid, AllocationsValid;
    if f.cin == "" || f.entity.name == "" || f.entity.office == "" || f.entity.source == "" { return false; }
    var state := f.entity.stateCode;
    if |state| != 2 || !('0' <= state[0] <= '9') || !('0' <= state[1] <= '9') { return false; }
    if |f.classes| == 0 || |f.holders| == 0 { return false; }
    ok := ValidateClasses(f.classes);
    if !ok { return; }
    var numbers;
    ok, numbers := ValidateHolders(f.holders);
    if !ok { return; }
    ok := ValidateAllocations(f, numbers);
  }

  method ValidateClasses(items: seq<ClassItem>) returns (ok: bool)
    ensures ok == ClassesValid(items)
  {
    var seen: set<Id> := {};
    for i := 0 to |items|
      invariant forall k :: 0 <= k < i ==> ClassFits(items[k])
      invariant DistinctCodes(items[..i])
      invariant seen == set k | 0 <= k < i :: items[k].code
    {
      if items[i].code == "" || items[i].code in seen || items[i].authorised < 0 { return false; }
      if items[i].face <= 0.0 || items[i].name == "" || items[i].evidence == "" { return false; }
      seen := seen + {items[i].code};
    }
    assert items[..|items|] == items;
    return true;
  }

  method ValidateHolders(items: seq<HolderItem>) returns (ok: bool, numbers: set<Id>)
    ensures ok == HoldersValid(items)
    ensures ok ==> AreNumbers(numbers, items)
  {
    numbers := {};
    for i := 0 to |items|
      invariant forall k :: 0 <= k < i ==> HolderFits(items[k])
      invariant DistinctNumbers(items[..i])
      invariant numbers == set k | 0 <= k < i :: items[k].number
    {
      if items[i].number == "" || items[i].number in numbers { return false, numbers; }
      if items[i].name == "" || items[i].evidence == "" { return false, numbers; }
      numbers := numbers + {items[i].number};
    }
    assert items[..|items|] == items;
    return true, numbers;
  }

  /** The class table of the file. */
  method BuildClassMap(items: seq<ClassItem>) returns (m: map<Id, int>)
    ensures m == ClassMap(items)
  {
    m := map[];
    for i := 0 to |items|
      invariant m == ClassMap(items[..i])
    {
      assert items[..i + 1][..i] == items[..i];
      m := m[items[i].code := items[i].authorised];
    }
    assert items[..|items|] == items;
  }

  function TotalOf(totals: map<Id, int>, cls: Id): int { if cls in totals then totals[cls] else 0 }

  /** The numbers of the holder table. */
  ghost predicate AreNumbers(numbers: set<Id>, items: seq<HolderItem>) {
    forall n :: n in numbers <==> HasHolder(items, n)
  }

  /** The totals map says what the allocations add up to, class by class. */
  ghost predicate TotalsMatch(totals: map<Id, int>, allocations: seq<Allocation>, classMap: map<Id, int>) {
    && (forall c :: TotalOf(totals, c) == ClassTotal(allocations, c))
    && (forall c :: c in totals ==> c in classMap)
  }

  predicate AllFit(f: Bootstrap, n: nat)
    requires n <= |f.allocations|
  {
    forall i :: 0 <= i < n ==> AllocationFits(f, f.allocations[i])
  }

  /** The allocation loop: each one checked, its quantity added to its class. */
  method SumAllocations(f: Bootstrap, numbers: set<Id>, classMap: map<Id, int>) returns (ok: bool, totals: map<Id, int>)
    requires AreTables(f, numbers, classMap)
    ensures ok == AllFit(f, |f.allocations|)
    ensures ok ==> TotalsMatch(totals, f.allocations, classMap)
  {
    hide ClassMap, ClassTotal, TotalOf, HasHolder, AllocationFits, AreTables, TotalsMatch, AllFit;
    NoneYet(f);
    totals := map[];
    NoTotals(classMap);
    for i := 0 to |f.allocations|
      invariant AllFit(f, i) && TotalsMatch(totals, f.allocations[..i], classMap)
    {
      var a := f.allocations[i];
      FitsExactly(f, numbers, classMap, a);
      OneMoreFits(f, i);
      if a.holder !in numbers || a.cls !in classMap || a.quantity <= 0 || !a.dated || a.reference == "" {
        return false, totals;
      }
      RaisedTotals(totals, f.allocations, i, classMap);
      totals := totals[a.cls := TotalOf(totals, a.cls) + a.quantity];
    }
    assert f.allocations[..|f.allocations|] == f.allocations;
    return true, totals;
  }

  lemma NoneYet(f: Bootstrap)
    ensures AllFit(f, 0)
  {
  }

  lemma OneMoreFits(f: Bootstrap, i: nat)
    requires i < |f.allocations|
    ensures AllFit(f, i + 1) <==> AllFit(f, i) && AllocationFits(f, f.allocations[i])
    ensures AllFit(f, |f.allocations|) ==> AllocationFits(f, f.allocations[i])
  {
    hide AllocationFits;
  }

  /** The class and holder tables of the file. */
  ghost predicate AreTables(f: Bootstrap, numbers: set<Id>, classMap: map<Id, int>) {
    AreNumbers(numbers, f.holders) && classMap == ClassMap(f.classes)
  }

  lemma FitsExactly(f: Bootstrap, numbers: set<Id>, classMap: map<Id, int>, a: Allocation)
    requires AreTables(f, numbers, classMap)
    ensures AllocationFits(f, a)
       <==> a.holder in numbers && a.cls in classMap && a.quantity > 0 && a.dated && a.reference != ""
  {
    hide ClassMap, HasHolder;
  }

  lemma RaisedTotals(totals: map<Id, int>, allocations: seq<Allocation>, i: nat, classMap: map<Id, int>)
    requires i < |allocations| && TotalsMatch(totals, allocations[..i], classMap) && allocations[i].cls in classMap
    ensures var a := allocations[i];
            TotalsMatch(totals[a.cls := TotalOf(totals, a.cls) + a.quantity], allocations[..i + 1], classMap)
  {
    hide ClassTotal;
    var a := allocations[i];
    var later := totals[a.cls := TotalOf(totals, a.cls) + a.quantity];
    forall c ensures TotalOf(later, c) == ClassTotal(allocations[..i + 1], c) {
      OneMoreAllocation(allocations, i, c);
      assert TotalOf(totals, c) == ClassTotal(allocations[..i], c);
    }
  }

  lemma NoTotals(classMap: map<Id, int>)
    ensures TotalsMatch(map[], [], classMap)
  {
  }

  lemma OneMoreAllocation(allocations: seq<Allocation>, i: nat, cls: Id)
    requires i < |allocations|
    ensures ClassTotal(allocations[..i + 1], cls)
         == ClassTotal(allocations[..i], cls) + (if allocations[i].cls == cls then allocations[i].quantity else 0)
  {
    assert allocations[..i + 1][..i] == allocations[..i];
  }

  method ValidateAllocations(f: Bootstrap, numbers: set<Id>) returns (ok: bool)
    requires ClassesValid(f.classes) && AreNumbers(numbers, f.holders)
    ensures ok == AllocationsValid(f)
  {
    hide ClassMap, ClassTotal, AllocationFits;
    var classMap := BuildClassMap(f.classes);
    var totals;
    ok, totals := SumAllocations(f, numbers, classMap);
    if !ok { return; }
    assert forall c :: c in totals ==> c in classMap;
    ok := WithinTotals(totals, classMap);
    NoNegativeClass(f.classes);
    assert forall c :: c in classMap ==> (TotalOf(totals, c) <= classMap[c] <==> ClassTotal(f.allocations, c) <= ClassMap(f.classes)[c]);
  }

  lemma NoNegativeClass(items: seq<ClassItem>)
    requires forall i :: 0 <= i < |items| ==> items[i].authorised >= 0
    ensures forall c :: c in ClassMap(items) ==> ClassMap(items)[c] >= 0
  {
    forall c | c in ClassMap(items) ensures ClassMap(items)[c] >= 0 {
      var i := ClassMapItem(items, c);
    }
  }

  /** `for code, total in totals.items()`. */
  method WithinTotals(totals: map<Id, int>, classMap: map<Id, int>) returns (ok: bool)
    requires totals.Keys <= classMap.Keys
    ensures ok == forall c :: c in totals ==> totals[c] <= classMap[c]
  {
    var codes := totals.Keys;
    while codes != {}
      invariant codes <= totals.Keys
      invariant forall c :: c in totals && c !in codes ==> totals[c] <= classMap[c]
      decreases codes
    {
      var code :| code in codes;
      if totals[code] > classMap[code] {
        return false;
      }
      codes := codes - {code};
    }
    return true;
  }

  class Register {
    var cin: Option<string>
    var classes: map<Id, ShareClass>
    var holders: map<Id, string>
    var changes: map<Id, Change>
    var transfers: map<Id, Transfer>
    var approvals: map<Id, Decision>
    var entries: seq<Entry>
    var posted: seq<Posting>
    ghost var opening: seq<Entry>
    ghost var imported: Option<Bootstrap>
    ghost var books: seq<Books>
    ghost var events: seq<Event>

    constructor ()
      ensures Valid() && events == []
    {
      cin, classes, holders, changes, transfers, approvals := None, map[], map[], map[], map[], map[];
      entries, posted, opening, imported := [], [], [], None;
      books, events := [EMPTY], [];
    }

    /** What was served so far is a run that ends in these books. */
    ghost predicate Valid()
      reads this
    {
      IsRun(books, events) && books[|events|] == View()
    }

    ghost function View(): Books
      reads this
    {
      Books(cin, classes, holders, changes, transfers, approvals, entries, opening, posted, imported)
    }

    method StageChange(key: string, i: ChangeInput, id: Id, approval: Id) returns (r: Reply)
      modifies this`changes, this`approvals
      ensures (View(), r) == ShareLedger.StageChange(old(View()), key, i, id, approval)
    {
      if !SignFits(i) { return Refused(422); }
      if exists c | c in changes :: changes[c].key == key {
        if exists c | c in changes :: changes[c].key == key && changes[c].input == i { return Existing; }
        return Refused(409);
      }
      if i.holder !in holders || i.cls !in classes { return Refused(404); }
      changes := changes[id := Change(i, key, approval, StagedRow)];
      approvals := approvals[approval := PENDING];
      return Staged;
    }

    method PostChange(id: Id) returns (r: Reply)
      modifies this`entries, this`changes, this`posted
      ensures (View(), r) == ShareLedger.PostChange(old(View()), id)
    {
      if id !in changes { return Refused(404); }
      var row := changes[id];
      if row.status == PostedRow { return AlreadyPosted; }
      if !IsApproved(approvals, row.approval) { return Refused(409); }
      if Balance(entries, row.input.holder, row.input.cls) + row.input.delta < 0 { return Refused(409); }
      if Issued(entries, row.input.cls) + row.input.delta > Authorised(classes, row.input.cls) { return Refused(409); }
      if KeyTaken(entries, row.key + ":POST") { return Refused(500); }
      entries := entries + [ChangeEntry(row)];
      changes := changes[id := row.(status := PostedRow)];
      posted := posted + [ChangePosted(id)];
      return Posted;
    }

    method StageTransfer(key: string, i: TransferInput, id: Id, approval: Id) returns (r: Reply)
      modifies this`transfers, this`approvals
      ensures (View(), r) == ShareLedger.StageTransfer(old(View()), key, i, id, approval)
    {
      if i.quantity <= 0 || i.source == i.target { return Refused(422); }
      if exists t | t in transfers :: transfers[t].key == key {
        if exists t | t in transfers :: transfers[t].key == key && transfers[t].input == i { return Existing; }
        return Refused(409);
      }
      if i.source !in holders || i.target !in holders || i.cls !in classes { return Refused(404); }
      if Balance(entries, i.source, i.cls) < i.quantity { return Refused(409); }
      transfers := transfers[id := Transfer(i, key, approval, StagedRow)];
      approvals := approvals[approval := PENDING];
      return Staged;
    }

    method PostTransfer(id: Id) returns (r: Reply)
      modifies this`entries, this`transfers, this`posted
      ensures (View(), r) == ShareLedger.PostTransfer(old(View()), id)
    {
      if id !in transfers { return Refused(404); }
      var row := transfers[id];
      if row.status == PostedRow { return AlreadyPosted; }
      if !IsApproved(approvals, row.approval) { return Refused(409); }
      if Balance(entries, row.input.source, row.input.cls) < row.input.quantity { return Refused(409); }
      if KeyTaken(entries, row.key + ":OUT") || KeyTaken(entries, row.key + ":IN") { return Refused(500); }
      entries := entries + [OutEntry(row)];
      entries := entries + [InEntry(row)];
      transfers := transfers[id := row.(status := PostedRow)];
      posted := posted + [TransferPosted(id)];
      return Posted;
    }

    /** `apply_controlled_config`: nothing is stored before every row is ready. */
    method ApplyConfig(f: Bootstrap) returns (r: Reply)
      modifies this`cin, this`classes, this`holders, this`entries, this`opening, this`imported
      ensures (View(), r) == ShareLedger.ApplyConfig(old(View()), f)
    {
      hide AddClasses, AddHolders, NewRows, UniqueKeys, ClassesConflict, HoldersConflict;
      hide EntityValid, ClassesValid, HoldersValid, AllocationsValid, IsPlaceholder;
      var ok := ValidateConfig(f);
      if !ok { return Refused(400); }
      if cin.Some? && !IsPlaceholder(cin.value) && cin.value != f.cin { return Refused(400); }
      var conflict, merged := MergeClasses(classes, f.classes);
      if conflict { return Refused(400); }
      var clash, named := MergeHolders(holders, f.holders);
      if clash { return Refused(400); }
      var rows, added, skipped := BuildRows(entries, f.cin, f.allocations);
      if !UniqueKeys(entries + rows) { return Refused(500); }
      cin, classes, holders := Some(f.cin), merged, named;
      entries, opening, imported := entries + rows, opening + rows, Some(f);
      return Imported(added, skipped);
    }

    method CreateShareClass(code: Id, row: ShareClass) returns (r: Reply)
      modifies this`classes
      ensures (View(), r) == CreateClass(old(View()), code, row)
    {
      if code in classes { return Refused(409); }
      classes := classes[code := row];
      return Created;
    }

    method CreateShareholder(number: Id, name: string) returns (r: Reply)
      modifies this`holders
      ensures (View(), r) == CreateHolder(old(View()), number, name)
    {
      if number in holders { return Refused(409); }
      holders := holders[number := name];
      return Created;
    }

    /** The maker-checker decision, recorded by the approval service. */
    method RecordDecision(approval: Id, approve: bool) returns (r: Reply)
      modifies this`approvals
      ensures (View(), r) == Decide(old(View()), approval, approve)
    {
      if approval !in approvals || approvals[approval] != PENDING { return Refused(409); }
      approvals := approvals[approval := if approve then APPROVED else REJECTED];
      return Decided;
    }

    method Dispatch(e: Event) returns (r: Reply)
      modifies this`cin, this`classes, this`holders, this`changes, this`transfers, this`approvals, this`entries, this`posted
      modifies this`opening, this`imported
      ensures (View(), r) == Step(old(View()), e)
    {
      hide CreateClass, CreateHolder, ShareLedger.StageChange, ShareLedger.StageTransfer, Decide, ShareLedger.PostChange;
      hide ShareLedger.PostTransfer, ShareLedger.ApplyConfig;
      match e {
        case NewClass(code, row) => r := CreateShareClass(code, row);
        case NewHolder(number, name) => r := CreateShareholder(number, name);
        case StagesChange(key, change, id, approval) => r := StageChange(key, change, id, approval);
        case StagesTransfer(key, transfer, id, approval) => r := StageTransfer(key, transfer, id, approval);
        case Decides(approval, approve) => r := RecordDecision(approval, approve);
        case PostsChange(id) => r := PostChange(id);
        case PostsTransfer(id) => r := PostTransfer(id);
        case Imports(file) => r := ApplyConfig(file);
      }
    }

    /** One request of any kind: the register stays on a run, the ledger is only appended
        to, no holding is negative and no class is over its authorised shares. */
    method Serve(e: Event) returns (r: Reply)
      requires Valid() && Possible(View(), e)
      modifies this
      ensures Valid() && events == old(events) + [e] && books == old(books) + [View()]
      ensures r == Step(old(View()), e).1
      ensures old(entries) <= entries && NonNegative(entries) && WithinAuthorised(entries, classes)
    {
      hide Step, Possible, NonNegative, WithinAuthorised, UniqueKeys, RequestsFit, Listed, Accounted, ImportKeys, ImportHolds;
      RunKeeps(books, events, |events|);
      StepKeeps(View(), e);
      StepAdds(View(), e);
      LongerRun(books, events, e);
      hide IsRun;
      r := Dispatch(e);
      books, events := books + [View()], events + [e];
    }
  }

  lemma LongerRun(books: seq<Books>, events: seq<Event>, e: Event)
    requires IsRun(books, events) && Possible(books[|events|], e)
    ensures IsRun(books + [Step(books[|events|], e).0], events + [e])
  {
    hide Step, Possible;
  }

  /** The loop over `share_classes`: an existing class must agree, a new one is added. */
  method MergeClasses(
    classes: map<Id, ShareClass>, items: seq<ClassItem>) returns (conflict: bool, merged: map<Id, ShareClass>)
    requires ClassesValid(items)
    ensures conflict == ClassesConflict(classes, items)
    ensures !conflict ==> merged == AddClasses(classes, items)
  {
    merged, conflict := classes, false;
    for i := 0 to |items|
      invariant !conflict && merged == AddClasses(classes, items[..i])
      invariant forall k :: 0 <= k < i ==> !ClassConflicts(classes, items[k])
    {
      AddOneClass(classes, items, i);
      var code := items[i].code;
      if code in merged {
        if merged[code].facePaise != items[i].facePaise || merged[code].authorised != items[i].authorised
           || merged[code].name != items[i].name {
          return true, merged;
        }
      } else {
        merged := merged[code := ShareClass(items[i].authorised, items[i].name, items[i].facePaise)];
      }
    }
    assert items[..|items|] == items;
  }

  /** The loop over `shareholders`: an existing holder must have the same name, a new one is added. */
  method MergeHolders(
    holders: map<Id, string>, items: seq<HolderItem>) returns (conflict: bool, merged: map<Id, string>)
    requires HoldersValid(items)
    ensures conflict == HoldersConflict(holders, items)
    ensures !conflict ==> merged == AddHolders(holders, items)
  {
    merged, conflict := holders, false;
    for i := 0 to |items|
      invariant !conflict && merged == AddHolders(holders, items[..i])
      invariant forall k :: 0 <= k < i ==> !HolderConflicts(holders, items[k])
    {
      AddOneHolder(holders, items, i);
      var number := items[i].number;
      if number in merged {
        if merged[number] != items[i].name {
          return true, merged;
        }
      } else {
        merged := merged[number := items[i].name];
      }
    }
    assert items[..|items|] == items;
  }

  lemma AddOneHolder(holders: map<Id, string>, items: seq<HolderItem>, i: nat)
    requires HoldersValid(items) && i < |items|
    ensures var before, number := AddHolders(holders, items[..i]), items[i].number;
            && AddHolders(holders, items[..i + 1]) == (if number in before then before else before[number := items[i].name])
            && (number in before <==> number in holders) && (number in holders ==> before[number] == holders[number])
  {
    assert items[..i + 1][..i] == items[..i];
    HoldersStay(holders, items[..i], items[i].number);
  }

  lemma AddOneClass(classes: map<Id, ShareClass>, items: seq<ClassItem>, i: nat)
    requires ClassesValid(items) && i < |items|
    ensures var before, code := AddClasses(classes, items[..i]), items[i].code;
            && AddClasses(classes, items[..i + 1]) == (if code in before then before else before[code := NewClassRow(items[i])])
            && (code in before <==> code in classes) && (code in classes ==> before[code] == classes[code])
  {
    assert items[..i + 1][..i] == items[..i];
    NotAddedBefore(items, i);
    AddedClass(classes, items[..i], items[i].code);
    hide ClassMap;
  }

  lemma NotAddedBefore(items: seq<ClassItem>, i: nat)
    requires DistinctCodes(items) && i < |items|
    ensures items[i].code !in ClassMap(items[..i])
  {
    hide ClassMap;
    if items[i].code in ClassMap(items[..i]) {
      var k := ClassMapItem(items[..i], items[i].code);
      assert false;
    }
  }

  /** The allocation loop: skip what the ledger holds, add the rest, count both. */
  method BuildRows(entries: seq<Entry>, cin: string, allocations: seq<Allocation>) returns (rows: seq<Entry>,
                                                                                            added: nat, skipped: nat)
    ensures rows == NewRows(entries, cin, allocations)
    ensures added == |rows| && skipped == |allocations| - |rows|
  {
    rows, added, skipped := [], 0, 0;
    for i := 0 to |allocations|
      invariant rows == NewRows(entries, cin, allocations[..i])
      invariant added == |rows| && skipped == i - |rows|
    {
      assert allocations[..i + 1][..i] == allocations[..i];
      var key := LedgerKey(cin, allocations[i]);
      if KeyTaken(entries, key) {
        skipped := skipped + 1;
      } else {
        rows := rows + [Entry(allocations[i].holder, allocations[i].cls, allocations[i].quantity, key)];
        added := added + 1;
      }
    }
    assert allocations[..|allocations|] == allocations;
  }
}
