/** The append-only share ledger, its posting guards and the controlled opening import
    (Backend/backend/finance_ownership.py, Backend/backend/controlled_bootstrap.py). */
module ShareLedger {

  type Id = string

  /** One ledger row; only what a balance or a key depends on is kept. */
  datatype Entry = Entry(holder: Id, cls: Id, delta: int, key: string)

  datatype Kind = Issue | Cancel | AdjustmentIn | AdjustmentOut

  /** `other` stands for the fields that only enter the payload hash. */
  datatype ChangeInput = ChangeInput(holder: Id, cls: Id, kind: Kind, delta: int, other: string)
  datatype TransferInput = TransferInput(source: Id, target: Id, cls: Id, quantity: int, other: string)

  datatype Status = StagedRow | PostedRow

  datatype Change = Change(input: ChangeInput, key: string, approval: Id, status: Status)
  datatype Transfer = Transfer(input: TransferInput, key: string, approval: Id, status: Status)

  datatype Decision = PENDING | APPROVED | REJECTED

  /** The posting events emitted, in order. */
  datatype Posting = ChangePosted(id: Id) | TransferPosted(id: Id)

  /** The first 16 hexadecimal digits of a SHA-256 digest. */
  type Digest = s: string | |s| == 16 && forall c :: c in s ==> c in "0123456789abcdef"
    witness "0000000000000000"

  /** A share class on record, and as a file lists it; `facePaise` is the face value rounded. */
  datatype ShareClass = ShareClass(authorised: nat, name: string, facePaise: int)
  datatype ClassItem = ClassItem(code: Id, authorised: int, name: string, face: real, facePaise: int, evidence: string)

  datatype HolderItem = HolderItem(number: Id, name: string, evidence: string)

  /** The company a file is for. */
  datatype Entity = Entity(name: string, office: string, stateCode: string, source: string)

  /** `dated` says whether the date parses, and `evidence` is the digest of the reference. */
  datatype Allocation = Allocation(
    holder: Id, cls: Id, quantity: int, date: string, dated: bool, reference: string, evidence: Digest)

  datatype Bootstrap = Bootstrap(
    cin: string, entity: Entity, classes: seq<ClassItem>, holders: seq<HolderItem>, allocations: seq<Allocation>)

  datatype Option<+T> = None | Some(value: T)

  /** Share classes are named by their code and holders by their number, both unique.
      `opening` remembers the rows that imports posted and `imported` the last import. */
  datatype Books = Books(
    cin: Option<string>, classes: map<Id, ShareClass>, holders: map<Id, string>,
    changes: map<Id, Change>, transfers: map<Id, Transfer>, approvals: map<Id, Decision>,
    entries: seq<Entry>, opening: seq<Entry>, posted: seq<Posting>, imported: Option<Bootstrap>)

  const EMPTY := Books(None, map[], map[], map[], map[], map[], [], [], [], None)

  datatype Reply = Refused(code: nat) | Staged | Existing | Posted | AlreadyPosted | Created | Decided
                 | Imported(posted: nat, skipped: nat)

  // ---------------------------------------------------------------- balances

  function Part(e: Entry, holder: Id, cls: Id): int {
    if e.holder == holder && e.cls == cls then e.delta else 0
  }

  function ClassPart(e: Entry, cls: Id): int {
    if e.cls == cls then e.delta else 0
  }

  /** `_share_balance`. */
  function Balance(entries: seq<Entry>, holder: Id, cls: Id): int {
    if |entries| == 0 then 0
    else Balance(entries[..|entries| - 1], holder, cls) + Part(entries[|entries| - 1], holder, cls)
  }

  /** `_issued_total`. */
  function Issued(entries: seq<Entry>, cls: Id): int {
    if |entries| == 0 then 0 else Issued(entries[..|entries| - 1], cls) + ClassPart(entries[|entries| - 1], cls)
  }

  predicate KeyTaken(entries: seq<Entry>, key: string) {
    exists i :: 0 <= i < |entries| && entries[i].key == key
  }

  function Authorised(classes: map<Id, ShareClass>, cls: Id): nat {
    if cls in classes then classes[cls].authorised else 0
  }

  // ------------------------------------------------------------ the requests

  function CreateClass(b: Books, code: Id, row: ShareClass): (Books, Reply) {
    if code in b.classes then (b, Refused(409)) else (b.(classes := b.classes[code := row]), Created)
  }

  function CreateHolder(b: Books, number: Id, name: string): (Books, Reply) {
    if number in b.holders then (b, Refused(409)) else (b.(holders := b.holders[number := name]), Created)
  }

  predicate SignFits(i: ChangeInput) {
    && i.delta != 0
    && (i.kind.Issue? || i.kind.AdjustmentIn? ==> i.delta > 0)
    && (i.kind.Cancel? || i.kind.AdjustmentOut? ==> i.delta < 0)
  }

  /** `stage_share_change`; `id` and `approval` are the identifiers drawn for new rows. */
  function StageChange(b: Books, key: string, i: ChangeInput, id: Id, approval: Id): (Books, Reply) {
    if !SignFits(i) then (b, Refused(422))
    else if exists c | c in b.changes :: b.changes[c].key == key && b.changes[c].input == i then (b, Existing)
    else if exists c | c in b.changes :: b.changes[c].key == key then (b, Refused(409))
    else if i.holder !in b.holders || i.cls !in b.classes then (b, Refused(404))
    else
      (b.(changes := b.changes[id := Change(i, key, approval, StagedRow)], approvals := b.approvals[approval := PENDING]), Staged)
  }

  /** `stage_transfer`. */
  function StageTransfer(b: Books, key: string, i: TransferInput, id: Id, approval: Id): (Books, Reply) {
    if i.quantity <= 0 || i.source == i.target then (b, Refused(422))
    else if exists t | t in b.transfers :: b.transfers[t].key == key && b.transfers[t].input == i then (b, Existing)
    else if exists t | t in b.transfers :: b.transfers[t].key == key then (b, Refused(409))
    else if i.source !in b.holders || i.target !in b.holders || i.cls !in b.classes then (b, Refused(404))
    else if Balance(b.entries, i.source, i.cls) < i.quantity then (b, Refused(409))
    else
      (b.(transfers := b.transfers[id := Transfer(i, key, approval, StagedRow)], approvals := b.approvals[approval := PENDING]), Staged)
  }

  /** A maker-checker decision, made outside these handlers. */
  function Decide(b: Books, approval: Id, approve: bool): (Books, Reply) {
    if approval in b.approvals && b.approvals[approval] == PENDING
    then (b.(approvals := b.approvals[approval := if approve then APPROVED else REJECTED]), Decided)
    else (b, Refused(409))
  }

  predicate IsApproved(approvals: map<Id, Decision>, approval: Id) {
    approval in approvals && approvals[approval] == APPROVED
  }

  function ChangeEntry(c: Change): Entry { Entry(c.input.holder, c.input.cls, c.input.delta, c.key + ":POST") }

  function OutEntry(t: Transfer): Entry { Entry(t.input.source, t.input.cls, -t.input.quantity, t.key + ":OUT") }

  function InEntry(t: Transfer): Entry { Entry(t.input.target, t.input.cls, t.input.quantity, t.key + ":IN") }

  /** `post_share_change`; 500 is the unique key of the ledger failing at the flush. */
  function PostChange(b: Books, id: Id): (Books, Reply) {
    if id !in b.changes then (b, Refused(404))
    else
      var row := b.changes[id];
      if row.status == PostedRow then (b, AlreadyPosted)
      else if !IsApproved(b.approvals, row.approval) then (b, Refused(409))
      else if Balance(b.entries, row.input.holder, row.input.cls) + row.input.delta < 0 then (b, Refused(409))
      else if Issued(b.entries, row.input.cls) + row.input.delta > Authorised(b.classes, row.input.cls) then (b, Refused(409))
      else if KeyTaken(b.entries, row.key + ":POST") then (b, Refused(500))
      else
        (b.(entries := b.entries + [ChangeEntry(row)], changes := b.changes[id := row.(status := PostedRow)],
            posted := b.posted + [ChangePosted(id)]),
         Posted)
  }

  /** `post_transfer`. */
  function PostTransfer(b: Books, id: Id): (Books, Reply) {
    if id !in b.transfers then (b, Refused(404))
    else
      var row := b.transfers[id];
      if row.status == PostedRow then (b, AlreadyPosted)
      else if !IsApproved(b.approvals, row.approval) then (b, Refused(409))
      else if Balance(b.entries, row.input.source, row.input.cls) < row.input.quantity then (b, Refused(409))
      else if KeyTaken(b.entries, row.key + ":OUT") || KeyTaken(b.entries, row.key + ":IN") then (b, Refused(500))
      else
        (b.(entries := b.entries + [OutEntry(row)] + [InEntry(row)], transfers := b.transfers[id := row.(status := PostedRow)],
            posted := b.posted + [TransferPosted(id)]),
         Posted)
  }

  // ------------------------------------------------------- controlled import

  function Decimal(n: nat): string {
    if n < 10 then ["0123456789"[n]] else Decimal(n / 10) + ["0123456789"[n % 10]]
  }

  /** `_ledger_key`. */
  function LedgerKey(cin: string, a: Allocation): string {
    "bootstrap:" + cin + ":" + a.holder + ":" + a.cls + ":" + a.date + ":"
    + Decimal(Shares(a.quantity)) + ":" + a.evidence
  }

  function ClassTotal(allocations: seq<Allocation>, cls: Id): int {
    if |allocations| == 0 then 0
    else
      var last := allocations[|allocations| - 1];
      ClassTotal(allocations[..|allocations| - 1], cls) + if last.cls == cls then last.quantity else 0
  }

  predicate DistinctCodes(items: seq<ClassItem>) {
    forall i, j :: 0 <= i < j < |items| ==> items[i].code != items[j].code
  }

  predicate DistinctNumbers(items: seq<HolderItem>) {
    forall i, j :: 0 <= i < j < |items| ==> items[i].number != items[j].number
  }

  predicate HasHolder(items: seq<HolderItem>, number: Id) {
    exists i :: 0 <= i < |items| && items[i].number == number
  }

  /** The authorised shares per code, as the file lists them. */
  function ClassMap(items: seq<ClassItem>): map<Id, int> {
    if |items| == 0 then map[]
    else
      var last := items[|items| - 1];
      ClassMap(items[..|items| - 1])[last.code := last.authorised]
  }

  predicate AllocationFits(f: Bootstrap, a: Allocation) {
    && HasHolder(f.holders, a.holder) && a.cls in ClassMap(f.classes)
    && a.quantity > 0 && a.dated && a.reference != ""
  }

  predicate ClassFits(item: ClassItem) {
    item.code != "" && item.authorised >= 0 && item.face > 0.0 && item.name != "" && item.evidence != ""
  }

  predicate ClassesValid(items: seq<ClassItem>) {
    (forall i :: 0 <= i < |items| ==> ClassFits(items[i])) && DistinctCodes(items)
  }

  predicate HolderFits(item: HolderItem) { item.number != "" && item.name != "" && item.evidence != "" }

  predicate HoldersValid(items: seq<HolderItem>) {
    (forall i :: 0 <= i < |items| ==> HolderFits(items[i])) && DistinctNumbers(items)
  }

  predicate EntityValid(f: Bootstrap) {
    && f.cin != "" && f.entity.name != "" && f.entity.office != "" && f.entity.source != ""
    && |f.entity.stateCode| == 2 && '0' <= f.entity.stateCode[0] <= '9' && '0' <= f.entity.stateCode[1] <= '9'
  }

  predicate AllocationsValid(f: Bootstrap) {
    && (forall i :: 0 <= i < |f.allocations| ==> AllocationFits(f, f.allocations[i]))
    && (forall c :: c in ClassMap(f.classes) ==> ClassTotal(f.allocations, c) <= ClassMap(f.classes)[c])
  }

  /** `validate_controlled_config`, on entries already stripped and upper-cased. */
  predicate Valid(f: Bootstrap) {
    && EntityValid(f) && |f.classes| > 0 && |f.holders| > 0
    && ClassesValid(f.classes) && HoldersValid(f.holders) && AllocationsValid(f)
  }

  function RowOf(cin: string, a: Allocation): Entry { Entry(a.holder, a.cls, a.quantity, LedgerKey(cin, a)) }

  /** An allocation is posted unless the ledger already holds its key. */
  function RowsFor(entries: seq<Entry>, cin: string, a: Allocation): seq<Entry> {
    if KeyTaken(entries, LedgerKey(cin, a)) then [] else [RowOf(cin, a)]
  }

  /** The rows an import adds. */
  function NewRows(entries: seq<Entry>, cin: string, allocations: seq<Allocation>): (rows: seq<Entry>)
    ensures |rows| <= |allocations|
  {
    if |allocations| == 0 then []
    else NewRows(entries, cin, allocations[..|allocations| - 1]) + RowsFor(entries, cin, allocations[|allocations| - 1])
  }

  predicate UniqueKeys(entries: seq<Entry>) {
    forall i, j :: 0 <= i < j < |entries| ==> entries[i].key != entries[j].key
  }

  predicate IsSameClass(row: ShareClass, item: ClassItem) {
    row.facePaise == item.facePaise && row.authorised == item.authorised && row.name == item.name
  }

  predicate ClassConflicts(classes: map<Id, ShareClass>, item: ClassItem) {
    item.code in classes && !IsSameClass(classes[item.code], item)
  }

  predicate ClassesConflict(classes: map<Id, ShareClass>, items: seq<ClassItem>) {
    exists i :: 0 <= i < |items| && ClassConflicts(classes, items[i])
  }

  predicate HolderConflicts(holders: map<Id, string>, item: HolderItem) {
    item.number in holders && holders[item.number] != item.name
  }

  predicate HoldersConflict(holders: map<Id, string>, items: seq<HolderItem>) {
    exists i :: 0 <= i < |items| && HolderConflicts(holders, items[i])
  }

  /** `PLACEHOLDER_CINS`: a company number that may still be replaced. */
  predicate IsPlaceholder(cin: string) { cin == "" || cin == "CONTROLLED_NOT_CONFIGURED" }

  predicate CinConflicts(cin: Option<string>, f: Bootstrap) {
    cin.Some? && !IsPlaceholder(cin.value) && cin.value != f.cin
  }

  /** Another company number, or a class or holder that is already there with other terms. */
  predicate Conflicts(b: Books, f: Bootstrap) {
    CinConflicts(b.cin, f) || ClassesConflict(b.classes, f.classes) || HoldersConflict(b.holders, f.holders)
  }

  function Shares(n: int): nat { if n > 0 then n else 0 }

  /** Classes the books do not have yet are added as the file lists them. */
  function AddClasses(classes: map<Id, ShareClass>, items: seq<ClassItem>): map<Id, ShareClass> {
    if |items| == 0 then classes
    else
      var last := items[|items| - 1];
      var before := AddClasses(classes, items[..|items| - 1]);
      if last.code in before then before else before[last.code := NewClassRow(last)]
  }

  function NewClassRow(item: ClassItem): ShareClass { ShareClass(Shares(item.authorised), item.name, item.facePaise) }

  /** Holders the books do not have yet are added under their legal name. */
  function AddHolders(holders: map<Id, string>, items: seq<HolderItem>): map<Id, string> {
    if |items| == 0 then holders
    else
      var last := items[|items| - 1];
      var before := AddHolders(holders, items[..|items| - 1]);
      if last.number in before then before else before[last.number := last.name]
  }

  /** `apply_controlled_config`; two equal keys in one file fail the commit. */
  function ApplyConfig(b: Books, f: Bootstrap): (Books, Reply) {
    if !Valid(f) || Conflicts(b, f) then (b, Refused(400))
    else
      var rows := NewRows(b.entries, f.cin, f.allocations);
      if !UniqueKeys(b.entries + rows) then (b, Refused(500))
      else
        (b.(cin := Some(f.cin), classes := AddClasses(b.classes, f.classes), holders := AddHolders(b.holders, f.holders),
            entries := b.entries + rows, opening := b.opening + rows, imported := Some(f)),
         Imported(|rows|, |f.allocations| - |rows|))
  }
}
