/** Contribution calls, their collection and the provider's webhooks
    (Backend/backend/finance_ownership.py). Every request is one atomic step. */
module Collections {
  import opened Sums
  import opened ContributionSplit
  import TextOrder

  type Id = string

  datatype Option<+T> = None | Some(value: T)

  datatype ExpenseStatus = ExpenseRequested | ExpenseApproved | ExpensePaid
  datatype Expense = Expense(amount: nat, byShareholders: bool, status: ExpenseStatus)

  datatype CallStatus = ISSUED | PARTIALLY_FUNDED | FUNDED

  /** `rows` lists the allocations of the call, the foreign key read backwards. */
  datatype Call = Call(expense: Id, total: nat, rows: seq<Id>, status: CallStatus)

  datatype AllocationStatus = PENDING | SCHEDULED | PARTIAL | COLLECTED
  datatype Allocation = Allocation(call: Id, holder: Id, amount: int, collected: int, status: AllocationStatus)

  datatype Target = ForAllocation(allocation: Id) | ForExpense(expense: Id)

  datatype InstructionStatus = PENDING_APPROVAL | APPROVED | PROCESSING | SUCCEEDED | FAILED | CANCELLED

  datatype Instruction = Instruction(
    target: Target, amount: int, provider: string, status: InstructionStatus, key: string, input: string, reference: Option<string>)

  /** `events` holds the identifiers of the provider events on record. */
  datatype Fund = Fund(
    expenses: map<Id, Expense>, calls: map<Id, Call>, allocations: map<Id, Allocation>,
    instructions: map<Id, Instruction>, events: set<string>)

  const EMPTY := Fund(map[], map[], map[], map[], {})

  datatype Reply = Refused(code: nat) | Done | Existing | Duplicate

  // ------------------------------------------------------------ funding calls

  /** The policy and the weights found for the expense. */
  datatype Policy = Policy(active: bool, maxCall: Option<nat>, basis: Basis)

  predicate MaxExceeded(p: Policy, amount: nat) {
    p.maxCall.Some? && p.maxCall.value > 0 && amount > p.maxCall.value
  }

  /** The refusals of `create_call` before the arithmetic. */
  function CallRefusal(f: Fund, expense: Id, policy: Option<Policy>, holders: set<HolderId>): Option<nat> {
    if expense !in f.expenses then Some(404)
    else
      var e := f.expenses[expense];
      if e.status != ExpenseApproved || !e.byShareholders then Some(409)
      else if policy.None? || !policy.value.active || MaxExceeded(policy.value, e.amount) then Some(409)
      else
        var ws := WeightsOf(policy.value.basis);
        if ws == [] || DenominatorOf(policy.value.basis) <= 0 then Some(409)
        else if exists i :: 0 <= i < |ws| && ws[i].holder !in holders then Some(409)
        else None
  }

  /** One allocation row per piece, under the identifiers drawn for them. */
  function AddRows(allocations: map<Id, Allocation>, call: Id, pieces: seq<Piece>, ids: seq<Id>): map<Id, Allocation>
    requires |ids| == |pieces|
  {
    if |pieces| == 0 then allocations
    else
      var n := |pieces| - 1;
      AddRows(allocations, call, pieces[..n], ids[..n])
      [ids[n] := Allocation(call, pieces[n].holder, pieces[n].amount, 0, PENDING)]
  }

  /** The pieces of a call that was not refused. */
  function PiecesOf(f: Fund, expense: Id, p: Policy): seq<Piece>
    requires expense in f.expenses && ValidBasis(p.basis) && WeightsOf(p.basis) != [] && DenominatorOf(p.basis) > 0
  {
    BasisIsSplittable(p.basis);
    SplitSpec(f.expenses[expense].amount, DenominatorOf(p.basis), WeightsOf(p.basis))
  }

  /** `create_call`; `id` and `ids` are the identifiers drawn. */
  function CreateCall(
    f: Fund, expense: Id, policy: Option<Policy>, holders: set<HolderId>, id: Id, ids: seq<Id>): (Fund, Reply)
    requires policy.Some? ==> ValidBasis(policy.value.basis)
    requires CallRefusal(f, expense, policy, holders).None? ==> |ids| == |PiecesOf(f, expense, policy.value)|
  {
    if exists c | c in f.calls :: f.calls[c].expense == expense then (f, Existing)
    else
      var refusal := CallRefusal(f, expense, policy, holders);
      if refusal.Some? then (f, Refused(refusal.value))
      else
        (f.(calls := f.calls[id := Call(expense, f.expenses[expense].amount, ids, ISSUED)],
            allocations := AddRows(f.allocations, id, PiecesOf(f, expense, policy.value), ids)),
         Done)
  }

  // -------------------------------------------------------------- collection

  datatype Mandate = Mandate(active: bool, holder: Id, max: nat, validFrom: Option<string>, validUntil: Option<string>)

  /** `_validate_mandate`. */
  predicate MandateAccepts(m: Mandate, amount: int, holder: Id, today: string) {
    && m.active && m.holder == holder && amount <= m.max
    && (m.validFrom.Some? ==> !TextOrder.Before(today, m.validFrom.value))
    && (m.validUntil.Some? ==> !TextOrder.Before(m.validUntil.value, today))
  }

  /** `schedule_collection`. */
  function Schedule(
    f: Fund, allocation: Id, mandate: Option<Mandate>, today: string, provider: string, key: string, input: string, id: Id): (Fund, Reply)
  {
    if allocation !in f.allocations || mandate.None? then (f, Refused(404))
    else if exists i | i in f.instructions :: f.instructions[i].key == key && f.instructions[i].input == input then (f, Existing)
    else if exists i | i in f.instructions :: f.instructions[i].key == key then (f, Refused(409))
    else
      var row := f.allocations[allocation];
      var remaining := row.amount - row.collected;
      if !MandateAccepts(mandate.value, remaining, row.holder, today) || remaining <= 0 then (f, Refused(409))
      else
        (f.(instructions := f.instructions[id := Instruction(ForAllocation(allocation), remaining, provider, PENDING_APPROVAL, key, input, None)],
            allocations := f.allocations[allocation := row.(status := SCHEDULED)]),
         Done)
  }

  /** `create_payout`; `amount` is the part asked for, or None for the whole expense. */
  function CreatePayout(
    f: Fund, expense: Id, vendor: bool, amount: Option<nat>, provider: string, key: string, input: string, id: Id): (Fund, Reply)
  {
    if exists i | i in f.instructions :: f.instructions[i].key == key && f.instructions[i].input == input then (f, Existing)
    else if exists i | i in f.instructions :: f.instructions[i].key == key then (f, Refused(409))
    else if expense !in f.expenses then (f, Refused(404))
    else
      var e := f.expenses[expense];
      var asked := if amount.Some? then amount.value else e.amount;
      if e.status != ExpenseApproved || !vendor || asked > e.amount then (f, Refused(409))
      else (f.(instructions := f.instructions[id := Instruction(ForExpense(expense), asked, provider, PENDING_APPROVAL, key, input, None)]), Done)
  }

  predicate IsFinal(s: InstructionStatus) { s == SUCCEEDED || s == FAILED || s == CANCELLED }

  /** `approve_instruction`; `approved` says whether its maker-checker request was approved. */
  function Approve(f: Fund, id: Id, approved: bool): (Fund, Reply) {
    if id !in f.instructions then (f, Refused(404))
    else if IsFinal(f.instructions[id].status) then (f, Done)
    else if !approved then (f, Refused(409))
    else (SetStatus(f, id, APPROVED), Done)
  }

  function SetStatus(f: Fund, id: Id, s: InstructionStatus): Fund
    requires id in f.instructions
  {
    f.(instructions := f.instructions[id := f.instructions[id].(status := s)])
  }

  function SetReference(f: Fund, id: Id, reference: Option<string>): Fund
    requires id in f.instructions
  {
    f.(instructions := f.instructions[id := f.instructions[id].(reference := reference)])
  }

  // ----------------------------------------------------------------- success

  predicate Paid(a: Allocation) { a.collected >= a.amount }

  predicate HasRows(allocations: map<Id, Allocation>, call: Id) {
    exists a | a in allocations :: allocations[a].call == call
  }

  predicate AllPaid(allocations: map<Id, Allocation>, call: Id) {
    forall a | a in allocations :: allocations[a].call == call ==> Paid(allocations[a])
  }

  predicate AnyCollected(allocations: map<Id, Allocation>, call: Id) {
    exists a | a in allocations :: allocations[a].call == call && allocations[a].collected > 0
  }

  /** `_refresh_call`. */
  function Refreshed(allocations: map<Id, Allocation>, call: Id, was: CallStatus): CallStatus {
    if HasRows(allocations, call) && AllPaid(allocations, call) then FUNDED
    else if AnyCollected(allocations, call) then PARTIALLY_FUNDED
    else was
  }

  function Min(a: int, b: int): int { if a < b then a else b }

  function Credited(row: Allocation, amount: int): Allocation {
    var collected := Min(row.amount, row.collected + amount);
    row.(collected := collected, status := if collected >= row.amount then COLLECTED else PARTIAL)
  }

  /** The allocation and its call after an instruction of `amount` succeeded. */
  function Credit(f: Fund, allocation: Id, amount: int): Fund {
    if allocation !in f.allocations then f
    else
      var row := f.allocations[allocation];
      var allocations := f.allocations[allocation := Credited(row, amount)];
      var calls := if row.call in f.calls
                   then f.calls[row.call := f.calls[row.call].(status := Refreshed(allocations, row.call, f.calls[row.call].status))]
                   else f.calls;
      f.(allocations := allocations, calls := calls)
  }

  function Settle(f: Fund, expense: Id, amount: int): Fund {
    if expense in f.expenses && amount >= f.expenses[expense].amount
    then f.(expenses := f.expenses[expense := f.expenses[expense].(status := ExpensePaid)]) else f
  }

  /** `_mark_success`. */
  function MarkSuccess(f: Fund, id: Id): Fund
    requires id in f.instructions
  {
    var row := f.instructions[id];
    var done := SetStatus(f, id, SUCCEEDED);
    match row.target
    case ForAllocation(a) => Credit(done, a, row.amount)
    case ForExpense(e) => Settle(done, e, row.amount)
  }

  // --------------------------------------------------------------- execution

  datatype Mode = Disabled | Sandbox | Live

  /** What a live payout call came back with. */
  datatype Payout = NetworkError | Rejected | Accepted(reference: string, status: string)

  /** What `execute_one` finds around the instruction. */
  datatype Run = Run(mode: Mode, due: bool, mandate: Option<Mandate>, today: string, sandboxRef: string, ready: bool, payout: Payout)

  function AsReference(s: string): Option<string> { if s == "" then None else Some(s) }

  /** `execute_one`. */
  function Execute(f: Fund, id: Id, x: Run): (Fund, Reply) {
    if id !in f.instructions then (f, Refused(404))
    else
      var row := f.instructions[id];
      if IsFinal(row.status) then (f, Done)
      else if row.status != APPROVED || !x.due then (f, Refused(409))
      else if row.target.ForAllocation? && (row.target.allocation !in f.allocations || x.mandate.None?
        || !MandateAccepts(x.mandate.value, row.amount, f.allocations[row.target.allocation].holder, x.today)) then (f, Refused(409))
      else if x.mode == Disabled then (f, Refused(409))
      else if x.mode == Sandbox then (MarkSuccess(SetReference(f, id, Some(x.sandboxRef)), id), Done)
      else if row.target.ForExpense? && row.provider == "RAZORPAYX" then
        if !x.ready then (f, Refused(409))
        else
          match x.payout
          case NetworkError => (SetStatus(f, id, FAILED), Done)
          case Rejected => (SetStatus(f, id, FAILED), Done)
          case Accepted(reference, status) =>
            var referred := SetReference(f, id, AsReference(reference));
            if status == "processed" then (MarkSuccess(referred, id), Done)
            else if status in {"failed", "reversed", "cancelled", "rejected"} then (SetStatus(referred, id, FAILED), Done)
            else (SetStatus(referred, id, PROCESSING), Done)
      else (SetStatus(f, id, FAILED), Done)
  }

  // ---------------------------------------------------------------- webhooks

  /** A delivery whose signature verified; `named` is the instruction id in its notes. */
  datatype Delivery = Delivery(event: string, kind: string, named: Option<Id>, reference: string)

  const SUCCESSES := {"payout.processed", "payment.captured", "subscription.charged"}
  const FAILURES := {"payout.failed", "payout.reversed", "payout.cancelled", "payment.failed", "subscription.halted"}

  predicate Matches(f: Fund, reference: string, i: Id) {
    i in f.instructions && f.instructions[i].reference == Some(reference)
  }

  predicate IsNamed(f: Fund, d: Delivery) { d.named.Some? && d.named.value in f.instructions }

  /** Several instructions carry the provider reference and none is named: the lookup fails. */
  predicate Ambiguous(f: Fund, d: Delivery) {
    && !IsNamed(f, d) && d.reference != ""
    && exists i, j | i in f.instructions && j in f.instructions :: i != j && Matches(f, d.reference, i) && Matches(f, d.reference, j)
  }

  predicate IsFor(f: Fund, d: Delivery, i: Id) {
    if IsNamed(f, d) then i == d.named.value else d.reference != "" && Matches(f, d.reference, i)
  }

  /** The effect on the instruction that was found. */
  function Notify(f: Fund, d: Delivery, i: Id): (g: Fund)
    requires i in f.instructions
    ensures g.events == f.events
  {
    var referred := SetReference(f, i, if d.reference != "" then Some(d.reference) else f.instructions[i].reference);
    if d.kind in SUCCESSES then MarkSuccess(referred, i)
    else if d.kind in FAILURES then SetStatus(referred, i, FAILED)
    else if IsFinal(f.instructions[i].status) then referred
    else SetStatus(referred, i, PROCESSING)
  }

  /** `razorpay_webhook` on a body that parsed; a failed lookup rolls everything back. */
  ghost function Webhook(f: Fund, d: Delivery): (Fund, Reply) {
    if d.event in f.events then (f, Duplicate)
    else if Ambiguous(f, d) then (f, Refused(500))
    else if exists i :: i in f.instructions && IsFor(f, d, i) then
      var i :| i in f.instructions && IsFor(f, d, i);
      (Notify(f, d, i).(events := f.events + {d.event}), Done)
    else (f.(events := f.events + {d.event}), Done)
  }

  // ------------------------------------------------------------- master data

  function NewExpense(f: Fund, id: Id, amount: nat, byShareholders: bool): (Fund, Reply) {
    if id in f.expenses || amount == 0 then (f, Refused(409))
    else (f.(expenses := f.expenses[id := Expense(amount, byShareholders, ExpenseRequested)]), Done)
  }

  /** `approve_expense`. */
  function ApproveExpense(f: Fund, id: Id, approved: bool): (Fund, Reply) {
    if id !in f.expenses then (f, Refused(404))
    else if !approved then (f, Refused(409))
    else (f.(expenses := f.expenses[id := f.expenses[id].(status := ExpenseApproved)]), Done)
  }
}
