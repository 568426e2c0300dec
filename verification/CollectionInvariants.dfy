/** What every collection request keeps. */
module CollectionInvariants {
  import opened Sums
  import opened ContributionSplit
  import opened Collections

  type Allocations = map<Id, Allocation>

  /** All or nothing: an allocation has collected none or all of its amount, and
      COLLECTED says that its positive amount is in. */
  predicate AllocationFits(a: Allocation) {
    && 0 <= a.collected <= a.amount
    && (a.collected == 0 || a.collected == a.amount)
    && (a.status == COLLECTED <==> a.amount > 0 && a.collected == a.amount)
    && a.status != PARTIAL
  }

  ghost predicate AllocationsFit(allocations: Allocations) {
    forall a :: a in allocations ==> AllocationFits(allocations[a])
  }

  /** A collection instruction asks for the whole positive amount of its allocation. */
  predicate InstructionFits(allocations: Allocations, i: Instruction) {
    i.target.ForAllocation? ==>
      && i.target.allocation in allocations
      && i.amount == allocations[i.target.allocation].amount > 0
  }

  ghost predicate InstructionsFit(allocations: Allocations, instructions: map<Id, Instruction>) {
    forall i :: i in instructions ==> InstructionFits(allocations, instructions[i])
  }

  /** A call lists exactly its allocations, which add up to its total. */
  ghost predicate RowsFit(allocations: Allocations, id: Id, c: Call) {
    && (forall a :: a in c.rows <==> a in allocations && allocations[a].call == id)
    && (forall i, j :: 0 <= i < j < |c.rows| ==> c.rows[i] != c.rows[j])
    && c.total > 0 && Due(allocations, c.rows) == c.total
  }

  /** The status of a call is a function of its allocations. */
  predicate StatusFits(allocations: Allocations, id: Id, c: Call) {
    c.status == Refreshed(allocations, id, ISSUED)
  }

  ghost predicate CallsFit(allocations: Allocations, calls: map<Id, Call>) {
    forall c :: c in calls ==> CallFits(allocations, c, calls[c])
  }

  ghost predicate CallFits(allocations: Allocations, id: Id, c: Call) {
    RowsFit(allocations, id, c) && StatusFits(allocations, id, c)
  }

  ghost predicate CallsNamed(allocations: Allocations, calls: map<Id, Call>) {
    forall a :: a in allocations ==> allocations[a].call in calls
  }

  ghost predicate Inv(f: Fund) {
    && AllocationsFit(f.allocations) && InstructionsFit(f.allocations, f.instructions)
    && CallsFit(f.allocations, f.calls) && CallsNamed(f.allocations, f.calls)
    && (forall e :: e in f.expenses ==> f.expenses[e].amount > 0)
  }

  // ------------------------------------------------------------ sums of rows

  function AmountAt(allocations: Allocations, a: Id): int { if a in allocations then allocations[a].amount else 0 }
  function CollectedAt(
    allocations: Allocations, a: Id): int { if a in allocations then allocations[a].collected else 0 }

  function Due(allocations: Allocations, rows: seq<Id>): int {
    if |rows| == 0 then 0 else Due(allocations, rows[..|rows| - 1]) + AmountAt(allocations, rows[|rows| - 1])
  }

  function Received(allocations: Allocations, rows: seq<Id>): int {
    if |rows| == 0 then 0 else Received(allocations, rows[..|rows| - 1]) + CollectedAt(allocations, rows[|rows| - 1])
  }

  lemma {:induction false} DueSame(allocations: Allocations, later: Allocations, rows: seq<Id>)
    requires forall a :: a in rows ==> AmountAt(later, a) == AmountAt(allocations, a)
    ensures Due(later, rows) == Due(allocations, rows)
  {
    hide AmountAt;
    if |rows| > 0 {
      assert rows[|rows| - 1] in rows;
      DueSame(allocations, later, rows[..|rows| - 1]);
    }
  }

  /** What was received equals what is due exactly when every row is paid. */
  lemma {:induction false} ReceivedIsDue(allocations: Allocations, rows: seq<Id>)
    requires AllocationsFit(allocations)
    ensures Received(allocations, rows) <= Due(allocations, rows)
    ensures Received(allocations, rows) == Due(allocations, rows)
       <==> forall a :: a in rows && a in allocations ==> Paid(allocations[a])
  {
    if |rows| > 0 {
      var last, most := rows[|rows| - 1], rows[..|rows| - 1];
      ReceivedIsDue(allocations, most);
      assert forall a :: a in rows <==> a in most || a == last;
      if last in allocations {
        assert AllocationFits(allocations[last]);
      }
    }
  }

  // ------------------------------------------------- allocations moving on

  /** Allocations keep their call, holder and amount, and never give money back. */
  ghost predicate AllocationsEvolve(allocations: Allocations, later: Allocations) {
    forall a :: a in allocations ==> a in later && AllocationEvolves(allocations[a], later[a])
  }

  predicate AllocationEvolves(row: Allocation, later: Allocation) {
    later.call == row.call && later.holder == row.holder && later.amount == row.amount && later.collected >= row.collected
  }

  lemma InstructionsStayFit(allocations: Allocations, later: Allocations, instructions: map<Id, Instruction>)
    requires AllocationsEvolve(allocations, later) && InstructionsFit(allocations, instructions)
    ensures InstructionsFit(later, instructions)
  {
    forall i | i in instructions ensures InstructionFits(later, instructions[i]) {
      assert InstructionFits(allocations, instructions[i]);
    }
  }

  lemma RowsStayFit(allocations: Allocations, a: Id, row: Allocation, id: Id, c: Call)
    requires a in allocations && AllocationEvolves(allocations[a], row) && RowsFit(allocations, id, c)
    ensures RowsFit(allocations[a := row], id, c)
  {
    hide Due;
    var later := allocations[a := row];
    DueSame(allocations, later, c.rows);
    assert forall b :: b in later && later[b].call == id <==> b in allocations && allocations[b].call == id;
  }

  /** Calls of other allocations, and calls whose paid rows did not change, keep their status. */
  lemma StatusUntouched(allocations: Allocations, a: Id, row: Allocation, id: Id, was: CallStatus)
    requires a in allocations && row.call == allocations[a].call
    requires row.call != id || (row.amount == allocations[a].amount && row.collected == allocations[a].collected)
    ensures Refreshed(allocations[a := row], id, was) == Refreshed(allocations, id, was)
  {
    var later := allocations[a := row];
    assert HasRows(later, id) == HasRows(allocations, id) by {
      RowsMoved(allocations, a, row, id);
    }
    assert AllPaid(later, id) == AllPaid(allocations, id) by {
      PaidMoved(allocations, a, row, id);
    }
    CollectedMoved(allocations, a, row, id);
    hide HasRows, AllPaid, AnyCollected;
  }

  lemma RowsMoved(allocations: Allocations, a: Id, row: Allocation, id: Id)
    requires a in allocations && row.call == allocations[a].call
    ensures HasRows(allocations[a := row], id) == HasRows(allocations, id)
  {
    var later := allocations[a := row];
    if HasRows(allocations, id) {
      var b :| b in allocations && allocations[b].call == id;
      assert b in later && later[b].call == id;
    }
  }

  lemma PaidMoved(allocations: Allocations, a: Id, row: Allocation, id: Id)
    requires a in allocations && row.call == allocations[a].call
    requires row.call != id || Paid(row) == Paid(allocations[a])
    ensures AllPaid(allocations[a := row], id) == AllPaid(allocations, id)
  {
    hide Paid;
    var later := allocations[a := row];
    assert forall b :: b in allocations ==>
      (later[b].call == id ==> Paid(later[b])) == (allocations[b].call == id ==> Paid(allocations[b]));
  }

  lemma CollectedMoved(allocations: Allocations, a: Id, row: Allocation, id: Id)
    requires a in allocations && row.call == allocations[a].call
    requires row.call != id || row.collected == allocations[a].collected
    ensures AnyCollected(allocations[a := row], id) == AnyCollected(allocations, id)
  {
    var later := allocations[a := row];
    if AnyCollected(allocations, id) {
      var b :| b in allocations && allocations[b].call == id && allocations[b].collected > 0;
      assert b in later && later[b].call == id && later[b].collected > 0;
    }
    if AnyCollected(later, id) {
      var b :| b in later && later[b].call == id && later[b].collected > 0;
      assert b in allocations && allocations[b].call == id && allocations[b].collected > 0;
    }
  }

  // ---------------------------------------------------------------- requests

  /** A step keeps the invariant, and allocations and funding only move on. */
  ghost predicate Kept(f: Fund, g: Fund) {
    Inv(g) && AllocationsEvolve(f.allocations, g.allocations) && CallsEvolve(f.calls, g.calls)
  }

  ghost predicate CallsEvolve(calls: map<Id, Call>, later: map<Id, Call>) {
    forall c :: c in calls ==> c in later && CallEvolves(calls[c], later[c])
  }

  predicate CallEvolves(c: Call, later: Call) {
    later.expense == c.expense && later.total == c.total && later.rows == c.rows && (c.status == FUNDED ==> later.status == FUNDED)
  }

  lemma KeptAsIs(f: Fund)
    requires Inv(f)
    ensures Kept(f, f)
  {
    hide Inv;
  }

  /** Changes that leave allocations, calls and amounts of instructions alone. */
  lemma SideKeeps(f: Fund, g: Fund)
    requires Inv(f) && g.allocations == f.allocations && g.calls == f.calls
    requires InstructionsFit(g.allocations, g.instructions)
    requires forall e :: e in g.expenses ==> g.expenses[e].amount > 0
    ensures Kept(f, g)
  {
    hide AllocationsFit, CallsFit, CallsNamed, InstructionsFit;
  }

  lemma InstructionKeeps(f: Fund, id: Id, row: Instruction)
    requires Inv(f) && id in f.instructions
    requires row.target == f.instructions[id].target && row.amount == f.instructions[id].amount
    ensures Kept(f, f.(instructions := f.instructions[id := row]))
  {
    hide AllocationsFit, CallsFit, CallsNamed;
    var g := f.(instructions := f.instructions[id := row]);
    forall i | i in g.instructions ensures InstructionFits(g.allocations, g.instructions[i]) {
      assert InstructionFits(f.allocations, f.instructions[i]);
    }
    SideKeeps(f, g);
  }

  lemma KeptTwice(f: Fund, g: Fund, h: Fund)
    requires Kept(f, g) && Kept(g, h)
    ensures Kept(f, h)
  {
    hide Inv;
    forall a | a in f.allocations ensures a in h.allocations && AllocationEvolves(f.allocations[a], h.allocations[a]) {
      assert AllocationEvolves(f.allocations[a], g.allocations[a]) && AllocationEvolves(g.allocations[a], h.allocations[a]);
    }
    forall c | c in f.calls ensures c in h.calls && CallEvolves(f.calls[c], h.calls[c]) {
      assert CallEvolves(f.calls[c], g.calls[c]) && CallEvolves(g.calls[c], h.calls[c]);
    }
  }

  lemma AllocationTable(f: Fund, a: Id, row: Allocation)
    requires AllocationsFit(f.allocations) && CallsNamed(f.allocations, f.calls) && InstructionsFit(f.allocations, f.instructions)
    requires a in f.allocations && AllocationEvolves(f.allocations[a], row) && AllocationFits(row)
    ensures var later := f.allocations[a := row];
            && AllocationsFit(later) && CallsNamed(later, f.calls) && AllocationsEvolve(f.allocations, later)
            && InstructionsFit(later, f.instructions)
  {
    hide AllocationFits, InstructionFits;
    assert AllocationsEvolve(f.allocations, f.allocations[a := row]);
    InstructionsStayFit(f.allocations, f.allocations[a := row], f.instructions);
  }

  lemma CallTable(allocations: Allocations, calls: map<Id, Call>, a: Id, row: Allocation, call: Call)
    requires CallsFit(allocations, calls) && a in allocations && AllocationEvolves(allocations[a], row)
    requires row.call in calls && call == calls[row.call].(status := call.status)
    requires StatusFits(allocations[a := row], row.call, call)
    ensures CallsFit(allocations[a := row], calls[row.call := call])
  {
    var later, after := allocations[a := row], calls[row.call := call];
    hide RowsFit, Refreshed;
    forall c | c in after ensures CallFits(later, c, after[c]) {
      assert CallFits(allocations, c, calls[c]);
      RowsStayFit(allocations, a, row, c, calls[c]);
      SameRows(later, c, calls[c], after[c]);
      if c != row.call {
        StatusUntouched(allocations, a, row, c, ISSUED);
      }
    }
  }

  /** One allocation row changes and its call is refreshed. */
  lemma PutAllocation(f: Fund, a: Id, row: Allocation, call: Call)
    requires Inv(f) && a in f.allocations && AllocationEvolves(f.allocations[a], row) && AllocationFits(row)
    requires row.call in f.calls && call == f.calls[row.call].(status := call.status)
    requires StatusFits(f.allocations[a := row], row.call, call)
    requires f.calls[row.call].status == FUNDED ==> call.status == FUNDED
    ensures Kept(f, f.(allocations := f.allocations[a := row], calls := f.calls[row.call := call]))
  {
    hide AllocationsFit, InstructionsFit, CallsFit, CallsNamed, AllocationFits, AllocationsEvolve, CallsEvolve, Kept;
    AllocationTable(f, a, row);
    CallTable(f.allocations, f.calls, a, row, call);
    SameNames(f.allocations[a := row], f.calls, row.call, call);
    TablesKeep(f, f.allocations[a := row], f.calls[row.call := call]);
  }

  lemma SameNames(allocations: Allocations, calls: map<Id, Call>, c: Id, call: Call)
    requires CallsNamed(allocations, calls) && c in calls
    requires call == calls[c].(status := call.status) && (calls[c].status == FUNDED ==> call.status == FUNDED)
    ensures CallsNamed(allocations, calls[c := call]) && CallsEvolve(calls, calls[c := call])
  {
  }

  lemma TablesKeep(f: Fund, allocations: Allocations, calls: map<Id, Call>)
    requires Inv(f) && AllocationsFit(allocations) && InstructionsFit(allocations, f.instructions)
    requires CallsFit(allocations, calls) && CallsNamed(allocations, calls)
    requires AllocationsEvolve(f.allocations, allocations) && CallsEvolve(f.calls, calls)
    ensures Kept(f, f.(allocations := allocations, calls := calls))
  {
    hide AllocationsFit, InstructionsFit, CallsFit, CallsNamed, AllocationsEvolve, CallsEvolve;
  }

  lemma SameRows(allocations: Allocations, id: Id, c: Call, later: Call)
    requires RowsFit(allocations, id, c) && later.rows == c.rows && later.total == c.total
    ensures RowsFit(allocations, id, later)
  {
    hide Due;
  }

  /** A refresh replaces the old status by the function of the rows. */
  lemma RefreshedForgets(allocations: Allocations, a: Id, row: Allocation, was: CallStatus)
    requires AllocationsFit(allocations) && a in allocations && AllocationEvolves(allocations[a], row) && row.collected > 0
    ensures var later := allocations[a := row];
            && Refreshed(later, row.call, was) == Refreshed(later, row.call, ISSUED)
            && (Refreshed(allocations, row.call, ISSUED) == FUNDED && AllocationFits(row) ==> Refreshed(later, row.call, was) == FUNDED)
  {
    var later := allocations[a := row];
    assert a in later && later[a].call == row.call && later[a].collected > 0;
    assert AnyCollected(later, row.call);
    assert HasRows(later, row.call);
    if AllPaid(allocations, row.call) && AllocationFits(row) {
      assert Paid(allocations[a]) && AllocationFits(allocations[a]);
      PaidMoved(allocations, a, row, row.call);
    }
  }

  lemma CreditKeeps(f: Fund, a: Id, amount: int)
    requires Inv(f)
    requires a in f.allocations ==> amount == f.allocations[a].amount > 0
    ensures Kept(f, Credit(f, a, amount))
  {
    if a in f.allocations {
      var row := Credited(f.allocations[a], amount);
      AllocationIsFit(f, a);
      assert AllocationsFit(f.allocations);
      hide Inv, Kept, AllocationsFit, Refreshed, RowsFit;
      RefreshedForgets(f.allocations, a, row, f.calls[row.call].status);
      PutAllocation(f, a, row, f.calls[row.call].(status := Refreshed(f.allocations[a := row], row.call, f.calls[row.call].status)));
    } else {
      KeptAsIs(f);
    }
  }

  lemma SettleKeeps(f: Fund, e: Id, amount: int)
    requires Inv(f)
    ensures Kept(f, Settle(f, e, amount))
  {
    hide AllocationsFit, InstructionsFit, CallsFit, CallsNamed;
    SideKeeps(f, Settle(f, e, amount));
  }

  lemma MarkSuccessKeeps(f: Fund, id: Id)
    requires Inv(f) && id in f.instructions
    ensures Kept(f, MarkSuccess(f, id))
  {
    var row := f.instructions[id];
    assert InstructionFits(f.allocations, row);
    hide Inv, Credit, Settle;
    InstructionKeeps(f, id, row.(status := SUCCEEDED));
    var done := SetStatus(f, id, SUCCEEDED);
    hide AllocationsEvolve, CallsEvolve;
    match row.target {
      case ForAllocation(a) => CreditKeeps(done, a, row.amount);
      case ForExpense(e) => SettleKeeps(done, e, row.amount);
    }
    KeptTwice(f, done, MarkSuccess(f, id));
  }

  lemma ReferredKeeps(f: Fund, id: Id, reference: Option<string>, s: InstructionStatus)
    requires Inv(f) && id in f.instructions
    ensures Kept(f, SetReference(f, id, reference)) && Kept(f, SetStatus(f, id, s))
    ensures Kept(f, SetStatus(SetReference(f, id, reference), id, s))
    ensures Kept(f, MarkSuccess(SetReference(f, id, reference), id))
  {
    hide Inv, AllocationsEvolve, CallsEvolve, MarkSuccess;
    var referred := SetReference(f, id, reference);
    InstructionKeeps(f, id, f.instructions[id].(reference := reference));
    InstructionKeeps(f, id, f.instructions[id].(status := s));
    InstructionKeeps(referred, id, referred.instructions[id].(status := s));
    MarkSuccessKeeps(referred, id);
    KeptTwice(f, referred, SetStatus(referred, id, s));
    KeptTwice(f, referred, MarkSuccess(referred, id));
  }

  lemma ApproveKeeps(f: Fund, id: Id, approved: bool)
    requires Inv(f)
    ensures Kept(f, Approve(f, id, approved).0)
  {
    hide Inv, Kept, SetStatus;
    KeptAsIs(f);
    if id in f.instructions {
      ReferredKeeps(f, id, None, APPROVED);
    }
  }

  lemma ExecuteKeeps(f: Fund, id: Id, x: Run)
    requires Inv(f)
    ensures Kept(f, Execute(f, id, x).0)
  {
    hide Inv, Kept, MandateAccepts, MarkSuccess, SetStatus, SetReference;
    KeptAsIs(f);
    if id in f.instructions {
      ReferredKeeps(f, id, Some(x.sandboxRef), FAILED);
      if x.payout.Accepted? {
        ReferredKeeps(f, id, AsReference(x.payout.reference), FAILED);
        ReferredKeeps(f, id, AsReference(x.payout.reference), PROCESSING);
      }
    }
  }

  lemma NotifyKeeps(f: Fund, d: Delivery, i: Id)
    requires Inv(f) && i in f.instructions
    ensures Kept(f, Notify(f, d, i))
  {
    hide Inv, Kept, MarkSuccess, SetStatus, SetReference;
    var reference := if d.reference != "" then Some(d.reference) else f.instructions[i].reference;
    ReferredKeeps(f, i, reference, FAILED);
    ReferredKeeps(f, i, reference, PROCESSING);
  }

  lemma RecordKeeps(f: Fund, g: Fund, events: set<string>)
    requires Kept(f, g)
    ensures Kept(f, g.(events := events))
  {
    hide AllocationsFit, InstructionsFit, CallsFit, CallsNamed, AllocationsEvolve, CallsEvolve;
  }

  lemma WebhookKeeps(f: Fund, d: Delivery)
    requires Inv(f)
    ensures Kept(f, Webhook(f, d).0)
  {
    hide Inv, Kept, Notify, Ambiguous, IsFor;
    KeptAsIs(f);
    RecordKeeps(f, f, f.events + {d.event});
    forall i | i in f.instructions ensures Kept(f, Notify(f, d, i).(events := f.events + {d.event})) {
      NotifyKeeps(f, d, i);
      RecordKeeps(f, Notify(f, d, i), f.events + {d.event});
    }
  }

  lemma ScheduleKeeps(
    f: Fund, allocation: Id, mandate: Option<Mandate>, today: string, provider: string, key: string, input: string, id: Id)
    requires Inv(f) && id !in f.instructions
    ensures Kept(f, Schedule(f, allocation, mandate, today, provider, key, input, id).0)
  {
    hide MandateAccepts, Inv, Kept, CallFits;
    if Schedule(f, allocation, mandate, today, provider, key, input, id).1 == Done {
      AllocationIsFit(f, allocation);
      ScheduledTwice(f, allocation, id,
                     Instruction(ForAllocation(allocation), f.allocations[allocation].amount, provider, PENDING_APPROVAL, key, input, None));
    } else {
      KeptAsIs(f);
    }
  }

  lemma ScheduledTwice(f: Fund, a: Id, id: Id, row: Instruction)
    requires Inv(f) && a in f.allocations && id !in f.instructions
    requires f.allocations[a].collected < f.allocations[a].amount
    requires row.target == ForAllocation(a) && row.amount == f.allocations[a].amount > 0
    ensures Kept(f, f.(instructions := f.instructions[id := row],
                       allocations := f.allocations[a := f.allocations[a].(status := SCHEDULED)]))
  {
    var scheduled := f.allocations[a].(status := SCHEDULED);
    ScheduledKeeps(f, a, scheduled);
    hide AllocationsFit, InstructionsFit, CallsFit, CallsNamed, AllocationsEvolve, CallsEvolve;
    var h := f.(allocations := f.allocations[a := scheduled]);
    NewInstructionKeeps(h, id, row);
    KeptTwice(f, h, h.(instructions := h.instructions[id := row]));
  }

  lemma AllocationIsFit(f: Fund, a: Id)
    requires Inv(f) && a in f.allocations
    ensures AllocationFits(f.allocations[a]) && f.allocations[a].call in f.calls
    ensures CallFits(f.allocations, f.allocations[a].call, f.calls[f.allocations[a].call])
  {
    hide AllocationFits, CallFits, InstructionsFit;
  }

  lemma ScheduledKeeps(f: Fund, a: Id, row: Allocation)
    requires Inv(f) && a in f.allocations && row == f.allocations[a].(status := SCHEDULED)
    requires row.collected < row.amount
    ensures Kept(f, f.(allocations := f.allocations[a := row]))
  {
    AllocationIsFit(f, a);
    hide Inv, Kept, Refreshed, RowsFit;
    StatusUntouched(f.allocations, a, row, row.call, ISSUED);
    hide AllocationFits;
    SameCalls(f.calls, row.call);
    ScheduledFits(f.allocations[a]);
    PutAllocation(f, a, row, f.calls[row.call]);
  }

  lemma SameCalls(calls: map<Id, Call>, c: Id)
    requires c in calls
    ensures calls[c := calls[c]] == calls
  {
  }

  lemma ScheduledFits(row: Allocation)
    requires AllocationFits(row) && row.collected < row.amount
    ensures AllocationFits(row.(status := SCHEDULED))
  {
  }

  lemma NewInstructionKeeps(f: Fund, id: Id, row: Instruction)
    requires Inv(f) && id !in f.instructions && InstructionFits(f.allocations, row)
    ensures Kept(f, f.(instructions := f.instructions[id := row]))
  {
    hide AllocationsFit, CallsFit, CallsNamed;
    SideKeeps(f, f.(instructions := f.instructions[id := row]));
  }

  lemma CreatePayoutKeeps(
    f: Fund, expense: Id, vendor: bool, amount: Option<nat>, provider: string, key: string, input: string, id: Id)
    requires Inv(f) && id !in f.instructions
    ensures Kept(f, CreatePayout(f, expense, vendor, amount, provider, key, input, id).0)
  {
    var g := CreatePayout(f, expense, vendor, amount, provider, key, input, id).0;
    hide AllocationsFit, CallsFit, CallsNamed, InstructionsFit, AllocationsEvolve, CallsEvolve;
    KeptAsIs(f);
    if g != f {
      NewInstructionKeeps(f, id, g.instructions[id]);
    }
  }

  lemma ExpenseKeeps(f: Fund, id: Id, amount: nat, byShareholders: bool, approved: bool)
    requires Inv(f)
    ensures Kept(f, NewExpense(f, id, amount, byShareholders).0)
    ensures Kept(f, ApproveExpense(f, id, approved).0)
  {
    hide AllocationsFit, InstructionsFit, CallsFit, CallsNamed;
    SideKeeps(f, NewExpense(f, id, amount, byShareholders).0);
    SideKeeps(f, ApproveExpense(f, id, approved).0);
  }

  // -------------------------------------------------------------- new calls

  ghost predicate NewIds(f: Fund, id: Id, ids: seq<Id>) {
    && id !in f.calls && (forall a :: a in ids ==> a !in f.allocations)
    && (forall i, j :: 0 <= i < j < |ids| ==> ids[i] != ids[j])
  }

  lemma AddedSnoc(allocations: Allocations, call: Id, pieces: seq<Piece>, ids: seq<Id>)
    requires |ids| == |pieces| > 0
    ensures var n := |pieces| - 1;
            AddRows(allocations, call, pieces, ids)
            == AddRows(allocations, call, pieces[..n], ids[..n])[ids[n] := Allocation(call, pieces[n].holder, pieces[n].amount, 0, PENDING)]
  {
  }

  lemma {:induction false} AddedRows(allocations: Allocations, call: Id, pieces: seq<Piece>, ids: seq<Id>)
    requires |ids| == |pieces| && (forall a :: a in ids ==> a !in allocations)
    requires forall i, j :: 0 <= i < j < |ids| ==> ids[i] != ids[j]
    requires forall i :: 0 <= i < |pieces| ==> pieces[i].amount >= 0
    ensures var later := AddRows(allocations, call, pieces, ids);
            && (forall a :: a in later <==> a in allocations || a in ids)
            && (forall a :: a in allocations ==> later[a] == allocations[a])
            && (forall a :: a in ids ==> IsNewRow(later[a], call))
            && Due(later, ids) == SumBy(AmountOf, pieces)
  {
    if |pieces| > 0 {
      var n := |pieces| - 1;
      AddedRows(allocations, call, pieces[..n], ids[..n]);
      AddedSnoc(allocations, call, pieces, ids);
      var before, row := AddRows(allocations, call, pieces[..n], ids[..n]), Allocation(call, pieces[n].holder, pieces[n].amount, 0, PENDING);
      hide AddRows;
      assert forall a :: a in ids <==> a in ids[..n] || a == ids[n];
      DueSnoc(before, ids, row);
      SumSnoc(AmountOf, pieces[..n], pieces[n]);
      assert pieces[..n] + [pieces[n]] == pieces;
      hide Due, SumBy;
    }
  }

  /** One more row adds its amount to what is due. */
  lemma DueSnoc(before: Allocations, ids: seq<Id>, row: Allocation)
    requires |ids| > 0 && (forall i, j :: 0 <= i < j < |ids| ==> ids[i] != ids[j])
    ensures Due(before[ids[|ids| - 1] := row], ids) == Due(before, ids[..|ids| - 1]) + row.amount
  {
    var n := |ids| - 1;
    var later := before[ids[n] := row];
    forall a | a in ids[..n] ensures AmountAt(later, a) == AmountAt(before, a) {}
    DueSame(before, later, ids[..n]);
  }

  predicate IsNewRow(row: Allocation, call: Id) {
    row.call == call && row.amount >= 0 && row.collected == 0 && row.status == PENDING
  }

  lemma NewCallRows(allocations: Allocations, calls: map<Id, Call>, id: Id, pieces: seq<Piece>, ids: seq<Id>,
                    total: nat)
    requires id !in calls && CallsNamed(allocations, calls)
    requires |ids| == |pieces| && (forall a :: a in ids ==> a !in allocations)
    requires forall i, j :: 0 <= i < j < |ids| ==> ids[i] != ids[j]
    requires forall i :: 0 <= i < |pieces| ==> pieces[i].amount >= 0
    requires SumBy(AmountOf, pieces) == total > 0
    ensures var later := AddRows(allocations, id, pieces, ids);
            && (forall a :: a in ids <==> a in later && later[a].call == id)
            && Due(later, ids) == total
            && Refreshed(later, id, ISSUED) == ISSUED
  {
    hide Due, AddRows;
    AddedRows(allocations, id, pieces, ids);
    var later := AddRows(allocations, id, pieces, ids);
    assert forall a :: a in later && a !in ids ==> later[a].call in calls;
    assert !AnyCollected(later, id);
    if AllPaid(later, id) {
      NothingDue(later, ids);
    }
  }

  lemma {:induction false} NothingDue(allocations: Allocations, rows: seq<Id>)
    requires forall a :: a in rows ==> AmountAt(allocations, a) <= 0
    ensures Due(allocations, rows) <= 0
  {
    hide AmountAt;
    if |rows| > 0 {
      assert rows[|rows| - 1] in rows;
      NothingDue(allocations, rows[..|rows| - 1]);
    }
  }

  lemma OtherCallFits(f: Fund, id: Id, pieces: seq<Piece>, ids: seq<Id>, c: Id)
    requires NewIds(f, id, ids) && |ids| == |pieces| && c in f.calls
    requires forall i :: 0 <= i < |pieces| ==> pieces[i].amount >= 0
    requires CallFits(f.allocations, c, f.calls[c])
    ensures CallFits(AddRows(f.allocations, id, pieces, ids), c, f.calls[c])
  {
    hide Due, AddRows;
    AddedRows(f.allocations, id, pieces, ids);
    var later := AddRows(f.allocations, id, pieces, ids);
    assert c != id;
    DueSame(f.allocations, later, f.calls[c].rows);
    forall a ensures a in later && later[a].call == c <==> a in f.allocations && f.allocations[a].call == c {}
    SameStatus(f.allocations, later, c);
  }

  lemma SameStatus(allocations: Allocations, later: Allocations, c: Id)
    requires forall a :: a in later && later[a].call == c <==> a in allocations && allocations[a].call == c
    requires forall a :: a in allocations && allocations[a].call == c ==> later[a] == allocations[a]
    ensures Refreshed(later, c, ISSUED) == Refreshed(allocations, c, ISSUED)
  {
    assert HasRows(later, c) == HasRows(allocations, c);
    assert AllPaid(later, c) == AllPaid(allocations, c);
    assert AnyCollected(later, c) == AnyCollected(allocations, c);
  }

  lemma NewCallKeeps(f: Fund, id: Id, expense: Id, pieces: seq<Piece>, ids: seq<Id>, total: nat)
    requires Inv(f) && NewIds(f, id, ids) && |ids| == |pieces|
    requires forall i :: 0 <= i < |pieces| ==> pieces[i].amount >= 0
    requires SumBy(AmountOf, pieces) == total > 0
    ensures Kept(f, f.(calls := f.calls[id := Call(expense, total, ids, ISSUED)], allocations := AddRows(f.allocations, id, pieces, ids)))
  {
    NewCallTable(f, id, expense, pieces, ids, total);
    NewRowsTable(f, id, pieces, ids);
    var later := AddRows(f.allocations, id, pieces, ids);
    InstructionsStayFit(f.allocations, later, f.instructions);
    hide AddRows, AllocationsFit, InstructionsFit, CallsFit, AllocationsEvolve, Kept;
    TablesKeep(f, later, f.calls[id := Call(expense, total, ids, ISSUED)]);
  }

  lemma NewRowsTable(f: Fund, id: Id, pieces: seq<Piece>, ids: seq<Id>)
    requires NewIds(f, id, ids) && |ids| == |pieces| && AllocationsFit(f.allocations) && CallsNamed(f.allocations, f.calls)
    requires forall i :: 0 <= i < |pieces| ==> pieces[i].amount >= 0
    ensures var later := AddRows(f.allocations, id, pieces, ids);
            && AllocationsFit(later) && AllocationsEvolve(f.allocations, later)
            && (forall a :: a in later ==> later[a].call in f.calls || later[a].call == id)
  {
    AddedRows(f.allocations, id, pieces, ids);
    hide AddRows, Due;
    var later := AddRows(f.allocations, id, pieces, ids);
    forall a | a in later ensures AllocationFits(later[a]) && (later[a].call in f.calls || later[a].call == id) {
      if a in f.allocations {
        assert AllocationFits(f.allocations[a]);
      } else {
        assert IsNewRow(later[a], id);
      }
    }
  }

  lemma NewCallTable(f: Fund, id: Id, expense: Id, pieces: seq<Piece>, ids: seq<Id>, total: nat)
    requires CallsFit(f.allocations, f.calls) && CallsNamed(f.allocations, f.calls)
    requires NewIds(f, id, ids) && |ids| == |pieces|
    requires forall i :: 0 <= i < |pieces| ==> pieces[i].amount >= 0
    requires SumBy(AmountOf, pieces) == total > 0
    ensures CallsFit(AddRows(f.allocations, id, pieces, ids), f.calls[id := Call(expense, total, ids, ISSUED)])
  {
    var later, call := AddRows(f.allocations, id, pieces, ids), Call(expense, total, ids, ISSUED);
    hide AddRows, Due, Refreshed;
    NewCallRows(f.allocations, f.calls, id, pieces, ids, total);
    assert CallFits(later, id, call);
    hide RowsFit, StatusFits, CallFits, NewIds;
    forall c | c in f.calls ensures CallFits(later, c, f.calls[c]) {
      assert CallFits(f.allocations, c, f.calls[c]);
      OtherCallFits(f, id, pieces, ids, c);
    }
  }

  lemma CreateCallKeeps(f: Fund, expense: Id, policy: Option<Policy>, holders: set<HolderId>, id: Id, ids: seq<Id>)
    requires policy.Some? ==> ValidBasis(policy.value.basis)
    requires CallRefusal(f, expense, policy, holders).None? ==> |ids| == |PiecesOf(f, expense, policy.value)|
    requires Inv(f) && NewIds(f, id, ids)
    ensures Kept(f, CreateCall(f, expense, policy, holders, id, ids).0)
  {
    hide AllocationsFit, InstructionsFit, CallsFit, CallsNamed, AllocationsEvolve, CallsEvolve, NewIds, AddRows;
    hide SplitSpec;
    if CreateCall(f, expense, policy, holders, id, ids).1 == Done {
      var p := policy.value;
      BasisIsSplittable(p.basis);
      var pieces := PiecesOf(f, expense, p);
      SplitIsExact(f.expenses[expense].amount, DenominatorOf(p.basis), WeightsOf(p.basis));
      SplitIsWithinQuota(f.expenses[expense].amount, DenominatorOf(p.basis), WeightsOf(p.basis));
      forall i | 0 <= i < |pieces| ensures pieces[i].amount >= 0 {
        assert WithinQuota(f.expenses[expense].amount, DenominatorOf(p.basis), pieces[i]);
      }
      NewCallKeeps(f, id, expense, pieces, ids, f.expenses[expense].amount);
    } else {
      KeptAsIs(f);
    }
  }
}
