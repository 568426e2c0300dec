/** What moves money: which requests make an instruction succeed, fail or go on, and what
    stands behind them (Backend/backend/finance_ownership.py). */
module CollectionHistory {
  import TextOrder
  import opened ContributionSplit
  import opened Collections
  import opened CollectionInvariants
  import opened CollectionRuns

  // ------------------------------------------------- the cause of each move

  /** The delivery is the first of its event, and names the instruction, or carries a
      provider reference that only this instruction has. */
  ghost predicate IsAbout(f: Fund, d: Delivery, i: Id) {
    && d.event !in f.events && i in f.instructions
    && if d.named.Some? && d.named.value in f.instructions then i == d.named.value
       else
         && d.reference != "" && f.instructions[i].reference == Some(d.reference)
         && forall j :: j in f.instructions && f.instructions[j].reference == Some(d.reference) ==> j == i
  }

  /** The mandate allows this collection today. */
  predicate Allows(m: Option<Mandate>, amount: int, holder: Id, today: string) {
    && m.Some? && m.value.active && m.value.holder == holder && amount <= m.value.max
    && (m.value.validFrom.None? || !TextOrder.Before(today, m.value.validFrom.value))
    && (m.value.validUntil.None? || !TextOrder.Before(m.value.validUntil.value, today))
  }

  /** An execution that is let through: approved, due, and for a collection under a mandate. */
  predicate IsLetThrough(f: Fund, i: Id, x: Run) {
    && i in f.instructions && f.instructions[i].status == APPROVED && x.due && x.mode != Disabled
    && (f.instructions[i].target.ForAllocation? ==>
          && f.instructions[i].target.allocation in f.allocations
          && Allows(x.mandate, f.instructions[i].amount, f.allocations[f.instructions[i].target.allocation].holder, x.today))
  }

  /** It goes out to RazorpayX, which is for payouts only. */
  predicate GoesOut(f: Fund, i: Id, x: Run) {
    && IsLetThrough(f, i, x) && x.mode == Live && x.ready
    && f.instructions[i].target.ForExpense? && f.instructions[i].provider == "RAZORPAYX"
  }

  ghost predicate Succeeds(f: Fund, e: Event, i: Id) {
    || (e.Executed? && e.id == i && IsLetThrough(f, i, e.run) && e.run.mode == Sandbox)
    || (e.Executed? && e.id == i && GoesOut(f, i, e.run) && e.run.payout.Accepted? && e.run.payout.status == "processed")
    || (e.Delivered? && IsAbout(f, e.delivery, i)
        && (e.delivery.kind == "payout.processed" || e.delivery.kind == "payment.captured" || e.delivery.kind == "subscription.charged"))
  }

  ghost predicate Fails(f: Fund, e: Event, i: Id) {
    || (e.Executed? && e.id == i && GoesOut(f, i, e.run)
        && (e.run.payout.Accepted? ==>
              || e.run.payout.status == "failed" || e.run.payout.status == "reversed"
              || e.run.payout.status == "cancelled" || e.run.payout.status == "rejected"))
    || (e.Executed? && e.id == i && IsLetThrough(f, i, e.run) && e.run.mode == Live
        && (f.instructions[i].target.ForAllocation? || f.instructions[i].provider != "RAZORPAYX"))
    || (e.Delivered? && IsAbout(f, e.delivery, i)
        && (e.delivery.kind == "payout.failed" || e.delivery.kind == "payout.reversed" || e.delivery.kind == "payout.cancelled"
            || e.delivery.kind == "payment.failed" || e.delivery.kind == "subscription.halted"))
  }

  /** The provider has it, and has not said how it ends. */
  ghost predicate IsSent(f: Fund, e: Event, i: Id) {
    && !Succeeds(f, e, i) && !Fails(f, e, i)
    && ((e.Executed? && e.id == i && GoesOut(f, i, e.run))
        || (e.Delivered? && IsAbout(f, e.delivery, i) && f.instructions[i].status !in {SUCCEEDED, FAILED, CANCELLED}))
  }

  predicate IsCleared(f: Fund, e: Event, i: Id) {
    e == InstructionDecided(i, true) && i in f.instructions && f.instructions[i].status !in {SUCCEEDED, FAILED, CANCELLED}
  }

  ghost function StatusAfter(f: Fund, e: Event, i: Id): InstructionStatus
    requires i in f.instructions
  {
    if Succeeds(f, e, i) then SUCCEEDED
    else if Fails(f, e, i) then FAILED
    else if IsSent(f, e, i) then PROCESSING
    else if IsCleared(f, e, i) then APPROVED
    else f.instructions[i].status
  }

  lemma RunStart(funds: seq<Fund>, events: seq<Event>)
    requires IsRun(funds, events)
    ensures |funds| == |events| + 1 && funds[0] == EMPTY
  {
    hide Step, Possible;
  }

  lemma RunStep(funds: seq<Fund>, events: seq<Event>, k: nat)
    requires IsRun(funds, events) && k < |events|
    ensures |funds| == |events| + 1 && Possible(funds[k], events[k]) && funds[k + 1] == Step(funds[k], events[k]).0
  {
    hide Step, Possible;
  }

  // ------------------------------------------------------------ one request

  /** The one instruction ended in this status. */
  predicate InstructionMoved(f: Fund, g: Fund, i: Id, status: InstructionStatus)
    requires i in f.instructions
  {
    && g.instructions.Keys == f.instructions.Keys
    && (forall j :: j in f.instructions && j != i ==> g.instructions[j] == f.instructions[j])
    && g.instructions[i] == f.instructions[i].(status := status, reference := g.instructions[i].reference)
  }

  /** The money an instruction moves when it succeeds: all of its allocation comes in, and
      an expense it covers is paid. */
  ghost predicate MoneyMoved(f: Fund, g: Fund, target: Target, amount: int) {
    && g.allocations.Keys == f.allocations.Keys && g.expenses.Keys == f.expenses.Keys
    && (forall a :: a in f.allocations ==>
          g.allocations[a].collected == if target == ForAllocation(a) then f.allocations[a].amount else f.allocations[a].collected)
    && (forall x :: x in f.expenses ==>
          g.expenses[x] == if target == ForExpense(x) && amount >= f.expenses[x].amount
                           then f.expenses[x].(status := ExpensePaid) else f.expenses[x])
  }

  predicate MoneyStays(f: Fund, g: Fund) {
    g.allocations == f.allocations && g.calls == f.calls && g.expenses == f.expenses
  }

  ghost predicate Moved(f: Fund, g: Fund, i: Id, status: InstructionStatus, paid: bool)
    requires i in f.instructions
  {
    && InstructionMoved(f, g, i, status)
    && if paid then MoneyMoved(f, g, f.instructions[i].target, f.instructions[i].amount) else MoneyStays(f, g)
  }

  lemma CreditWritten(f: Fund, a: Id, amount: int)
    requires a in f.allocations && AllocationFits(f.allocations[a]) && amount == f.allocations[a].amount
    ensures MoneyMoved(f, Credit(f, a, amount), ForAllocation(a), amount) && Credit(f, a, amount).instructions == f.instructions
  {
    hide Refreshed;
  }

  lemma SettleWritten(f: Fund, x: Id, amount: int)
    ensures MoneyMoved(f, Settle(f, x, amount), ForExpense(x), amount) && Settle(f, x, amount).instructions == f.instructions
  {
  }

  lemma TargetFits(f: Fund, i: Id)
    requires Inv(f) && i in f.instructions && f.instructions[i].target.ForAllocation?
    ensures var a := f.instructions[i].target.allocation;
            a in f.allocations && AllocationFits(f.allocations[a]) && f.instructions[i].amount == f.allocations[a].amount
  {
    assert InstructionFits(f.allocations, f.instructions[i]);
  }

  lemma SuccessWritten(f: Fund, i: Id)
    requires Inv(f) && i in f.instructions
    ensures MarkSuccess(f, i).instructions == f.instructions[i := f.instructions[i].(status := SUCCEEDED)]
    ensures MoneyMoved(f, MarkSuccess(f, i), f.instructions[i].target, f.instructions[i].amount)
  {
    hide Inv, Credit, Settle;
    var row, done := f.instructions[i], SetStatus(f, i, SUCCEEDED);
    match row.target {
      case ForAllocation(a) =>
        TargetFits(f, i);
        CreditWritten(done, a, row.amount);
      case ForExpense(x) => SettleWritten(done, x, row.amount);
    }
  }

  lemma SuccessMoves(f: Fund, i: Id, reference: Option<string>)
    requires Inv(f) && i in f.instructions
    ensures Moved(f, MarkSuccess(SetReference(f, i, reference), i), i, SUCCEEDED, true)
  {
    ReferredFits(f, i, reference);
    hide Inv, MarkSuccess;
    var referred := SetReference(f, i, reference);
    SuccessWritten(referred, i);
    assert referred.allocations == f.allocations && referred.expenses == f.expenses;
    SameMoney(f, referred, MarkSuccess(referred, i), f.instructions[i].target, f.instructions[i].amount);
    hide MoneyMoved;
  }

  lemma SameMoney(f: Fund, g: Fund, h: Fund, target: Target, amount: int)
    requires MoneyMoved(g, h, target, amount) && g.allocations == f.allocations && g.expenses == f.expenses
    ensures MoneyMoved(f, h, target, amount)
  {
  }

  lemma ReferredFits(f: Fund, i: Id, reference: Option<string>)
    requires Inv(f) && i in f.instructions
    ensures Inv(SetReference(f, i, reference))
  {
    InstructionKeeps(f, i, f.instructions[i].(reference := reference));
    hide Inv, AllocationsEvolve, CallsEvolve;
  }

  lemma StatusMoves(f: Fund, i: Id, s: InstructionStatus, reference: Option<string>)
    requires i in f.instructions
    ensures Moved(f, SetStatus(f, i, s), i, s, false)
    ensures Moved(f, SetStatus(SetReference(f, i, reference), i, s), i, s, false)
    ensures Moved(f, SetReference(f, i, reference), i, f.instructions[i].status, false)
    ensures Moved(f, f, i, f.instructions[i].status, false)
  {
  }

  lemma ExecuteMoves(f: Fund, e: Event, i: Id)
    requires Inv(f) && e.Executed? && e.id == i && i in f.instructions
    ensures Moved(f, Step(f, e).0, i, StatusAfter(f, e, i), Succeeds(f, e, i))
  {
    hide Inv, Moved, MarkSuccess, SetStatus, SetReference;
    var x := e.run;
    SuccessMoves(f, i, Some(x.sandboxRef));
    StatusMoves(f, i, FAILED, None);
    if x.payout.Accepted? {
      var reference := AsReference(x.payout.reference);
      SuccessMoves(f, i, reference);
      StatusMoves(f, i, FAILED, reference);
      StatusMoves(f, i, PROCESSING, reference);
    }
  }

  lemma AboutIsFor(f: Fund, d: Delivery, i: Id)
    requires d.event !in f.events
    ensures IsAbout(f, d, i) <==> i in f.instructions && IsFor(f, d, i) && !Ambiguous(f, d)
  {
    if IsAbout(f, d, i) && Ambiguous(f, d) {
      assert false;
    }
    if i in f.instructions && IsFor(f, d, i) && !Ambiguous(f, d) {
      forall j | j in f.instructions && !IsNamed(f, d) && Matches(f, d.reference, j) ensures j == i {}
    }
  }

  lemma DeliveryMoves(f: Fund, e: Event, i: Id)
    requires Inv(f) && e.Delivered? && IsAbout(f, e.delivery, i)
    ensures Moved(f, Step(f, e).0, i, StatusAfter(f, e, i), Succeeds(f, e, i)) && Step(f, e).1 == Done
    ensures Step(f, e).0.events == f.events + {e.delivery.event}
  {
    var d := e.delivery;
    AboutIsFor(f, d, i);
    forall j | j in f.instructions && IsFor(f, d, j) ensures j == i {
      AboutIsFor(f, d, j);
    }
    NotifyMoves(f, e, i);
    hide Inv, IsAbout, Notify, IsFor, Ambiguous, StatusAfter, Succeeds;
    RecordMoves(f, Notify(f, d, i), f.events + {d.event}, i, StatusAfter(f, e, i), Succeeds(f, e, i));
  }

  lemma RecordMoves(f: Fund, g: Fund, events: set<string>, i: Id, s: InstructionStatus, paid: bool)
    requires i in f.instructions && Moved(f, g, i, s, paid)
    ensures Moved(f, g.(events := events), i, s, paid)
  {
  }

  lemma NotifyMoves(f: Fund, e: Event, i: Id)
    requires Inv(f) && e.Delivered? && IsAbout(f, e.delivery, i)
    ensures Moved(f, Notify(f, e.delivery, i), i, StatusAfter(f, e, i), Succeeds(f, e, i))
  {
    hide Inv, Moved, MarkSuccess, SetStatus, SetReference;
    var d := e.delivery;
    var reference := if d.reference != "" then Some(d.reference) else f.instructions[i].reference;
    SuccessMoves(f, i, reference);
    StatusMoves(f, i, FAILED, reference);
    StatusMoves(f, i, PROCESSING, reference);
  }

  lemma DeliveryElsewhere(f: Fund, d: Delivery)
    requires forall i :: !IsAbout(f, d, i)
    ensures var g := Webhook(f, d).0;
            g == f.(events := g.events) && g.events == if d.event in f.events || Ambiguous(f, d) then f.events else f.events + {d.event}
  {
    if d.event !in f.events {
      forall i ensures !(i in f.instructions && IsFor(f, d, i) && !Ambiguous(f, d)) {
        AboutIsFor(f, d, i);
      }
    }
    hide IsAbout, IsFor, Ambiguous, Notify;
  }

  // --------------------------------------------------------------- promises

  /** The instruction the request is about. */
  ghost predicate IsOn(f: Fund, e: Event, i: Id) {
    || (e.Executed? && e.id == i && i in f.instructions)
    || (e.Delivered? && IsAbout(f, e.delivery, i))
    || (e.InstructionDecided? && e.id == i && i in f.instructions)
  }

  lemma DecisionMoves(f: Fund, e: Event, i: Id)
    requires e.InstructionDecided? && e.id == i && i in f.instructions
    ensures Moved(f, Step(f, e).0, i, StatusAfter(f, e, i), Succeeds(f, e, i))
  {
  }

  lemma RequestMoves(f: Fund, e: Event, i: Id)
    requires Inv(f) && Possible(f, e) && IsOn(f, e, i)
    ensures Moved(f, Step(f, e).0, i, StatusAfter(f, e, i), Succeeds(f, e, i))
  {
    hide Inv, Possible, Moved, StatusAfter, Succeeds, Step, IsAbout;
    if e.Executed? {
      ExecuteMoves(f, e, i);
    } else if e.Delivered? {
      DeliveryMoves(f, e, i);
    } else {
      DecisionMoves(f, e, i);
    }
  }

  /** Any other request leaves instructions and collected money alone, and only adds rows;
      of expenses it changes the one that is decided. */
  ghost predicate LeavesMoney(f: Fund, e: Event, g: Fund) {
    && (forall i :: i in f.instructions ==> i in g.instructions && g.instructions[i] == f.instructions[i])
    && (forall a :: a in f.allocations ==> a in g.allocations && g.allocations[a].collected == f.allocations[a].collected)
    && (forall x :: x in f.expenses ==>
          x in g.expenses
          && g.expenses[x] == if e == ExpenseDecided(x, true) then f.expenses[x].(status := ExpenseApproved) else f.expenses[x])
  }

  lemma {:induction false} RowsAdded(allocations: map<Id, Allocation>, call: Id, pieces: seq<Piece>, ids: seq<Id>, a: Id)
    requires |ids| == |pieces| && a in allocations && a !in ids
    ensures a in AddRows(allocations, call, pieces, ids) && AddRows(allocations, call, pieces, ids)[a] == allocations[a]
  {
    if |pieces| > 0 {
      RowsAdded(allocations, call, pieces[..|pieces| - 1], ids[..|pieces| - 1], a);
    }
  }

  lemma CallLeavesMoney(f: Fund, e: Event)
    requires Possible(f, e) && e.Called?
    ensures LeavesMoney(f, e, Step(f, e).0)
  {
    hide CallRefusal, PiecesOf, AddRows;
    var g := Step(f, e).0;
    forall a | a in f.allocations ensures a in g.allocations && g.allocations[a] == f.allocations[a] {
      if !(exists c :: c in f.calls && f.calls[c].expense == e.expense) && CallRefusal(f, e.expense, e.policy, e.holders).None? {
        CalledFor(f, e.expense, e.policy, e.holders);
        RowsAdded(f.allocations, e.id, PiecesOf(f, e.expense, e.policy.value), e.ids, a);
      }
    }
  }

  lemma CalledFor(f: Fund, expense: Id, policy: Option<Policy>, holders: set<HolderId>)
    requires CallRefusal(f, expense, policy, holders).None?
    ensures expense in f.expenses && policy.Some? && WeightsOf(policy.value.basis) != [] && DenominatorOf(policy.value.basis) > 0
  {
  }

  lemma OthersLeaveMoney(f: Fund, e: Event)
    requires Possible(f, e) && forall i :: !IsOn(f, e, i)
    ensures LeavesMoney(f, e, Step(f, e).0)
  {
    hide CreateCall, MandateAccepts, Webhook, IsAbout, Execute, Approve, LeavesMoney, Schedule, CreatePayout, ApproveExpense, NewExpense;
    match e
    case Called(_, _, _, _, _) => CallLeavesMoney(f, e);
    case Delivered(d) =>
      forall i ensures !IsAbout(f, d, i) { assert !IsOn(f, e, i); }
      DeliveryElsewhere(f, d);
      MoneyLeft(f, e, Webhook(f, d).0);
    case Executed(id, _) =>
      assert !IsOn(f, e, id);
      NoInstruction(f, e, id);
    case InstructionDecided(id, _) =>
      assert !IsOn(f, e, id);
      NoInstruction(f, e, id);
    case _ => NewRowsLeaveMoney(f, e);
  }

  lemma MoneyLeft(f: Fund, e: Event, g: Fund)
    requires g.instructions == f.instructions && g.allocations == f.allocations && g.expenses == f.expenses && !e.ExpenseDecided?
    ensures LeavesMoney(f, e, g)
  {
  }

  lemma NoInstruction(f: Fund, e: Event, i: Id)
    requires (e.Executed? || e.InstructionDecided?) && e.id == i && i !in f.instructions
    ensures LeavesMoney(f, e, Step(f, e).0)
  {
  }

  lemma NewRowsLeaveMoney(f: Fund, e: Event)
    requires Possible(f, e) && (e.Expensed? || e.ExpenseDecided? || e.Scheduled? || e.PayoutAsked?)
    ensures LeavesMoney(f, e, Step(f, e).0)
  {
    if e.Scheduled? {
      ScheduleLeavesMoney(f, e);
    } else if e.PayoutAsked? {
      PayoutLeavesMoney(f, e);
    }
    hide Schedule, CreatePayout;
  }

  lemma ScheduleLeavesMoney(f: Fund, e: Event)
    requires Possible(f, e) && e.Scheduled?
    ensures LeavesMoney(f, e, Step(f, e).0)
  {
    hide MandateAccepts;
  }

  lemma PayoutLeavesMoney(f: Fund, e: Event)
    requires Possible(f, e) && e.PayoutAsked?
    ensures LeavesMoney(f, e, Step(f, e).0)
  {
  }

  // Over runs.

  /** In every run the money collected for an allocation rises at a step if and only if it had
      not come in and an instruction for it succeeds there: by an approved, due execution in
      the sandbox under a mandate that allows it, or by the first delivery of an event that
      is about it under one of the three success names. All of it comes in at once. */
  lemma CollectedRisesExactly(funds: seq<Fund>, events: seq<Event>, n: nat, a: Id)
    requires IsRun(funds, events) && n < |events| && a in funds[n].allocations
    ensures a in funds[n + 1].allocations
    ensures var row, later := funds[n].allocations[a], funds[n + 1].allocations[a];
            && (later.collected > row.collected
                <==> row.collected < row.amount
                     && exists i :: i in funds[n].instructions && funds[n].instructions[i].target == ForAllocation(a) && Succeeds(funds[n], events[n], i))
            && (later.collected > row.collected ==> later.collected == row.amount)
  {
    var f, e := funds[n], events[n];
    RunKeeps(funds, events, n);
    RunStep(funds, events, n);
    assert AllocationFits(f.allocations[a]);
    hide IsRun, Inv, Possible, Step, StatusAfter;
    SucceedsIsOn(f, e);
    if i :| IsOn(f, e, i) {
      RequestMoves(f, e, i);
      hide Succeeds, IsOn;
    } else {
      hide Succeeds, IsOn;
      OthersLeaveMoney(f, e);
    }
  }

  lemma SucceedsIsOn(f: Fund, e: Event)
    ensures forall i :: Succeeds(f, e, i) || Fails(f, e, i) ==> IsOn(f, e, i)
    ensures forall i, j :: IsOn(f, e, i) && IsOn(f, e, j) ==> i == j
  {
  }

  /** In every run an expense becomes PAID at a step if and only if a payout of its whole
      amount succeeds there. */
  lemma ExpensePaidExactly(funds: seq<Fund>, events: seq<Event>, n: nat, x: Id)
    requires IsRun(funds, events) && n < |events| && x in funds[n].expenses && funds[n].expenses[x].status != ExpensePaid
    ensures x in funds[n + 1].expenses
    ensures funds[n + 1].expenses[x].status == ExpensePaid
       <==> exists i :: i in funds[n].instructions && funds[n].instructions[i].target == ForExpense(x)
              && funds[n].instructions[i].amount >= funds[n].expenses[x].amount && Succeeds(funds[n], events[n], i)
  {
    var f, e := funds[n], events[n];
    RunKeeps(funds, events, n);
    RunStep(funds, events, n);
    hide IsRun, Inv, Possible, Step, StatusAfter;
    SucceedsIsOn(f, e);
    if i :| IsOn(f, e, i) {
      RequestMoves(f, e, i);
      hide Succeeds, IsOn;
    } else {
      hide Succeeds, IsOn;
      OthersLeaveMoney(f, e);
    }
  }

  /** One request, seen from an instruction. */
  lemma InstructionStep(f: Fund, e: Event, i: Id)
    requires Inv(f) && Possible(f, e) && i in f.instructions
    ensures var g := Step(f, e).0;
            && i in g.instructions && g.instructions[i].status == StatusAfter(f, e, i)
            && g.instructions[i].target == f.instructions[i].target && g.instructions[i].amount == f.instructions[i].amount
  {
    hide Inv, Possible, Step, MoneyMoved, StatusAfter;
    if j :| IsOn(f, e, j) {
      RequestMoves(f, e, j);
      if j != i { NotOn(f, e, i, j); }
    } else {
      OthersLeaveMoney(f, e);
      Quiet(f, e, i);
    }
    hide IsOn;
  }

  /** An instruction no request is about stays as it is. */
  lemma Quiet(f: Fund, e: Event, i: Id)
    requires i in f.instructions && !IsOn(f, e, i)
    ensures StatusAfter(f, e, i) == f.instructions[i].status
  {
    hide IsAbout;
  }

  lemma NotOn(f: Fund, e: Event, i: Id, j: Id)
    requires i in f.instructions && IsOn(f, e, j) && i != j
    ensures StatusAfter(f, e, i) == f.instructions[i].status
  {
    SucceedsIsOn(f, e);
    assert !IsOn(f, e, i) by { hide IsOn; }
    Quiet(f, e, i);
    hide StatusAfter, IsOn;
  }

  /** In every run an instruction moves as the requests about it say: a success or failure
      name of a first delivery settles it whatever it was, any other name leaves a settled one
      alone and makes the rest PROCESSING; an approved and due one is executed; an approval
      clears one that is not settled; and nothing else moves it. */
  lemma InstructionMovesExactly(funds: seq<Fund>, events: seq<Event>, n: nat, i: Id)
    requires IsRun(funds, events) && n < |events| && i in funds[n].instructions
    ensures i in funds[n + 1].instructions
    ensures funds[n + 1].instructions[i].status == StatusAfter(funds[n], events[n], i)
    ensures funds[n + 1].instructions[i].target == funds[n].instructions[i].target
    ensures funds[n + 1].instructions[i].amount == funds[n].instructions[i].amount
  {
    hide IsRun, Inv, Possible, Step, StatusAfter;
    RunKeeps(funds, events, n);
    RunStep(funds, events, n);
    InstructionStep(funds[n], events[n], i);
  }

  /** A delivery under a failure name about an instruction moves no money: allocations, calls
      and expenses stay, and the instruction is FAILED. */
  lemma FailureMovesNoMoney(funds: seq<Fund>, events: seq<Event>, n: nat, i: Id)
    requires IsRun(funds, events) && n < |events| && events[n].Delivered? && IsAbout(funds[n], events[n].delivery, i)
    requires events[n].delivery.kind in {"payout.failed", "payout.reversed", "payout.cancelled", "payment.failed", "subscription.halted"}
    ensures MoneyStays(funds[n], funds[n + 1])
    ensures i in funds[n + 1].instructions && funds[n + 1].instructions[i].status == FAILED
  {
    var f, e := funds[n], events[n];
    RunKeeps(funds, events, n);
    RunStep(funds, events, n);
    KindsDiffer(e.delivery.kind);
    hide IsRun, Inv, Possible, Step, MoneyMoved, IsAbout;
    RequestMoves(f, e, i);
  }

  lemma KindsDiffer(kind: string)
    requires kind in {"payout.failed", "payout.reversed", "payout.cancelled", "payment.failed", "subscription.halted"}
    ensures kind !in {"payout.processed", "payment.captured", "subscription.charged"}
  {
  }

  // ------------------------------------------------ approvals behind payments

  ghost predicate ClearedAt(funds: seq<Fund>, events: seq<Event>, k: nat, i: Id) {
    k < |events| < |funds| && IsCleared(funds[k], events[k], i)
  }

  /** An instruction that waits for execution was approved, and nothing has moved it since. */
  lemma {:induction false} ApprovedWasDecided(funds: seq<Fund>, events: seq<Event>, n: nat, i: Id) returns (k: nat)
    requires IsRun(funds, events) && n <= |events| && i in funds[n].instructions && funds[n].instructions[i].status == APPROVED
    ensures k < n && ClearedAt(funds, events, k, i)
  {
    hide Step, Possible, Inv, IsAbout;
    if n == 0 {
      assert false;
    } else {
      k := n - 1;
      if i in funds[n - 1].instructions {
        InstructionMovesExactly(funds, events, n - 1, i);
        if !IsCleared(funds[n - 1], events[n - 1], i) {
          k := ApprovedWasDecided(funds, events, n - 1, i);
        }
      } else {
        RunKeeps(funds, events, n - 1);
        StartsPending(funds[n - 1], events[n - 1], i);
      }
    }
  }

  lemma StartsPending(f: Fund, e: Event, i: Id)
    requires Inv(f) && Possible(f, e) && i !in f.instructions && i in Step(f, e).0.instructions
    ensures Step(f, e).0.instructions[i].status == PENDING_APPROVAL
  {
    if j :| IsOn(f, e, j) {
      RequestMoves(f, e, j);
      hide Inv, Possible, Step, MoneyMoved, IsOn;
      assert false;
    } else if e.Delivered? {
      forall j ensures !IsAbout(f, e.delivery, j) { assert !IsOn(f, e, j); }
      DeliveryElsewhere(f, e.delivery);
      hide Inv, IsAbout, IsOn, Webhook;
      assert false;
    } else {
      hide Inv, IsAbout;
      NotExecuted(f, e);
      NewRowsPending(f, e, i);
    }
  }

  lemma NotExecuted(f: Fund, e: Event)
    requires forall j :: !IsOn(f, e, j)
    ensures (e.Executed? || e.InstructionDecided?) ==> e.id !in f.instructions
  {
    if e.Executed? || e.InstructionDecided? {
      assert !IsOn(f, e, e.id);
    }
  }

  lemma NewRowsPending(f: Fund, e: Event, i: Id)
    requires Possible(f, e) && i !in f.instructions && i in Step(f, e).0.instructions && !e.Delivered?
    requires (e.Executed? || e.InstructionDecided?) ==> e.id !in f.instructions
    ensures Step(f, e).0.instructions[i].status == PENDING_APPROVAL
  {
    hide MandateAccepts, CallRefusal, PiecesOf, AddRows;
  }

  /** Whatever an execution does, the instruction's maker-checker request was approved before. */
  lemma ExecutedWasApproved(funds: seq<Fund>, events: seq<Event>, n: nat, i: Id) returns (k: nat)
    requires IsRun(funds, events) && n < |events| && events[n].Executed? && events[n].id == i && i in funds[n].instructions
    requires funds[n + 1] != funds[n]
    ensures k < n && ClearedAt(funds, events, k, i)
  {
    ExecutionNeedsApproval(funds[n], events[n], i);
    hide Step, Possible;
    k := ApprovedWasDecided(funds, events, n, i);
  }

  lemma ExecutionNeedsApproval(f: Fund, e: Event, i: Id)
    requires e.Executed? && e.id == i && i in f.instructions
    ensures Step(f, e).0 != f ==> f.instructions[i].status == APPROVED
  {
    hide MarkSuccess, MandateAccepts;
  }

  // ----------------------------------------------------------- idempotency

  ghost predicate AskedAt(funds: seq<Fund>, events: seq<Event>, k: nat, key: string, input: string) {
    && k < |events| < |funds| && Possible(funds[k], events[k]) && Step(funds[k], events[k]).1 == Done
    && (events[k].Scheduled? || events[k].PayoutAsked?) && events[k].key == key && events[k].input == input
  }

  ghost predicate AskedBefore(funds: seq<Fund>, events: seq<Event>, n: nat, key: string, input: string) {
    exists k :: 0 <= k < n && AskedAt(funds, events, k, key, input)
  }

  predicate HasKey(f: Fund, key: string, input: string) {
    exists i :: i in f.instructions && f.instructions[i].key == key && f.instructions[i].input == input
  }

  lemma KeyStep(f: Fund, e: Event, key: string, input: string)
    requires Inv(f) && Possible(f, e)
    ensures HasKey(Step(f, e).0, key, input)
       <==> HasKey(f, key, input) || ((e.Scheduled? || e.PayoutAsked?) && e.key == key && e.input == input && Step(f, e).1 == Done)
  {
    if j :| IsOn(f, e, j) {
      RequestMoves(f, e, j);
      NotAsked(f, e, j);
      hide Inv, Possible, Step, MoneyMoved, IsOn;
      var g := Step(f, e).0;
      assert forall i :: i in f.instructions ==> g.instructions[i].key == f.instructions[i].key && g.instructions[i].input == f.instructions[i].input;
    } else if e.Delivered? {
      forall j ensures !IsAbout(f, e.delivery, j) { assert !IsOn(f, e, j); }
      DeliveryElsewhere(f, e.delivery);
      hide Inv, IsAbout, IsOn, Webhook;
    } else {
      NotExecuted(f, e);
      hide Inv, IsAbout, IsOn;
      NewKey(f, e, key, input);
    }
  }

  lemma NotAsked(f: Fund, e: Event, j: Id)
    requires IsOn(f, e, j)
    ensures !e.Scheduled? && !e.PayoutAsked?
  {
  }

  lemma NewKey(f: Fund, e: Event, key: string, input: string)
    requires Possible(f, e) && !e.Delivered?
    requires (e.Executed? || e.InstructionDecided?) ==> e.id !in f.instructions
    ensures HasKey(Step(f, e).0, key, input)
       <==> HasKey(f, key, input) || ((e.Scheduled? || e.PayoutAsked?) && e.key == key && e.input == input && Step(f, e).1 == Done)
  {
    hide MandateAccepts, CallRefusal, PiecesOf, AddRows;
    if e.Scheduled? || e.PayoutAsked? {
      NewInstructionKey(f, e, key, input);
    }
  }

  lemma NewInstructionKey(f: Fund, e: Event, key: string, input: string)
    requires Possible(f, e) && (e.Scheduled? || e.PayoutAsked?)
    ensures HasKey(Step(f, e).0, key, input)
       <==> HasKey(f, key, input) || (e.key == key && e.input == input && Step(f, e).1 == Done)
  {
    hide MandateAccepts;
    var g := Step(f, e).0;
    if Step(f, e).1 == Done {
      assert g.instructions == f.instructions[e.id := g.instructions[e.id]] && g.instructions[e.id].key == e.key && g.instructions[e.id].input == e.input;
      assert forall i :: i in f.instructions ==> i in g.instructions && g.instructions[i] == f.instructions[i];
      hide Step;
    }
  }

  /** A key with this input is on record if and only if it was asked for and granted before. */
  lemma {:induction false} KeyOnRecord(funds: seq<Fund>, events: seq<Event>, n: nat, key: string, input: string)
    requires IsRun(funds, events) && n <= |events|
    ensures HasKey(funds[n], key, input) <==> AskedBefore(funds, events, n, key, input)
  {
    RunHasLength(funds, events);
    if n > 0 {
      RunKeeps(funds, events, n - 1);
      assert Possible(funds[n - 1], events[n - 1]) && funds[n] == Step(funds[n - 1], events[n - 1]).0;
      hide IsRun, Step, Possible, Inv, HasKey;
      KeyOnRecord(funds, events, n - 1, key, input);
      KeyStep(funds[n - 1], events[n - 1], key, input);
      AskedSnoc(funds, events, n, key, input);
    }
  }

  lemma AskedSnoc(funds: seq<Fund>, events: seq<Event>, n: nat, key: string, input: string)
    requires n > 0
    ensures AskedBefore(funds, events, n, key, input)
       <==> AskedBefore(funds, events, n - 1, key, input) || AskedAt(funds, events, n - 1, key, input)
  {
    hide AskedAt;
  }

  /** In every run a collection asked for again under its key finds the first instruction,
      the key with another input is refused, and a new key is taken for an allocation none of
      whose positive amount has come in, under a mandate that allows all of it today. */
  lemma ScheduledExactly(funds: seq<Fund>, events: seq<Event>, n: nat, e: Event)
    requires IsRun(funds, events) && n <= |events| && e.Scheduled? && Possible(funds[n], e)
    ensures var f, (g, reply) := funds[n], Step(funds[n], e);
            && (reply == Done <==>
                  && e.allocation in f.allocations && (forall input :: !AskedBefore(funds, events, n, e.key, input))
                  && f.allocations[e.allocation].collected == 0 && f.allocations[e.allocation].amount > 0
                  && Allows(e.mandate, f.allocations[e.allocation].amount, f.allocations[e.allocation].holder, e.today))
            && (reply == Existing <==>
                  e.allocation in f.allocations && e.mandate.Some? && AskedBefore(funds, events, n, e.key, e.input))
            && (reply == Done ==>
                  && g.allocations == f.allocations[e.allocation := f.allocations[e.allocation].(status := SCHEDULED)]
                  && g.instructions == f.instructions[e.id := Instruction(ForAllocation(e.allocation), f.allocations[e.allocation].amount,
                                                                          e.provider, PENDING_APPROVAL, e.key, e.input, None)])
            && (reply != Done ==> g == f)
  {
    RunHasLength(funds, events);
    RunKeeps(funds, events, n);
    hide IsRun, Inv, Step, Possible, AskedBefore, HasKey, Allows;
    forall input ensures HasKey(funds[n], e.key, input) <==> AskedBefore(funds, events, n, e.key, input) {
      KeyOnRecord(funds, events, n, e.key, input);
    }
    ScheduledByKey(funds[n], e);
  }

  lemma ScheduledByKey(f: Fund, e: Event)
    requires Inv(f) && e.Scheduled? && Possible(f, e)
    ensures var (g, reply) := Step(f, e);
            && (reply == Done <==>
                  && e.allocation in f.allocations && (forall input :: !HasKey(f, e.key, input))
                  && f.allocations[e.allocation].collected == 0 && f.allocations[e.allocation].amount > 0
                  && Allows(e.mandate, f.allocations[e.allocation].amount, f.allocations[e.allocation].holder, e.today))
            && (reply == Existing <==> e.allocation in f.allocations && e.mandate.Some? && HasKey(f, e.key, e.input))
            && (reply == Done ==>
                  && g.allocations == f.allocations[e.allocation := f.allocations[e.allocation].(status := SCHEDULED)]
                  && g.instructions == f.instructions[e.id := Instruction(ForAllocation(e.allocation), f.allocations[e.allocation].amount,
                                                                          e.provider, PENDING_APPROVAL, e.key, e.input, None)])
            && (reply != Done ==> g == f)
  {
    if e.allocation in f.allocations {
      assert AllocationFits(f.allocations[e.allocation]);
    }
    hide Inv, Step, Allows, AllocationFits;
    var used := exists i :: i in f.instructions && f.instructions[i].key == e.key;
    assert forall i :: i in f.instructions && f.instructions[i].key == e.key ==> HasKey(f, e.key, f.instructions[i].input);
    assert used <==> exists input :: HasKey(f, e.key, input);
    var same := HasKey(f, e.key, e.input);
    ScheduledRow(f, e, used, same);
    hide HasKey;
  }

  lemma ScheduledRow(f: Fund, e: Event, used: bool, same: bool)
    requires e.Scheduled? && Possible(f, e) && (e.allocation in f.allocations ==> AllocationFits(f.allocations[e.allocation]))
    requires used == exists i :: i in f.instructions && f.instructions[i].key == e.key
    requires same == exists i :: i in f.instructions && f.instructions[i].key == e.key && f.instructions[i].input == e.input
    ensures var (g, reply) := Step(f, e);
            && (reply == Done <==>
                  && e.allocation in f.allocations && !used
                  && f.allocations[e.allocation].collected == 0 && f.allocations[e.allocation].amount > 0
                  && Allows(e.mandate, f.allocations[e.allocation].amount, f.allocations[e.allocation].holder, e.today))
            && (reply == Existing <==> e.allocation in f.allocations && e.mandate.Some? && same)
            && (reply == Done ==>
                  && g.allocations == f.allocations[e.allocation := f.allocations[e.allocation].(status := SCHEDULED)]
                  && g.instructions == f.instructions[e.id := Instruction(ForAllocation(e.allocation), f.allocations[e.allocation].amount,
                                                                          e.provider, PENDING_APPROVAL, e.key, e.input, None)])
            && (reply != Done ==> g == f)
  {
    if e.allocation in f.allocations {
      AllowsIsAccepts(e.mandate, f.allocations[e.allocation].amount, f.allocations[e.allocation].holder, e.today);
    }
    hide Allows, MandateAccepts;
  }

  lemma AllowsIsAccepts(m: Option<Mandate>, amount: int, holder: Id, today: string)
    ensures Allows(m, amount, holder, today) <==> m.Some? && MandateAccepts(m.value, amount, holder, today)
  {
  }

  /** The same of payouts, which need an approved expense, a vendor and an amount within it. */
  lemma PayoutExactly(funds: seq<Fund>, events: seq<Event>, n: nat, e: Event)
    requires IsRun(funds, events) && n <= |events| && e.PayoutAsked? && Possible(funds[n], e)
    ensures var f, (g, reply) := funds[n], Step(funds[n], e);
            && (reply == Done <==>
                  && (forall input :: !AskedBefore(funds, events, n, e.key, input))
                  && e.expense in f.expenses && f.expenses[e.expense].status == ExpenseApproved && e.vendor
                  && (e.asked.Some? ==> e.asked.value <= f.expenses[e.expense].amount))
            && (reply == Existing <==> AskedBefore(funds, events, n, e.key, e.input))
            && (reply == Done ==>
                  g == f.(instructions := f.instructions[e.id :=
                    Instruction(ForExpense(e.expense), if e.asked.Some? then e.asked.value else f.expenses[e.expense].amount,
                                e.provider, PENDING_APPROVAL, e.key, e.input, None)]))
            && (reply != Done ==> g == f)
  {
    var f := funds[n];
    forall input ensures HasKey(f, e.key, input) <==> AskedBefore(funds, events, n, e.key, input) {
      KeyOnRecord(funds, events, n, e.key, input);
    }
    hide IsRun, AskedBefore;
    assert forall i :: i in f.instructions && f.instructions[i].key == e.key ==> HasKey(f, e.key, f.instructions[i].input);
  }

  // ------------------------------------------------------------------ calls

  ghost predicate CalledAt(funds: seq<Fund>, events: seq<Event>, k: nat, expense: Id) {
    && k < |events| < |funds| && events[k].Called? && events[k].expense == expense
    && Possible(funds[k], events[k]) && Step(funds[k], events[k]).1 == Done
  }

  ghost predicate CalledBefore(funds: seq<Fund>, events: seq<Event>, n: nat, expense: Id) {
    exists k :: 0 <= k < n && CalledAt(funds, events, k, expense)
  }

  predicate HasCall(f: Fund, expense: Id) { exists c :: c in f.calls && f.calls[c].expense == expense }

  lemma CallStep(f: Fund, e: Event, expense: Id)
    requires Inv(f) && Possible(f, e)
    ensures HasCall(Step(f, e).0, expense) <==> HasCall(f, expense) || (e.Called? && e.expense == expense && Step(f, e).1 == Done)
  {
    hide Inv, Step, Possible, HasCall, AllocationsEvolve;
    var g := Step(f, e).0;
    if e.Called? {
      NewCallNamed(f, e);
      if Step(f, e).1 == Done {
        OneMoreCall(f, g, e.id, expense);
      }
    } else {
      NoNewCall(f, e);
      StepKeeps(f, e);
      SameCallsNamed(f, g, expense);
    }
  }

  lemma OneMoreCall(f: Fund, g: Fund, id: Id, expense: Id)
    requires id !in f.calls && id in g.calls && g.calls == f.calls[id := g.calls[id]]
    ensures HasCall(g, expense) <==> HasCall(f, expense) || g.calls[id].expense == expense
  {
    assert forall c :: c in f.calls ==> c in g.calls && g.calls[c] == f.calls[c];
  }

  lemma SameCallsNamed(f: Fund, g: Fund, expense: Id)
    requires g.calls.Keys == f.calls.Keys && CallsEvolve(f.calls, g.calls)
    ensures HasCall(g, expense) <==> HasCall(f, expense)
  {
    assert forall c :: c in f.calls ==> CallEvolves(f.calls[c], g.calls[c]);
    assert forall c :: c in g.calls <==> c in f.calls;
  }

  lemma NewCallNamed(f: Fund, e: Event)
    requires Possible(f, e) && e.Called?
    ensures e.id !in f.calls
    ensures var (g, reply) := Step(f, e);
            if reply == Done
            then e.expense in f.expenses && g.calls == f.calls[e.id := Call(e.expense, f.expenses[e.expense].amount, e.ids, ISSUED)]
            else g == f
  {
    hide CallRefusal, PiecesOf, AddRows;
    if CallRefusal(f, e.expense, e.policy, e.holders).None? {
      CalledFor(f, e.expense, e.policy, e.holders);
    }
  }

  lemma NoNewCall(f: Fund, e: Event)
    requires Possible(f, e) && !e.Called?
    ensures Step(f, e).0.calls.Keys == f.calls.Keys
  {
    hide MandateAccepts, MarkSuccess, Webhook;
    match e
    case Executed(id, run) => if id in f.instructions {
      SuccessCalls(f, id, Some(run.sandboxRef));
      if run.payout.Accepted? { SuccessCalls(f, id, AsReference(run.payout.reference)); }
    }
    case Delivered(d) => DeliveredCalls(f, d);
    case _ =>
  }

  lemma SuccessCalls(f: Fund, id: Id, reference: Option<string>)
    requires id in f.instructions
    ensures MarkSuccess(SetReference(f, id, reference), id).calls.Keys == f.calls.Keys
  {
    hide Refreshed, Credited;
  }

  lemma DeliveredCalls(f: Fund, d: Delivery)
    ensures Webhook(f, d).0.calls.Keys == f.calls.Keys
  {
    hide Ambiguous, MarkSuccess, IsFor;
    forall i | i in f.instructions ensures Notify(f, d, i).calls.Keys == f.calls.Keys {
      SuccessCalls(f, i, if d.reference != "" then Some(d.reference) else f.instructions[i].reference);
    }
    hide Notify;
  }

  lemma {:induction false} CallOnRecord(funds: seq<Fund>, events: seq<Event>, n: nat, expense: Id)
    requires IsRun(funds, events) && n <= |events|
    ensures HasCall(funds[n], expense) <==> CalledBefore(funds, events, n, expense)
  {
    hide IsRun, Step, Possible, Inv, HasCall, CalledAt;
    RunStart(funds, events);
    if n > 0 {
      RunKeeps(funds, events, n - 1);
      RunStep(funds, events, n - 1);
      CallOnRecord(funds, events, n - 1, expense);
      CallStep(funds[n - 1], events[n - 1], expense);
      CalledSnoc(funds, events, n, expense);
      WhenCalled(funds, events, n - 1, expense);
    } else {
      NoCall(expense);
    }
  }

  lemma WhenCalled(funds: seq<Fund>, events: seq<Event>, k: nat, expense: Id)
    requires k < |events| < |funds| && Possible(funds[k], events[k])
    ensures CalledAt(funds, events, k, expense)
       <==> events[k].Called? && events[k].expense == expense && Step(funds[k], events[k]).1 == Done
  {
    hide Step, Possible;
  }

  lemma NoCall(expense: Id)
    ensures !HasCall(EMPTY, expense)
  {
  }

  lemma CalledSnoc(funds: seq<Fund>, events: seq<Event>, n: nat, expense: Id)
    requires n > 0
    ensures CalledBefore(funds, events, n, expense)
       <==> CalledBefore(funds, events, n - 1, expense) || CalledAt(funds, events, n - 1, expense)
  {
    hide CalledAt;
  }

  /** In every run an expense is called for at most once: a second call finds the first. A call
      is made for an approved expense of the shareholders, under an active policy that its
      amount does not exceed (no or zero maximum means none), when the policy has weights and
      all their holders are known; its rows are the split of the whole amount, nothing
      collected. */
  lemma CalledExactly(funds: seq<Fund>, events: seq<Event>, n: nat, e: Event)
    requires IsRun(funds, events) && n <= |events| && e.Called? && Possible(funds[n], e)
    ensures var f, (g, reply) := funds[n], Step(funds[n], e);
            && (reply == Existing <==> CalledBefore(funds, events, n, e.expense))
            && (reply == Done <==> !CalledBefore(funds, events, n, e.expense) && MayCall(f, e))
            && (reply != Done ==> g == f)
            && (reply == Done ==> g.calls == f.calls[e.id := Call(e.expense, f.expenses[e.expense].amount, e.ids, ISSUED)])
  {
    RunHasLength(funds, events);
    hide IsRun, Possible, Step, CalledBefore, WeightsOf, DenominatorOf;
    CallOnRecord(funds, events, n, e.expense);
    CallGranted(funds[n], e);
    hide HasCall;
  }

  lemma CallGranted(f: Fund, e: Event)
    requires e.Called? && Possible(f, e)
    ensures var (g, reply) := Step(f, e);
            && (reply == Existing <==> HasCall(f, e.expense))
            && (reply == Done <==> !HasCall(f, e.expense) && MayCall(f, e))
            && (reply != Done ==> g == f)
            && (reply == Done ==> g.calls == f.calls[e.id := Call(e.expense, f.expenses[e.expense].amount, e.ids, ISSUED)])
  {
    NewCallNamed(f, e);
    RefusedExactly(f, e);
    hide CallRefusal, PiecesOf, AddRows, NewIds, MayCall;
  }

  /** An approved expense of the shareholders, an active policy that its amount does not exceed
      (no or zero maximum means none), and weights of known holders. */
  predicate MayCall(f: Fund, e: Event)
    requires e.Called?
  {
    && e.expense in f.expenses && f.expenses[e.expense].status == ExpenseApproved && f.expenses[e.expense].byShareholders
    && e.policy.Some? && e.policy.value.active
    && (e.policy.value.maxCall in {None, Some(0)} || f.expenses[e.expense].amount <= e.policy.value.maxCall.value)
    && WeightsOf(e.policy.value.basis) != [] && DenominatorOf(e.policy.value.basis) > 0
    && forall i :: 0 <= i < |WeightsOf(e.policy.value.basis)| ==> WeightsOf(e.policy.value.basis)[i].holder in e.holders
  }

  lemma RefusedExactly(f: Fund, e: Event)
    requires e.Called?
    ensures CallRefusal(f, e.expense, e.policy, e.holders).None? <==> MayCall(f, e)
  {
    hide WeightsOf, DenominatorOf;
  }

  /** The rows of a new call are the pieces of the split, and the others stay. */
  lemma CalledRows(f: Fund, e: Event, k: nat)
    requires Possible(f, e) && e.Called? && Step(f, e).1 == Done && k < |e.ids|
    ensures e.expense in f.expenses && e.policy.Some? && ValidBasis(e.policy.value.basis)
    ensures var basis := e.policy.value.basis;
            && WeightsOf(basis) != [] && DenominatorOf(basis) > 0 && Splittable(WeightsOf(basis), DenominatorOf(basis))
            && var pieces := SplitSpec(f.expenses[e.expense].amount, DenominatorOf(basis), WeightsOf(basis));
            && |e.ids| == |pieces| && e.ids[k] in Step(f, e).0.allocations
            && Step(f, e).0.allocations[e.ids[k]] == Allocation(e.id, pieces[k].holder, pieces[k].amount, 0, PENDING)
  {
    CalledFor(f, e.expense, e.policy, e.holders);
    BasisIsSplittable(e.policy.value.basis);
    var pieces := PiecesOf(f, e.expense, e.policy.value);
    RowOfPiece(f.allocations, e.id, pieces, e.ids, k);
    hide CallRefusal, AddRows, SplitSpec;
  }

  lemma {:induction false} RowOfPiece(allocations: map<Id, Allocation>, call: Id, pieces: seq<Piece>, ids: seq<Id>, k: nat)
    requires |ids| == |pieces| && k < |ids| && forall i, j :: 0 <= i < j < |ids| ==> ids[i] != ids[j]
    ensures ids[k] in AddRows(allocations, call, pieces, ids)
    ensures AddRows(allocations, call, pieces, ids)[ids[k]] == Allocation(call, pieces[k].holder, pieces[k].amount, 0, PENDING)
  {
    var n := |pieces| - 1;
    if k < n {
      RowOfPiece(allocations, call, pieces[..n], ids[..n], k);
    }
  }
}
