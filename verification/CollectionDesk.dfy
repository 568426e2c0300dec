/** The collection service as it runs (Backend/backend/finance_ownership.py): rows
    fetched and assigned. Every method ends in the state and the reply that
    Collections states for it, and a desk that serves requests goes through a run of
    CollectionRuns. */
module CollectionDesk {
  import opened Sums
  import opened ContributionSplit
  import opened Collections
  import opened CollectionInvariants
  import opened CollectionRuns

  lemma AllowedCall(f: Fund, expense: Id, policy: Option<Policy>, holders: set<HolderId>)
    requires CallRefusal(f, expense, policy, holders).None?
    ensures expense in f.expenses && policy.Some?
    ensures WeightsOf(policy.value.basis) != [] && DenominatorOf(policy.value.basis) > 0
  {
    hide WeightsOf, DenominatorOf;
  }

  lemma NoTarget(f: Fund, d: Delivery)
    requires d.event !in f.events && !Ambiguous(f, d)
    requires forall i :: i in f.instructions ==> !IsFor(f, d, i)
    ensures Collections.Webhook(f, d) == (f.(events := f.events + {d.event}), Done)
  {
    hide Ambiguous, IsFor, Collections.Notify;
  }

  lemma OneTarget(f: Fund, d: Delivery, i: Id)
    requires d.event !in f.events && !Ambiguous(f, d) && i in f.instructions
    requires forall j :: j in f.instructions && IsFor(f, d, j) <==> j == i
    ensures Collections.Webhook(f, d) == (Collections.Notify(f, d, i).(events := f.events + {d.event}), Done)
  {
    hide Ambiguous, IsFor, Collections.Notify;
    assert IsFor(f, d, i);
  }

  lemma OneFound(f: Fund, d: Delivery, i: Id)
    requires !Ambiguous(f, d) && i in f.instructions && IsFor(f, d, i)
    ensures forall j :: j in f.instructions && IsFor(f, d, j) ==> j == i
  {
    hide Matches;
  }

  class Desk {
    var expenses: map<Id, Expense>
    var calls: map<Id, Call>
    var allocations: map<Id, Allocation>
    var instructions: map<Id, Instruction>
    var events: set<string>
    ghost var funds: seq<Fund>
    ghost var requests: seq<Event>

    constructor ()
      ensures Valid() && requests == []
    {
      expenses, calls, allocations, instructions, events := map[], map[], map[], map[], {};
      funds, requests := [EMPTY], [];
    }

    /** What was served so far is a run that ends in these tables. */
    ghost predicate Valid()
      reads this
    {
      IsRun(funds, requests) && funds[|requests|] == View()
    }

    function View(): Fund
      reads this
    {
      Fund(expenses, calls, allocations, instructions, events)
    }

    /** `create_call`: guards, split, one row per piece. */
    method CreateCall(expense: Id, policy: Option<Policy>, holders: set<HolderId>, id: Id,
                      ids: seq<Id>) returns (r: Reply)
      requires policy.Some? ==> ValidBasis(policy.value.basis)
      requires CallRefusal(View(), expense, policy, holders).None? ==> |ids| == |PiecesOf(View(), expense, policy.value)|
      modifies this`calls, this`allocations
      ensures (View(), r) == Collections.CreateCall(old(View()), expense, policy, holders, id, ids)
    {
      hide CallRefusal, SplitSpec, AddRows, ValidBasis, WeightsOf, DenominatorOf;
      if exists c | c in calls :: calls[c].expense == expense { return Existing; }
      var refusal := CallRefusal(View(), expense, policy, holders);
      if refusal.Some? { return Refused(refusal.value); }
      AllowedCall(View(), expense, policy, holders);
      var basis := policy.value.basis;
      BasisIsSplittable(basis);
      var pieces := Split(expenses[expense].amount, DenominatorOf(basis), WeightsOf(basis));
      calls := calls[id := Call(expense, expenses[expense].amount, ids, ISSUED)];
      allocations := AddAllocations(allocations, id, pieces, ids);
      return Done;
    }

    method Schedule(allocation: Id, mandate: Option<Mandate>, today: string, provider: string, key: string,
                    input: string, id: Id)
      returns (r: Reply)
      modifies this`instructions, this`allocations
      ensures (View(), r) == Collections.Schedule(old(View()), allocation, mandate, today, provider, key, input, id)
    {
      hide MandateAccepts;
      if allocation !in allocations || mandate.None? { return Refused(404); }
      if exists i | i in instructions :: instructions[i].key == key {
        if exists i | i in instructions :: instructions[i].key == key && instructions[i].input == input { return Existing; }
        return Refused(409);
      }
      var remaining := allocations[allocation].amount - allocations[allocation].collected;
      if !MandateAccepts(mandate.value, remaining, allocations[allocation].holder, today) { return Refused(409); }
      if remaining <= 0 { return Refused(409); }
      instructions := instructions[id := Instruction(ForAllocation(allocation), remaining, provider, PENDING_APPROVAL, key, input, None)];
      allocations := allocations[allocation := allocations[allocation].(status := SCHEDULED)];
      return Done;
    }

    /** `_refresh_call`. */
    method RefreshCall(call: Id)
      requires call in calls
      modifies this`calls
      ensures calls == old(calls)[call := old(calls)[call].(status := Refreshed(allocations, call, old(calls)[call].status))]
    {
      if HasRows(allocations, call) && AllPaid(allocations, call) {
        calls := calls[call := calls[call].(status := FUNDED)];
      } else if AnyCollected(allocations, call) {
        calls := calls[call := calls[call].(status := PARTIALLY_FUNDED)];
      } else {
        assert calls == calls[call := calls[call]];
      }
    }

    /** `_mark_success`. */
    method MarkSuccess(id: Id)
      requires id in instructions
      modifies this`instructions, this`allocations, this`calls, this`expenses
      ensures View() == Collections.MarkSuccess(old(View()), id)
    {
      hide Refreshed;
      instructions := instructions[id := instructions[id].(status := SUCCEEDED)];
      var row := instructions[id];
      match row.target {
        case ForAllocation(a) =>
          if a in allocations {
            var collected := Min(allocations[a].amount, allocations[a].collected + row.amount);
            allocations := allocations[a := allocations[a].(
              collected := collected, status := if collected >= allocations[a].amount then COLLECTED else PARTIAL)];
            if allocations[a].call in calls {
              RefreshCall(allocations[a].call);
            }
          }
        case ForExpense(e) =>
          if e in expenses && row.amount >= expenses[e].amount {
            expenses := expenses[e := expenses[e].(status := ExpensePaid)];
          }
      }
    }

    method Execute(id: Id, x: Run) returns (r: Reply)
      modifies this`instructions, this`allocations, this`calls, this`expenses
      ensures (View(), r) == Collections.Execute(old(View()), id, x)
    {
      hide MandateAccepts, Collections.MarkSuccess;
      if id !in instructions { return Refused(404); }
      var row := instructions[id];
      if IsFinal(row.status) { return Done; }
      if row.status != APPROVED || !x.due { return Refused(409); }
      if row.target.ForAllocation? {
        if row.target.allocation !in allocations || x.mandate.None? { return Refused(409); }
        if !MandateAccepts(x.mandate.value, row.amount, allocations[row.target.allocation].holder, x.today) { return Refused(409); }
      }
      if x.mode == Disabled { return Refused(409); }
      if x.mode == Sandbox {
        instructions := instructions[id := row.(reference := Some(x.sandboxRef))];
        MarkSuccess(id);
        return Done;
      }
      if row.target.ForExpense? && row.provider == "RAZORPAYX" {
        if !x.ready { return Refused(409); }
        RecordPayout(id, x.payout);
        return Done;
      }
      instructions := instructions[id := row.(status := FAILED)];
      return Done;
    }

    /** What the live payout call came back with, written to its instruction. */
    method RecordPayout(id: Id, p: Payout)
      requires id in instructions
      modifies this`instructions, this`allocations, this`calls, this`expenses
      ensures View() == match p
                        case NetworkError => SetStatus(old(View()), id, FAILED)
                        case Rejected => SetStatus(old(View()), id, FAILED)
                        case Accepted(reference, status) =>
                          var referred := SetReference(old(View()), id, AsReference(reference));
                          if status == "processed" then Collections.MarkSuccess(referred, id)
                          else SetStatus(referred, id, if status in {"failed", "reversed", "cancelled", "rejected"} then FAILED else PROCESSING)
    {
      hide Collections.MarkSuccess;
      match p {
        case NetworkError => instructions := instructions[id := instructions[id].(status := FAILED)];
        case Rejected => instructions := instructions[id := instructions[id].(status := FAILED)];
        case Accepted(reference, status) =>
          instructions := instructions[id := instructions[id].(reference := AsReference(reference))];
          if status == "processed" {
            MarkSuccess(id);
          } else if status in {"failed", "reversed", "cancelled", "rejected"} {
            instructions := instructions[id := instructions[id].(status := FAILED)];
          } else {
            instructions := instructions[id := instructions[id].(status := PROCESSING)];
          }
      }
    }

    /** The instruction a delivery is about: the one it names, or the one that carries its reference. */
    method FindInstruction(d: Delivery) returns (found: Option<Id>)
      requires !Ambiguous(View(), d)
      ensures found.None? ==> forall i :: i in instructions ==> !IsFor(View(), d, i)
      ensures found.Some? ==> found.value in instructions
                              && forall i :: i in instructions && IsFor(View(), d, i) <==> i == found.value
    {
      if d.named.Some? && d.named.value in instructions { return Some(d.named.value); }
      var matches := set i | i in instructions && d.reference != "" && instructions[i].reference == Some(d.reference);
      assert forall i :: i in instructions && IsFor(View(), d, i) ==> i in matches;
      if matches == {} { return None; }
      var i :| i in matches;
      OneFound(View(), d, i);
      return Some(i);
    }

    /** `razorpay_webhook`: look the instruction up, tell it, record the event. */
    method Webhook(d: Delivery) returns (r: Reply)
      modifies this`instructions, this`allocations, this`calls, this`expenses, this`events
      ensures (View(), r) == Collections.Webhook(old(View()), d)
    {
      hide Ambiguous, IsFor, Collections.Notify;
      ghost var f := View();
      if d.event in events { return Duplicate; }
      if Ambiguous(View(), d) { return Refused(500); }
      var found := FindInstruction(d);
      assert View() == f;
      if found.Some? {
        OneTarget(f, d, found.value);
        Notify(d, found.value);
      } else {
        NoTarget(f, d);
      }
      events := events + {d.event};
      return Done;
    }

    method Notify(d: Delivery, i: Id)
      requires i in instructions
      modifies this`instructions, this`allocations, this`calls, this`expenses
      ensures View() == Collections.Notify(old(View()), d, i)
    {
      hide Collections.MarkSuccess;
      instructions := instructions[i := instructions[i].(reference := if d.reference != "" then Some(d.reference) else instructions[i].reference)];
      if d.kind in SUCCESSES {
        MarkSuccess(i);
      } else if d.kind in FAILURES {
        instructions := instructions[i := instructions[i].(status := FAILED)];
      } else if !IsFinal(instructions[i].status) {
        instructions := instructions[i := instructions[i].(status := PROCESSING)];
      }
    }

    method RecordExpense(id: Id, amount: nat, byShareholders: bool) returns (r: Reply)
      modifies this`expenses
      ensures (View(), r) == NewExpense(old(View()), id, amount, byShareholders)
    {
      if id in expenses || amount == 0 { return Refused(409); }
      expenses := expenses[id := Expense(amount, byShareholders, ExpenseRequested)];
      return Done;
    }

    method ApproveExpense(id: Id, approved: bool) returns (r: Reply)
      modifies this`expenses
      ensures (View(), r) == Collections.ApproveExpense(old(View()), id, approved)
    {
      if id !in expenses { return Refused(404); }
      if !approved { return Refused(409); }
      expenses := expenses[id := expenses[id].(status := ExpenseApproved)];
      return Done;
    }

    method CreatePayout(
      expense: Id, vendor: bool, amount: Option<nat>, provider: string, key: string, input: string, id: Id)
      returns (r: Reply)
      modifies this`instructions
      ensures (View(), r) == Collections.CreatePayout(old(View()), expense, vendor, amount, provider, key, input, id)
    {
      if exists i | i in instructions :: instructions[i].key == key {
        if exists i | i in instructions :: instructions[i].key == key && instructions[i].input == input { return Existing; }
        return Refused(409);
      }
      if expense !in expenses { return Refused(404); }
      var asked := if amount.Some? then amount.value else expenses[expense].amount;
      if expenses[expense].status != ExpenseApproved || !vendor { return Refused(409); }
      if asked > expenses[expense].amount { return Refused(409); }
      instructions := instructions[id := Instruction(ForExpense(expense), asked, provider, PENDING_APPROVAL, key, input, None)];
      return Done;
    }

    method ApproveInstruction(id: Id, approved: bool) returns (r: Reply)
      modifies this`instructions
      ensures (View(), r) == Approve(old(View()), id, approved)
    {
      if id !in instructions { return Refused(404); }
      if IsFinal(instructions[id].status) { return Done; }
      if !approved { return Refused(409); }
      instructions := instructions[id := instructions[id].(status := APPROVED)];
      return Done;
    }

    method Dispatch(e: Event) returns (r: Reply)
      requires Possible(View(), e)
      modifies this`expenses, this`calls, this`allocations, this`instructions, this`events
      ensures (View(), r) == Step(old(View()), e)
    {
      hide NewExpense, Collections.ApproveExpense, Collections.CreateCall, Collections.Schedule, Collections.CreatePayout;
      hide Approve, Collections.Execute, Collections.Webhook, CallRefusal, PiecesOf, NewIds, ValidBasis;
      match e {
        case Expensed(id, amount, byShareholders) => r := RecordExpense(id, amount, byShareholders);
        case ExpenseDecided(id, approved) => r := ApproveExpense(id, approved);
        case Called(expense, policy, holders, id, ids) => r := CreateCall(expense, policy, holders, id, ids);
        case Scheduled(allocation, mandate, today, provider, key, input, id) =>
          r := Schedule(allocation, mandate, today, provider, key, input, id);
        case PayoutAsked(expense, vendor, asked, provider, key, input, id) =>
          r := CreatePayout(expense, vendor, asked, provider, key, input, id);
        case InstructionDecided(id, approved) => r := ApproveInstruction(id, approved);
        case Executed(id, run) => r := Execute(id, run);
        case Delivered(delivery) => r := Webhook(delivery);
      }
    }

    /** One request of any kind: the desk stays on a run, keeps the invariant of calls,
        allocations and instructions, and no collected amount or FUNDED call is taken back. */
    method Serve(e: Event) returns (r: Reply)
      requires Valid() && Possible(View(), e)
      modifies this
      ensures Valid() && requests == old(requests) + [e] && funds == old(funds) + [View()]
      ensures r == Step(old(View()), e).1
      ensures Kept(old(View()), View())
    {
      hide Step, Possible, Inv, Kept;
      RunKeeps(funds, requests, |requests|);
      StepKeeps(View(), e);
      LongerRun(funds, requests, e);
      hide IsRun;
      r := Dispatch(e);
      funds, requests := funds + [View()], requests + [e];
    }
  }

  /** The loop that stores one allocation row per piece. */
  method AddAllocations(allocations: map<Id, Allocation>, call: Id, pieces: seq<Piece>,
                        ids: seq<Id>) returns (later: map<Id, Allocation>)
    requires |ids| == |pieces|
    ensures later == AddRows(allocations, call, pieces, ids)
  {
    later := allocations;
    for n := 0 to |pieces|
      invariant later == AddRows(allocations, call, pieces[..n], ids[..n])
    {
      assert pieces[..n + 1][..n] == pieces[..n] && ids[..n + 1][..n] == ids[..n];
      later := later[ids[n] := Allocation(call, pieces[n].holder, pieces[n].amount, 0, PENDING)];
    }
    assert pieces[..|pieces|] == pieces && ids[..|ids|] == ids;
  }
}
