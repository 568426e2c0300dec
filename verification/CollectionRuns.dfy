/** Collections over whole runs, and repeated webhooks. */
module CollectionRuns {
  import opened ContributionSplit
  import opened Collections
  import opened CollectionInvariants

  datatype Event =
    | Expensed(id: Id, amount: nat, byShareholders: bool)
    | ExpenseDecided(id: Id, approved: bool)
    | Called(expense: Id, policy: Option<Policy>, holders: set<HolderId>, id: Id, ids: seq<Id>)
    | Scheduled(allocation: Id, mandate: Option<Mandate>, today: string, provider: string, key: string, input: string, id: Id)
    | PayoutAsked(expense: Id, vendor: bool, asked: Option<nat>, provider: string, key: string, input: string, id: Id)
    | InstructionDecided(id: Id, approved: bool)
    | Executed(id: Id, run: Run)
    | Delivered(delivery: Delivery)

  /** Drawn identifiers are new; a funding basis has one weight per holder, and custom
      weights passed their validator. */
  ghost predicate Possible(f: Fund, e: Event) {
    match e
    case Called(expense, policy, holders, id, ids) =>
      && (policy.Some? ==> ValidBasis(policy.value.basis))
      && (CallRefusal(f, expense, policy, holders).None? ==> |ids| == |PiecesOf(f, expense, policy.value)|)
      && NewIds(f, id, ids)
    case Scheduled(_, _, _, _, _, _, id) => id !in f.instructions
    case PayoutAsked(_, _, _, _, _, _, id) => id !in f.instructions
    case _ => true
  }

  ghost function Step(f: Fund, e: Event): (Fund, Reply)
    requires Possible(f, e)
  {
    match e
    case Expensed(id, amount, byShareholders) => NewExpense(f, id, amount, byShareholders)
    case ExpenseDecided(id, approved) => ApproveExpense(f, id, approved)
    case Called(expense, policy, holders, id, ids) => CreateCall(f, expense, policy, holders, id, ids)
    case Scheduled(allocation, mandate, today, provider, key, input, id) =>
      Schedule(f, allocation, mandate, today, provider, key, input, id)
    case PayoutAsked(expense, vendor, asked, provider, key, input, id) =>
      CreatePayout(f, expense, vendor, asked, provider, key, input, id)
    case InstructionDecided(id, approved) => Approve(f, id, approved)
    case Executed(id, run) => Execute(f, id, run)
    case Delivered(delivery) => Webhook(f, delivery)
  }

  ghost predicate IsRun(funds: seq<Fund>, events: seq<Event>) {
    && |funds| == |events| + 1 && funds[0] == EMPTY
    && forall k :: 0 <= k < |events| ==> Possible(funds[k], events[k]) && funds[k + 1] == Step(funds[k], events[k]).0
  }

  lemma StepKeeps(f: Fund, e: Event)
    requires Inv(f) && Possible(f, e)
    ensures Kept(f, Step(f, e).0)
  {
    hide Inv, Kept, NewExpense, ApproveExpense, CreateCall, Schedule, CreatePayout, Approve, Execute, Webhook;
    hide CallRefusal, PiecesOf, NewIds;
    match e
    case Expensed(id, amount, byShareholders) => ExpenseKeeps(f, id, amount, byShareholders, true);
    case ExpenseDecided(id, approved) => ExpenseKeeps(f, id, 0, true, approved);
    case Called(expense, policy, holders, id, ids) => CreateCallKeeps(f, expense, policy, holders, id, ids);
    case Scheduled(allocation, mandate, today, provider, key, input, id) =>
      ScheduleKeeps(f, allocation, mandate, today, provider, key, input, id);
    case PayoutAsked(expense, vendor, asked, provider, key, input, id) =>
      CreatePayoutKeeps(f, expense, vendor, asked, provider, key, input, id);
    case InstructionDecided(id, approved) => ApproveKeeps(f, id, approved);
    case Executed(id, run) => ExecuteKeeps(f, id, run);
    case Delivered(delivery) => WebhookKeeps(f, delivery);
  }

  lemma {:induction false} RunKeeps(funds: seq<Fund>, events: seq<Event>, n: nat)
    requires IsRun(funds, events) && n <= |events|
    ensures Inv(funds[n])
  {
    hide Step, Possible;
    if n > 0 {
      hide Inv, AllocationsEvolve, CallsEvolve;
      RunKeeps(funds, events, n - 1);
      StepKeeps(funds[n - 1], events[n - 1]);
    }
  }

  // ------------------------------------------------------------ allocations

  /** In every run an allocation has collected nothing or everything, never more; it is
      COLLECTED exactly when its positive amount is in, and never PARTIAL. */
  lemma CollectionIsAllOrNothing(funds: seq<Fund>, events: seq<Event>, n: nat, a: Id)
    requires IsRun(funds, events) && n <= |events| && a in funds[n].allocations
    ensures var row := funds[n].allocations[a];
            && 0 <= row.collected <= row.amount && (row.collected == 0 || row.collected == row.amount)
            && (row.status == COLLECTED <==> row.amount > 0 && row.collected == row.amount)
            && row.status != PARTIAL
  {
    hide Step, Possible;
    RunKeeps(funds, events, n);
    assert AllocationFits(funds[n].allocations[a]);
  }

  // ------------------------------------------------------------------- calls

  /** The rows of a call, and what its status says of them. */
  lemma StatusCounts(f: Fund, c: Id)
    requires Inv(f) && c in f.calls
    ensures Due(f.allocations, f.calls[c].rows) == f.calls[c].total
    ensures f.calls[c].status == Refreshed(f.allocations, c, ISSUED)
    ensures f.calls[c].status == FUNDED <==> Received(f.allocations, f.calls[c].rows) == f.calls[c].total
  {
    var call := f.calls[c];
    assert CallFits(f.allocations, c, call);
    hide Inv, AllocationsFit, Due, Received, Paid;
    assert AllocationsFit(f.allocations) by { AllFit(f); }
    ReceivedIsDue(f.allocations, call.rows);
    if |call.rows| == 0 {
      NothingDue(f.allocations, call.rows);
      assert false;
    }
    assert call.rows[0] in call.rows;
    assert HasRows(f.allocations, c);
    assert AllPaid(f.allocations, c) <==> forall a :: a in call.rows && a in f.allocations ==> Paid(f.allocations[a]);
  }

  lemma AllFit(f: Fund)
    requires Inv(f)
    ensures AllocationsFit(f.allocations)
  {
  }

  /** In every run a call's allocations add up to its total; its status is the function
      of its allocations, and FUNDED exactly when all of the total has come in. */
  lemma FundedMeansFullyCollected(funds: seq<Fund>, events: seq<Event>, n: nat, c: Id)
    requires IsRun(funds, events) && n <= |events| && c in funds[n].calls
    ensures var f := funds[n];
            && (forall a :: a in f.calls[c].rows <==> a in f.allocations && f.allocations[a].call == c)
            && Due(f.allocations, f.calls[c].rows) == f.calls[c].total
            && f.calls[c].status == Refreshed(f.allocations, c, ISSUED)
            && (f.calls[c].status == FUNDED <==> Received(f.allocations, f.calls[c].rows) == f.calls[c].total)
  {
    hide Step, Possible, Refreshed;
    RunKeeps(funds, events, n);
    StatusCounts(funds[n], c);
    hide Due, Received;
    assert CallFits(funds[n].allocations, c, funds[n].calls[c]);
  }

  /** A FUNDED call stays FUNDED, and no allocation ever gives money back. */
  lemma {:induction false} FundedIsPermanent(funds: seq<Fund>, events: seq<Event>, i: nat, j: nat)
    requires IsRun(funds, events) && i <= j <= |events|
    ensures AllocationsEvolve(funds[i].allocations, funds[j].allocations) && CallsEvolve(funds[i].calls, funds[j].calls)
    decreases j
  {
    hide Step, Possible, Inv;
    if i < j {
      FundedIsPermanent(funds, events, i, j - 1);
      RunKeeps(funds, events, j - 1);
      StepKeeps(funds[j - 1], events[j - 1]);
      KeptAgain(funds[i], funds[j - 1], funds[j]);
    }
  }

  lemma KeptAgain(f: Fund, g: Fund, h: Fund)
    requires AllocationsEvolve(f.allocations, g.allocations) && CallsEvolve(f.calls, g.calls) && Kept(g, h)
    ensures AllocationsEvolve(f.allocations, h.allocations) && CallsEvolve(f.calls, h.calls)
  {
    hide Inv;
    forall a | a in f.allocations ensures a in h.allocations && AllocationEvolves(f.allocations[a], h.allocations[a]) {
      assert AllocationEvolves(f.allocations[a], g.allocations[a]) && AllocationEvolves(g.allocations[a], h.allocations[a]);
    }
    forall c | c in f.calls ensures c in h.calls && CallEvolves(f.calls[c], h.calls[c]) {
      assert CallEvolves(f.calls[c], g.calls[c]) && CallEvolves(g.calls[c], h.calls[c]);
    }
  }

  // ---------------------------------------------------------------- webhooks

  ghost function Deliver(f: Fund, ds: seq<Delivery>): Fund {
    if |ds| == 0 then f else Webhook(Deliver(f, ds[..|ds| - 1]), ds[|ds| - 1]).0
  }

  predicate HasEvent(ds: seq<Delivery>, event: string) {
    exists k :: 0 <= k < |ds| && ds[k].event == event
  }

  /** The deliveries with repeats removed: the first of each event identifier. */
  function FirstOnly(ds: seq<Delivery>): seq<Delivery> {
    if |ds| == 0 then []
    else
      var before, last := FirstOnly(ds[..|ds| - 1]), ds[|ds| - 1];
      if HasEvent(before, last.event) then before else before + [last]
  }

  // What one delivery does to the record of events.

  lemma DeliveryRecords(f: Fund, d: Delivery)
    ensures Webhook(f, d).0.events == if d.event in f.events || Ambiguous(f, d) then f.events else f.events + {d.event}
    ensures d.event in f.events || Ambiguous(f, d) ==> Webhook(f, d).0 == f
  {
    hide Notify, Ambiguous, IsFor;
  }

  lemma DeliverSnoc(f: Fund, ds: seq<Delivery>, d: Delivery)
    ensures Deliver(f, ds + [d]) == Webhook(Deliver(f, ds), d).0
  {
    hide Webhook;
    assert (ds + [d])[..|ds|] == ds;
  }

  lemma DeliverPart(f: Fund, ds: seq<Delivery>, k: nat)
    requires k < |ds|
    ensures Deliver(f, ds[..k + 1]) == Webhook(Deliver(f, ds[..k]), ds[k]).0
  {
    hide Webhook, Deliver;
    assert ds[..k + 1] == ds[..k] + [ds[k]];
    DeliverSnoc(f, ds[..k], ds[k]);
  }

  lemma HasSnoc(ds: seq<Delivery>, d: Delivery, event: string)
    ensures HasEvent(ds + [d], event) <==> HasEvent(ds, event) || d.event == event
  {
    if HasEvent(ds, event) {
      var k :| 0 <= k < |ds| && ds[k].event == event;
      assert (ds + [d])[k].event == event;
    }
    assert (ds + [d])[|ds|] == d;
  }

  lemma {:induction false} FirstOnlyHasAll(ds: seq<Delivery>, event: string)
    ensures HasEvent(FirstOnly(ds), event) <==> HasEvent(ds, event)
    decreases |ds|
  {
    if |ds| > 0 {
      hide HasEvent;
      var most, last := ds[..|ds| - 1], ds[|ds| - 1];
      assert ds == most + [last];
      FirstOnlyHasAll(most, event);
      FirstOnlyHasAll(most, last.event);
      HasSnoc(most, last, event);
      HasSnoc(FirstOnly(most), last, event);
    }
  }

  lemma {:induction false} RecordsStay(f: Fund, ds: seq<Delivery>, k: nat, m: nat)
    requires k <= m <= |ds|
    ensures Deliver(f, ds[..k]).events <= Deliver(f, ds[..m]).events
    decreases m
  {
    hide Webhook, Deliver, Ambiguous;
    if k < m {
      RecordsStay(f, ds, k, m - 1);
      DeliverPart(f, ds, m - 1);
      DeliveryRecords(Deliver(f, ds[..m - 1]), ds[m - 1]);
    }
  }

  // ------------------------------------------------ when repeats are harmless

  /** A delivery whose event identifier came before. */
  predicate IsRepeat(ds: seq<Delivery>, m: nat)
    requires m < |ds|
  {
    HasEvent(ds[..m], ds[m].event)
  }

  /** Every repeat meets one of the two guards of the handler that leave all as it is. */
  ghost predicate RepeatsStopped(f: Fund, ds: seq<Delivery>) {
    forall m :: 0 <= m < |ds| && IsRepeat(ds, m) ==>
      ds[m].event in Deliver(f, ds[..m]).events || Ambiguous(Deliver(f, ds[..m]), ds[m])
  }

  /** Every event on record in the end was put on record by its first delivery. */
  ghost predicate RecordedAtFirst(f: Fund, ds: seq<Delivery>) {
    forall k :: 0 <= k < |ds| && !IsRepeat(ds, k) && ds[k].event in Deliver(f, ds).events ==>
      ds[k].event in Deliver(f, ds[..k + 1]).events
  }

  lemma StoppedBefore(f: Fund, ds: seq<Delivery>)
    requires RepeatsStopped(f, ds) && |ds| > 0
    ensures RepeatsStopped(f, ds[..|ds| - 1])
  {
    hide Deliver, Ambiguous, HasEvent;
    var most := ds[..|ds| - 1];
    forall m | 0 <= m < |most| && IsRepeat(most, m)
      ensures most[m].event in Deliver(f, most[..m]).events || Ambiguous(Deliver(f, most[..m]), most[m])
    {
      assert most[..m] == ds[..m];
      assert IsRepeat(ds, m);
    }
  }

  lemma {:induction false} StoppedRepeatsAddNothing(f: Fund, ds: seq<Delivery>)
    requires RepeatsStopped(f, ds)
    ensures Deliver(f, ds) == Deliver(f, FirstOnly(ds))
    decreases |ds|
  {
    hide Webhook, Ambiguous, HasEvent;
    if |ds| > 0 {
      var n := |ds| - 1;
      var most, last := ds[..n], ds[n];
      StoppedBefore(f, ds);
      StoppedRepeatsAddNothing(f, most);
      FirstOnlyHasAll(most, last.event);
      if IsRepeat(ds, n) {
        DeliveryRecords(Deliver(f, most), last);
      } else {
        DeliverSnoc(f, FirstOnly(most), last);
      }
    }
  }

  /** A repeat that is not stopped leaves an event on record that it would not be without it. */
  lemma {:induction false} RepeatShows(f: Fund, ds: seq<Delivery>) returns (event: string)
    requires !RepeatsStopped(f, ds)
    ensures HasEvent(ds, event) && event in Deliver(f, ds).events && event !in Deliver(f, FirstOnly(ds)).events
    decreases |ds|
  {
    hide Webhook, Ambiguous, HasEvent, Deliver;
    var n := |ds| - 1;
    var most, last := ds[..n], ds[n];
    assert ds == most + [last] && ds[..n + 1] == ds;
    DeliverPart(f, ds, n);
    FirstOnlyHasAll(most, last.event);
    DeliveryRecords(Deliver(f, most), last);
    if RepeatsStopped(f, most) {
      event := last.event;
      LastIsNotStopped(f, ds);
      StoppedRepeatsAddNothing(f, most);
      HasSnoc(most, last, event);
    } else {
      event := RepeatShows(f, most);
      HasSnoc(most, last, event);
      DeliverSnoc(f, FirstOnly(most), last);
      DeliveryRecords(Deliver(f, FirstOnly(most)), last);
    }
  }

  lemma LastIsNotStopped(f: Fund, ds: seq<Delivery>)
    requires |ds| > 0 && !RepeatsStopped(f, ds) && RepeatsStopped(f, ds[..|ds| - 1])
    ensures var n := |ds| - 1;
            IsRepeat(ds, n) && ds[n].event !in Deliver(f, ds[..n]).events && !Ambiguous(Deliver(f, ds[..n]), ds[n])
  {
    hide Deliver, Ambiguous, HasEvent;
    var m :| 0 <= m < |ds| && IsRepeat(ds, m)
          && !(ds[m].event in Deliver(f, ds[..m]).events || Ambiguous(Deliver(f, ds[..m]), ds[m]));
    if m < |ds| - 1 {
      StoppedEarlier(f, ds, m);
    }
  }

  lemma StoppedEarlier(f: Fund, ds: seq<Delivery>, m: nat)
    requires m < |ds| - 1 && RepeatsStopped(f, ds[..|ds| - 1]) && IsRepeat(ds, m)
    ensures ds[m].event in Deliver(f, ds[..m]).events || Ambiguous(Deliver(f, ds[..m]), ds[m])
  {
    hide Deliver, Ambiguous, HasEvent;
    var most := ds[..|ds| - 1];
    assert most[..m] == ds[..m];
    assert IsRepeat(most, m);
  }

  /** With its repeats stopped, an event its first delivery did not record is never recorded. */
  lemma {:induction false} NeverRecorded(f: Fund, ds: seq<Delivery>, k: nat, m: nat)
    requires RepeatsStopped(f, ds) && k < m <= |ds| && ds[k].event !in Deliver(f, ds[..k + 1]).events
    ensures ds[k].event !in Deliver(f, ds[..m]).events
    decreases m
  {
    hide Webhook, Deliver, Ambiguous;
    if k + 1 < m {
      NeverRecorded(f, ds, k, m - 1);
      DeliverPart(f, ds, m - 1);
      DeliveryRecords(Deliver(f, ds[..m - 1]), ds[m - 1]);
      if ds[m - 1].event == ds[k].event {
        assert ds[..m - 1][k].event == ds[m - 1].event;
        assert IsRepeat(ds, m - 1);
      }
    }
  }

  lemma {:induction false} FirstOccurrence(ds: seq<Delivery>, m: nat) returns (k: nat)
    requires m < |ds| && IsRepeat(ds, m)
    ensures k < m && ds[k].event == ds[m].event && !IsRepeat(ds, k)
  {
    k :| 0 <= k < m && ds[..m][k].event == ds[m].event;
    if IsRepeat(ds, k) {
      k := FirstOccurrence(ds, k);
    }
  }

  lemma StoppedMeansRecordedAtFirst(f: Fund, ds: seq<Delivery>)
    ensures RepeatsStopped(f, ds) <==> RecordedAtFirst(f, ds)
  {
    hide Webhook, Deliver, Ambiguous, HasEvent;
    assert ds[..|ds|] == ds;
    if RepeatsStopped(f, ds) {
      forall k | 0 <= k < |ds| && !IsRepeat(ds, k) && ds[k].event in Deliver(f, ds).events
        ensures ds[k].event in Deliver(f, ds[..k + 1]).events
      {
        if ds[k].event !in Deliver(f, ds[..k + 1]).events {
          NeverRecorded(f, ds, k, |ds|);
        }
      }
    }
    if RecordedAtFirst(f, ds) {
      forall m | 0 <= m < |ds| && IsRepeat(ds, m)
        ensures ds[m].event in Deliver(f, ds[..m]).events || Ambiguous(Deliver(f, ds[..m]), ds[m])
      {
        var k := FirstOccurrence(ds, m);
        DeliverPart(f, ds, m);
        DeliveryRecords(Deliver(f, ds[..m]), ds[m]);
        RecordsStay(f, ds, m + 1, |ds|);
        RecordsStay(f, ds, k + 1, m);
      }
    }
  }

  /** A sequence of webhooks has the effect of the sequence with repeats removed if and
      only if every event on record in the end was put there by its first delivery; which
      is to say, if and only if each repeat finds its event on record or its instruction
      lookup ambiguous. */
  lemma RepeatsHaveNoEffectExactly(f: Fund, ds: seq<Delivery>)
    ensures Deliver(f, ds) == Deliver(f, FirstOnly(ds)) <==> RecordedAtFirst(f, ds)
    ensures Deliver(f, ds) == Deliver(f, FirstOnly(ds)) <==> RepeatsStopped(f, ds)
  {
    hide Deliver, RepeatsStopped, RecordedAtFirst, HasEvent;
    StoppedMeansRecordedAtFirst(f, ds);
    if RepeatsStopped(f, ds) {
      StoppedRepeatsAddNothing(f, ds);
    } else {
      var event := RepeatShows(f, ds);
    }
  }

  // -------------------------------------------- a run in which a repeat counts

  lemma LongerRun(funds: seq<Fund>, events: seq<Event>, e: Event)
    requires IsRun(funds, events) && Possible(funds[|events|], e)
    ensures IsRun(funds + [Step(funds[|events|], e).0], events + [e])
  {
    hide Step, Possible;
  }

  /** Deliveries at the end of a run. */
  lemma {:induction false} DeliveriesRun(funds: seq<Fund>, events: seq<Event>, ds: seq<Delivery>)
    returns (later: seq<Fund>, more: seq<Event>)
    requires IsRun(funds, events)
    ensures IsRun(later, more) && more == events + seq(|ds|, k requires 0 <= k < |ds| => Delivered(ds[k]))
    ensures |funds| == |events| + 1 && funds <= later && later[|more|] == Deliver(funds[|events|], ds)
    decreases |ds|
  {
    hide IsRun, Webhook;
    RunHasLength(funds, events);
    if |ds| == 0 {
      later, more := funds, events;
    } else {
      var n := |ds| - 1;
      later, more := DeliveriesRun(funds, events, ds[..n]);
      RunHasLength(later, more);
      LongerRun(later, more, Delivered(ds[n]));
      later, more := later + [Step(later[|more|], Delivered(ds[n])).0], more + [Delivered(ds[n])];
    }
  }

  lemma RunHasLength(funds: seq<Fund>, events: seq<Event>)
    requires IsRun(funds, events)
    ensures |funds| == |events| + 1
  {
    hide Step, Possible;
  }

  const PAYOUT := Instruction(ForExpense("x"), 1, "RAZORPAYX", PENDING_APPROVAL, "k", "", None)
  const PAYING := Run(Live, true, None, "", "", true, Accepted("r", "queued"))

  lemma ApprovedExpense() returns (funds: seq<Fund>, events: seq<Event>)
    ensures IsRun(funds, events) && |funds| == |events| + 1
    ensures funds[|events|] == Fund(map["x" := Expense(1, true, ExpenseApproved)], map[], map[], map[], {})
  {
    hide IsRun;
    funds, events := [EMPTY], [];
    StartsRun();
    funds, events := OneMore(funds, events, Expensed("x", 1, true), map["x" := Expense(1, true, ExpenseRequested)], map[]);
    funds, events := OneMore(funds, events, ExpenseDecided("x", true), map["x" := Expense(1, true, ExpenseApproved)], map[]);
  }

  lemma TwoAsked() returns (funds: seq<Fund>, events: seq<Event>)
    ensures IsRun(funds, events) && |funds| == |events| + 1
    ensures funds[|events|] == Fund(map["x" := Expense(1, true, ExpenseApproved)], map[], map[],
                                    map["a" := PAYOUT, "b" := PAYOUT.(key := "l")], {})
  {
    hide IsRun;
    funds, events := ApprovedExpense();
    assert "k"[0] != "l"[0];
    var expenses := map["x" := Expense(1, true, ExpenseApproved)];
    funds, events := OneMore(funds, events, PayoutAsked("x", true, None, "RAZORPAYX", "k", "", "a"), expenses, map["a" := PAYOUT]);
    funds, events := OneMore(funds, events, PayoutAsked("x", true, None, "RAZORPAYX", "l", "", "b"), expenses,
                             map["a" := PAYOUT, "b" := PAYOUT.(key := "l")]);
  }

  lemma OneInstructionMoved(f: Fund, e: Event, id: Id, row: Instruction)
    requires id in f.instructions
    requires (e == InstructionDecided(id, true) && f.instructions[id].status == PENDING_APPROVAL
              && row == f.instructions[id].(status := APPROVED))
          || (e == Executed(id, PAYING) && f.instructions[id].status == APPROVED && f.instructions[id].target.ForExpense?
              && f.instructions[id].provider == "RAZORPAYX"
              && row == f.instructions[id].(status := PROCESSING, reference := Some("r")))
    ensures Step(f, e).0 == f.(instructions := f.instructions[id := row])
  {
    hide MarkSuccess, MandateAccepts;
  }

  /** Two payouts of one approved expense, both answered by the provider with one reference. */
  lemma TwoPayouts() returns (funds: seq<Fund>, events: seq<Event>)
    ensures IsRun(funds, events) && |funds| == |events| + 1 && funds[|events|].events == {}
    ensures funds[|events|].instructions.Keys == {"a", "b"}
    ensures forall i :: i in funds[|events|].instructions ==> funds[|events|].instructions[i].reference == Some("r")
  {
    hide IsRun;
    funds, events := TwoAsked();
    hide Step;
    var ids := ["a", "b"];
    for n := 0 to 2
      invariant IsRun(funds, events) && |funds| == |events| + 1 && funds[|events|].events == {}
      invariant funds[|events|].instructions.Keys == {"a", "b"}
      invariant forall k :: 0 <= k < 2 ==>
        && funds[|events|].instructions[ids[k]].target.ForExpense? && funds[|events|].instructions[ids[k]].provider == "RAZORPAYX"
        && (k < n ==> funds[|events|].instructions[ids[k]].reference == Some("r"))
        && (k >= n ==> funds[|events|].instructions[ids[k]].status == PENDING_APPROVAL)
    {
      var f := funds[|events|];
      var approved := f.instructions[ids[n]].(status := APPROVED);
      OneInstructionMoved(f, InstructionDecided(ids[n], true), ids[n], approved);
      LongerRun(funds, events, InstructionDecided(ids[n], true));
      funds, events := funds + [f.(instructions := f.instructions[ids[n] := approved])], events + [InstructionDecided(ids[n], true)];
      f := funds[|events|];
      var sent := approved.(status := PROCESSING, reference := Some("r"));
      OneInstructionMoved(f, Executed(ids[n], PAYING), ids[n], sent);
      LongerRun(funds, events, Executed(ids[n], PAYING));
      funds, events := funds + [f.(instructions := f.instructions[ids[n] := sent])], events + [Executed(ids[n], PAYING)];
    }
    assert ids[0] == "a" && ids[1] == "b";
  }

  lemma StartsRun()
    ensures IsRun([EMPTY], [])
  {
  }

  lemma OneMore(
    funds: seq<Fund>, events: seq<Event>, e: Event, expenses: map<Id, Expense>, instructions: map<Id, Instruction>)
    returns (later: seq<Fund>, more: seq<Event>)
    requires IsRun(funds, events) && |funds| == |events| + 1
    requires Possible(funds[|events|], e) && Step(funds[|events|], e).0 == Fund(expenses, map[], map[], instructions, {})
    ensures IsRun(later, more) && |later| == |more| + 1
    ensures later[|more|] == Fund(expenses, map[], map[], instructions, {})
  {
    hide Step, Possible, IsRun;
    LongerRun(funds, events, e);
    later, more := funds + [Step(funds[|events|], e).0], events + [e];
  }

  lemma RepeatCounts(f: Fund, first: Delivery, second: Delivery)
    requires f.events == {} && f.instructions.Keys == {"a", "b"}
    requires forall i :: i in f.instructions ==> f.instructions[i].reference == Some("r")
    requires first == Delivery("1", "payout.failed", None, "r") && second == Delivery("2", "payout.pending", Some("b"), "s")
    ensures !RepeatsStopped(f, [first, second, first])
  {
    hide Deliver, Webhook, Ambiguous, RepeatsStopped;
    TwoMatch(f, first);
    assert first.event[0] != second.event[0];
    NamedIsNotified(f, second);
    OneMatch(Webhook(f, second).0, first);
    ThirdIsNotStopped(f, first, second);
  }

  lemma ThirdIsNotStopped(f: Fund, first: Delivery, second: Delivery)
    requires first.event !in f.events && Ambiguous(f, first)
    requires first.event !in Webhook(f, second).0.events && !Ambiguous(Webhook(f, second).0, first)
    ensures !RepeatsStopped(f, [first, second, first])
  {
    DeliveryRecords(f, first);
    hide Webhook, Ambiguous;
    var ds := [first, second, first];
    assert ds[..0] == [] && ds[..1] == [first] && ds[..2] == [first, second];
    DeliverPart(f, ds, 0);
    DeliverPart(f, ds, 1);
    assert IsRepeat(ds, 2) by { assert ds[..2][0].event == ds[2].event; }
  }

  lemma TwoMatch(f: Fund, d: Delivery)
    requires f.instructions.Keys == {"a", "b"} && d.named.None? && d.reference == "r"
    requires forall i :: i in f.instructions ==> f.instructions[i].reference == Some("r")
    ensures Ambiguous(f, d)
  {
    assert "a"[0] != "b"[0];
    assert Matches(f, "r", "a") && Matches(f, "r", "b");
  }

  lemma OneMatch(f: Fund, d: Delivery)
    requires f.instructions.Keys == {"a", "b"} && d.named.None? && d.reference == "r"
    requires forall i :: i in f.instructions ==> f.instructions[i].reference == Some(if i == "b" then "s" else "r")
    ensures !Ambiguous(f, d)
  {
    assert "r"[0] != "s"[0];
    assert forall i :: Matches(f, "r", i) ==> i == "a";
  }

  lemma NamedIsNotified(f: Fund, d: Delivery)
    requires d.named.Some? && d.named.value in f.instructions && d.event !in f.events && d.reference != ""
    ensures Webhook(f, d).0.events == f.events + {d.event}
    ensures Webhook(f, d).0.instructions.Keys == f.instructions.Keys
    ensures forall i :: i in f.instructions ==>
              Webhook(f, d).0.instructions[i].reference == if i == d.named.value then Some(d.reference) else f.instructions[i].reference
  {
    var i := d.named.value;
    assert IsFor(f, d, i);
    assert forall j :: j in f.instructions && IsFor(f, d, j) ==> j == i;
    NotifyRefers(f, d, i);
    hide Notify;
  }

  lemma NotifyRefers(f: Fund, d: Delivery, i: Id)
    requires i in f.instructions && d.reference != ""
    ensures var g := Notify(f, d, i);
            && g.instructions.Keys == f.instructions.Keys && g.instructions[i].reference == Some(d.reference)
            && forall j :: j in f.instructions && j != i ==> g.instructions[j] == f.instructions[j]
  {
    hide MarkSuccess;
    var referred := SetReference(f, i, Some(d.reference));
    SuccessMovesOne(referred, i);
  }

  lemma SuccessMovesOne(f: Fund, i: Id)
    requires i in f.instructions
    ensures MarkSuccess(f, i).instructions == f.instructions[i := f.instructions[i].(status := SUCCEEDED)]
  {
    hide Credited, Refreshed;
  }

  /** A run in which a repeat takes effect: the first delivery finds two instructions with
      its reference and is not recorded, a delivery that names one of them gives it another
      reference, and the repeat then finds the other. */
  lemma AmbiguousRepeatTakesEffect() returns (funds: seq<Fund>, events: seq<Event>, n: nat, ds: seq<Delivery>)
    ensures IsRun(funds, events) && |funds| == |events| + 1 == n + |ds| + 1
    ensures events[n..] == seq(|ds|, k requires 0 <= k < |ds| => Delivered(ds[k]))
    ensures funds[|events|] == Deliver(funds[n], ds) && funds[|events|] != Deliver(funds[n], FirstOnly(ds))
  {
    hide Deliver, FirstOnly, RepeatsStopped, IsRun;
    var before, asked := TwoPayouts();
    ds := [Delivery("1", "payout.failed", None, "r"), Delivery("2", "payout.pending", Some("b"), "s"),
           Delivery("1", "payout.failed", None, "r")];
    n := |asked|;
    funds, events := DeliveriesRun(before, asked, ds);
    RunHasLength(funds, events);
    RepeatCounts(funds[n], ds[0], ds[1]);
    RepeatsHaveNoEffectExactly(funds[n], ds);
  }
}
