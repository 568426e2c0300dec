/** What stands behind a posting: the request as it was staged, its maker-checker approval
    and the bounds of the ledger (Backend/backend/finance_ownership.py). */
module ShareLedgerHistory {
  import opened ShareLedger
  import opened ShareLedgerInvariants
  import opened ShareLedgerRuns

  predicate IsStaging(e: Event, p: Posting) {
    match p
    case ChangePosted(id) => e.StagesChange? && e.id == id
    case TransferPosted(id) => e.StagesTransfer? && e.id == id
  }

  function PostOf(p: Posting): Event {
    match p
    case ChangePosted(id) => PostsChange(id)
    case TransferPosted(id) => PostsTransfer(id)
  }

  /** The ledger rows a staged request asks for. */
  function RowsAsked(e: Event): seq<Entry>
    requires e.StagesChange? || e.StagesTransfer?
  {
    if e.StagesChange? then [Entry(e.change.holder, e.change.cls, e.change.delta, e.key + ":POST")]
    else [Entry(e.transfer.source, e.transfer.cls, -e.transfer.quantity, e.key + ":OUT"),
          Entry(e.transfer.target, e.transfer.cls, e.transfer.quantity, e.key + ":IN")]
  }

  /** The request at `i` was answered like this. */
  ghost predicate Answered(books: seq<Books>, events: seq<Event>, i: nat, r: Reply) {
    i < |events| < |books| && Step(books[i], events[i]).1 == r
  }

  /** The request on record, as it was staged. */
  function StagingOf(b: Books, p: Posting): Event
    requires Names(b.changes, b.transfers, p)
  {
    match p
    case ChangePosted(id) => StagesChange(b.changes[id].key, b.changes[id].input, id, b.changes[id].approval)
    case TransferPosted(id) => StagesTransfer(b.transfers[id].key, b.transfers[id].input, id, b.transfers[id].approval)
  }

  predicate HasApproval(b: Books, a: Id) { a in b.approvals && b.approvals[a] == APPROVED }

  // ------------------------------------------------------------ one request

  /** A request on record keeps its rows and its approval; a post makes it POSTED. */
  lemma StepStays(b: Books, e: Event, p: Posting)
    requires Possible(b, e) && Names(b.changes, b.transfers, p)
    ensures var t := Step(b, e).0;
            && Names(t.changes, t.transfers, p) && StagingOf(t, p) == StagingOf(b, p)
            && (IsPosted(t.changes, t.transfers, p)
                <==> IsPosted(b.changes, b.transfers, p) || (e == PostOf(p) && Step(b, e).1 == Posted))
  {
    hide PostChange, PostTransfer, StageChange, StageTransfer, ApplyConfig;
    match e
    case PostsChange(id) => PostMoves(b, id);
    case PostsTransfer(id) => PostMoves(b, id);
    case StagesChange(_, _, _, _) => StageMoves(b, e);
    case StagesTransfer(_, _, _, _) => StageMoves(b, e);
    case Imports(file) => ImportMoves(b, file);
    case _ =>
  }

  lemma PostMoves(b: Books, id: Id)
    ensures var (t, reply) := PostChange(b, id);
            && t.transfers == b.transfers && (reply == Posted ==> id in b.changes)
            && t.changes == if reply == Posted then b.changes[id := b.changes[id].(status := PostedRow)] else b.changes
    ensures var (t, reply) := PostTransfer(b, id);
            && t.changes == b.changes && (reply == Posted ==> id in b.transfers)
            && t.transfers == if reply == Posted then b.transfers[id := b.transfers[id].(status := PostedRow)] else b.transfers
  {
    hide Balance, Issued, KeyTaken, Authorised;
  }

  lemma StageMoves(b: Books, e: Event)
    requires Possible(b, e) && (e.StagesChange? || e.StagesTransfer?)
    ensures var (t, reply) := Step(b, e);
            && reply != Posted
            && (forall c :: c in b.changes ==> c in t.changes && t.changes[c] == b.changes[c])
            && (forall c :: c in b.transfers ==> c in t.transfers && t.transfers[c] == b.transfers[c])
  {
    hide Balance, SignFits;
  }

  lemma ImportMoves(b: Books, f: Bootstrap)
    ensures var (t, reply) := ApplyConfig(b, f);
            reply != Posted && t.changes == b.changes && t.transfers == b.transfers && t.approvals == b.approvals
  {
    hide NewRows, AddClasses, AddHolders, Valid, Conflicts, UniqueKeys;
  }

  lemma StepApprovals(b: Books, e: Event, a: Id)
    requires Possible(b, e)
    ensures var t := Step(b, e).0;
            && (a in b.approvals ==> a in t.approvals)
            && (HasApproval(t, a) <==> HasApproval(b, a) || (e == Decides(a, true) && Step(b, e).1 == Decided))
            && (e == Decides(a, true) && Step(b, e).1 == Decided ==> a in b.approvals)
  {
    hide Balance, Issued, KeyTaken, NewRows, AddClasses, AddHolders, Valid, Conflicts, UniqueKeys, SignFits, Authorised;
  }

  /** A request comes on record by being staged, under an approval just drawn. */
  lemma StepStages(b: Books, e: Event, p: Posting)
    requires Possible(b, e)
    ensures var t := Step(b, e).0;
            && (IsStaging(e, p) && Step(b, e).1 == Staged <==> !Names(b.changes, b.transfers, p) && Names(t.changes, t.transfers, p))
            && (IsStaging(e, p) && Step(b, e).1 == Staged ==>
                  && StagingOf(t, p) == e
                  && !IsPosted(t.changes, t.transfers, p) && e.approval !in b.approvals)
  {
    hide Balance, Issued, KeyTaken, NewRows, AddClasses, AddHolders, Valid, Conflicts, UniqueKeys, SignFits, Authorised;
  }

  // -------------------------------------------------------------- histories

  lemma RunStep(books: seq<Books>, events: seq<Event>, k: nat)
    requires IsRun(books, events) && k < |events|
    ensures |books| == |events| + 1 && Possible(books[k], events[k]) && books[k + 1] == Step(books[k], events[k]).0
  {
    hide Step, Possible;
  }

  lemma RunStart(books: seq<Books>, events: seq<Event>)
    requires IsRun(books, events)
    ensures |books| == |events| + 1 && books[0] == EMPTY
  {
    hide Step, Possible;
  }

  /** The request on record was staged at `i`. */
  ghost predicate StagedAt(books: seq<Books>, events: seq<Event>, i: nat, p: Posting) {
    Answered(books, events, i, Staged) && IsStaging(events[i], p)
  }

  /** A request is on record if and only if it was staged, once, with these rows. */
  lemma {:induction false} WasStaged(books: seq<Books>, events: seq<Event>, n: nat, p: Posting) returns (i: nat)
    requires IsRun(books, events) && n <= |events| && |books| == |events| + 1 && Names(books[n].changes, books[n].transfers, p)
    ensures i < n && StagedAt(books, events, i, p)
    ensures StagingOf(books[n], p) == events[i]
  {
    hide IsRun, Step, Possible, StagingOf, IsPosted;
    RunStart(books, events);
    if n == 0 {
      assert false;
    } else {
      RunStep(books, events, n - 1);
      StepStages(books[n - 1], events[n - 1], p);
      if Names(books[n - 1].changes, books[n - 1].transfers, p) {
        i := WasStaged(books, events, n - 1, p);
        StepStays(books[n - 1], events[n - 1], p);
      } else {
        i := n - 1;
      }
    }
  }

  lemma {:induction false} OnRecordLater(books: seq<Books>, events: seq<Event>, i: nat, n: nat, p: Posting)
    requires IsRun(books, events) && i < n <= |events| && StagedAt(books, events, i, p)
    ensures |books| == |events| + 1 && Names(books[n].changes, books[n].transfers, p)
    ensures StagingOf(books[n], p) == events[i]
    decreases n
  {
    hide IsRun, Step, Possible, StagingOf, IsPosted;
    RunStep(books, events, n - 1);
    if i < n - 1 {
      OnRecordLater(books, events, i, n - 1, p);
      StepStays(books[n - 1], events[n - 1], p);
    } else {
      StepStages(books[i], events[i], p);
    }
  }

  /** An approval is APPROVED if and only if it was decided so. */
  lemma {:induction false} ApprovedExactly(books: seq<Books>, events: seq<Event>, n: nat, a: Id)
    requires IsRun(books, events) && n <= |events| && |books| == |events| + 1
    ensures HasApproval(books[n], a) <==> exists j :: 0 <= j < n && events[j] == Decides(a, true) && Answered(books, events, j, Decided)
  {
    hide IsRun, Step, Possible, HasApproval;
    RunStart(books, events);
    if n > 0 {
      RunStep(books, events, n - 1);
      StepApprovals(books[n - 1], events[n - 1], a);
      ApprovedExactly(books, events, n - 1, a);
    } else {
      NoApproval(a);
    }
  }

  lemma NoApproval(a: Id)
    ensures !HasApproval(EMPTY, a)
  {
  }

  lemma {:induction false} DrawnLater(books: seq<Books>, events: seq<Event>, i: nat, j: nat, a: Id)
    requires IsRun(books, events) && i <= j <= |events| && |books| == |events| + 1 && a in books[i].approvals
    ensures a in books[j].approvals
    decreases j
  {
    hide IsRun, Step, Possible;
    if i < j {
      RunStep(books, events, j - 1);
      DrawnLater(books, events, i, j - 1, a);
      StepApprovals(books[j - 1], events[j - 1], a);
    }
  }

  lemma {:induction false} PostedExactly(books: seq<Books>, events: seq<Event>, n: nat, p: Posting)
    requires IsRun(books, events) && n <= |events| && |books| == |events| + 1
    ensures IsPosted(books[n].changes, books[n].transfers, p)
       <==> exists k :: 0 <= k < n && events[k] == PostOf(p) && Answered(books, events, k, Posted)
  {
    hide IsRun, Step, Possible, StagingOf;
    RunStart(books, events);
    if n > 0 {
      RunStep(books, events, n - 1);
      PostedExactly(books, events, n - 1, p);
      var b, e := books[n - 1], events[n - 1];
      StepStages(b, e, p);
      PostNeedsRow(b, e, p);
      if Names(b.changes, b.transfers, p) {
        StepStays(b, e, p);
      }
    }
  }

  lemma PostNeedsRow(b: Books, e: Event, p: Posting)
    ensures e == PostOf(p) && Step(b, e).1 == Posted ==> Names(b.changes, b.transfers, p)
    ensures IsPosted(b.changes, b.transfers, p) ==> Names(b.changes, b.transfers, p)
  {
    hide Balance, Issued, KeyTaken;
  }

  // --------------------------------------------------------------- promises

  ghost predicate ApprovedBefore(books: seq<Books>, events: seq<Event>, n: nat, a: Id) {
    exists j :: 0 <= j < n <= |events| && events[j] == Decides(a, true) && Answered(books, events, j, Decided)
  }

  ghost predicate PostedBefore(books: seq<Books>, events: seq<Event>, n: nat, p: Posting) {
    exists k :: 0 <= k < n <= |events| && events[k] == PostOf(p) && Answered(books, events, k, Posted)
  }

  /** No holding is negative and no class exceeds its authorised shares. */
  ghost predicate InBounds(entries: seq<Entry>, classes: map<Id, ShareClass>) {
    && (forall holder, cls :: Balance(entries, holder, cls) >= 0)
    && (forall cls :: Issued(entries, cls) <= Authorised(classes, cls))
  }

  lemma ChangeInBounds(b: Books, id: Id)
    requires Inv(b) && id in b.changes
    ensures var i := b.changes[id].input;
            InBounds(b.entries + [ChangeEntry(b.changes[id])], b.classes)
            <==> Balance(b.entries, i.holder, i.cls) + i.delta >= 0 && Issued(b.entries, i.cls) + i.delta <= Authorised(b.classes, i.cls)
  {
    var row := ChangeEntry(b.changes[id]);
    hide Balance, Issued, Listed, Accounted, RequestsFit, UniqueKeys, ImportKeys, ImportHolds;
    BalanceSnoc(b.entries, row, row.holder, row.cls);
    if Balance(b.entries, row.holder, row.cls) + row.delta >= 0 && Issued(b.entries, row.cls) + row.delta <= Authorised(b.classes, row.cls) {
      AppendKeepsBounds(b.entries, row, b.classes);
    }
  }

  lemma TransferInBounds(b: Books, id: Id)
    requires Inv(b) && id in b.transfers
    ensures var i := b.transfers[id].input;
            InBounds(b.entries + [OutEntry(b.transfers[id]), InEntry(b.transfers[id])], b.classes)
            <==> Balance(b.entries, i.source, i.cls) >= i.quantity
  {
    var t := b.transfers[id];
    assert t.input.quantity > 0 && t.input.source != t.input.target;
    hide Balance, Issued, Listed, Accounted, RequestsFit, UniqueKeys, ImportKeys, ImportHolds;
    assert b.entries + [OutEntry(t), InEntry(t)] == b.entries + [OutEntry(t)] + [InEntry(t)];
    BalanceSnoc(b.entries, OutEntry(t), t.input.source, t.input.cls);
    BalanceSnoc(b.entries + [OutEntry(t)], InEntry(t), t.input.source, t.input.cls);
    if Balance(b.entries, t.input.source, t.input.cls) >= t.input.quantity {
      TransferKeepsBounds(b.entries, t, b.classes);
    }
  }

  /** One post, on books that keep the invariant. */
  lemma PostExactly(b: Books, p: Posting)
    requires Inv(b)
    ensures var (t, reply) := Step(b, PostOf(p));
            && (reply == Posted <==>
                  && Names(b.changes, b.transfers, p) && !IsPosted(b.changes, b.transfers, p) && HasApproval(b, StagingOf(b, p).approval)
                  && InBounds(b.entries + RowsAsked(StagingOf(b, p)), b.classes))
            && (reply == Posted ==> t.entries == b.entries + RowsAsked(StagingOf(b, p)))
            && (reply != Posted ==> t == b)
  {
    hide Inv, InBounds, Balance, Issued, KeyTaken;
    match p
    case ChangePosted(id) =>
      if id in b.changes { ChangeInBounds(b, id); }
      PostChangeKeeps(b, id);
    case TransferPosted(id) =>
      if id in b.transfers {
        TransferInBounds(b, id);
        assert b.entries + [OutEntry(b.transfers[id]), InEntry(b.transfers[id])] == b.entries + [OutEntry(b.transfers[id])] + [InEntry(b.transfers[id])];
      }
      PostTransferKeeps(b, id);
  }

  /** In every run a post goes through if and only if the request was staged and not posted
      before, its approval was decided in favour, and the ledger with the rows it was staged
      with stays in bounds; it then appends just these rows, and otherwise changes nothing. */
  lemma PostGrantedExactly(books: seq<Books>, events: seq<Event>, n: nat, p: Posting)
    requires IsRun(books, events) && n <= |events| && |books| == |events| + 1
    ensures var (t, reply) := Step(books[n], PostOf(p));
            && (reply == Posted <==>
                  exists i :: 0 <= i < n && StagedAt(books, events, i, p)
                    && !PostedBefore(books, events, n, p) && ApprovedBefore(books, events, n, events[i].approval)
                    && InBounds(books[n].entries + RowsAsked(events[i]), books[n].classes))
            && (forall i :: 0 <= i < n && StagedAt(books, events, i, p) && reply == Posted ==>
                  t.entries == books[n].entries + RowsAsked(events[i]))
            && (reply != Posted ==> t == books[n])
  {
    var b := books[n];
    RunKeeps(books, events, n);
    PostExactly(b, p);
    PostedExactly(books, events, n, p);
    hide IsRun, Step, Possible, StagingOf, RowsAsked, Inv, InBounds, IsPosted, HasApproval, Answered;
    if Names(b.changes, b.transfers, p) {
      var i := WasStaged(books, events, n, p);
      ApprovedExactly(books, events, n, StagingOf(b, p).approval);
    }
    forall i | 0 <= i < n && StagedAt(books, events, i, p)
      ensures Names(b.changes, b.transfers, p) && StagingOf(b, p) == events[i]
    {
      OnRecordLater(books, events, i, n, p);
    }
  }

  /** Every posted change and transfer was staged, then approved under the approval drawn
      when it was staged, and then posted with the rows it was staged with. */
  lemma {:induction false} PostedWasApproved(books: seq<Books>, events: seq<Event>, n: nat, p: Posting) returns (i: nat, j: nat, k: nat)
    requires IsRun(books, events) && n <= |events| && |books| == |events| + 1 && p in books[n].posted
    ensures i < j < k < n && StagedAt(books, events, i, p)
    ensures events[j] == Decides(events[i].approval, true) && Answered(books, events, j, Decided)
    ensures events[k] == PostOf(p) && Answered(books, events, k, Posted)
    ensures books[k + 1].entries == books[k].entries + RowsAsked(events[i])
  {
    BalanceIsOpeningPlusPosted(books, events, n, "", "");
    PostedExactly(books, events, n, p);
    k :| 0 <= k < n && events[k] == PostOf(p) && Answered(books, events, k, Posted);
    PostGrantedExactly(books, events, k, p);
    hide IsRun, Step, Possible, StagingOf, RowsAsked, InBounds, HasApproval, IsPosted, PostedBefore, Balance, AllNamed, Effects;
    i :| 0 <= i < k && StagedAt(books, events, i, p) && ApprovedBefore(books, events, k, events[i].approval);
    j :| 0 <= j < k && events[j] == Decides(events[i].approval, true) && Answered(books, events, j, Decided);
    DecidedAfterStaged(books, events, i, j, p);
    RunStep(books, events, k);
  }

  lemma DecidedAfterStaged(books: seq<Books>, events: seq<Event>, i: nat, j: nat, p: Posting)
    requires IsRun(books, events) && StagedAt(books, events, i, p) && Answered(books, events, j, Decided)
    requires events[j] == Decides(events[i].approval, true)
    ensures i < j
  {
    hide IsRun, Step, Possible, StagingOf, HasApproval, IsPosted;
    RunStep(books, events, i);
    RunStep(books, events, j);
    StepStages(books[i], events[i], p);
    StepApprovals(books[j], events[j], events[i].approval);
    if j < i {
      DrawnLater(books, events, j, i, events[i].approval);
    }
  }

  // ------------------------------------------------------------- idempotency

  /** The sign that the kind of change asks for. */
  predicate IsSigned(c: ChangeInput) {
    if c.kind.Issue? || c.kind.AdjustmentIn? then c.delta > 0 else c.delta < 0
  }

  ghost predicate ChangeStaged(books: seq<Books>, events: seq<Event>, n: nat, key: string, c: ChangeInput) {
    exists i :: 0 <= i < n <= |events| && Answered(books, events, i, Staged) && events[i].StagesChange?
                && events[i].key == key && events[i].change == c
  }

  ghost predicate TransferStaged(books: seq<Books>, events: seq<Event>, n: nat, key: string, t: TransferInput) {
    exists i :: 0 <= i < n <= |events| && Answered(books, events, i, Staged) && events[i].StagesTransfer?
                && events[i].key == key && events[i].transfer == t
  }

  lemma ChangeKeys(books: seq<Books>, events: seq<Event>, n: nat, key: string, c: ChangeInput)
    requires IsRun(books, events) && n <= |events| && |books| == |events| + 1
    ensures (exists r :: r in books[n].changes && books[n].changes[r].key == key && books[n].changes[r].input == c)
       <==> ChangeStaged(books, events, n, key, c)
  {
    hide IsRun, Step, Possible;
    var b := books[n];
    if r :| r in b.changes && b.changes[r].key == key && b.changes[r].input == c {
      var i := WasStaged(books, events, n, ChangePosted(r));
    }
    if ChangeStaged(books, events, n, key, c) {
      var i :| 0 <= i < n && Answered(books, events, i, Staged) && events[i].StagesChange? && events[i].key == key && events[i].change == c;
      OnRecordLater(books, events, i, n, ChangePosted(events[i].id));
    }
  }

  lemma TransferKeys(books: seq<Books>, events: seq<Event>, n: nat, key: string, t: TransferInput)
    requires IsRun(books, events) && n <= |events| && |books| == |events| + 1
    ensures (exists r :: r in books[n].transfers && books[n].transfers[r].key == key && books[n].transfers[r].input == t)
       <==> TransferStaged(books, events, n, key, t)
  {
    hide IsRun, Step, Possible;
    var b := books[n];
    if r :| r in b.transfers && b.transfers[r].key == key && b.transfers[r].input == t {
      var i := WasStaged(books, events, n, TransferPosted(r));
    }
    if TransferStaged(books, events, n, key, t) {
      var i :| 0 <= i < n && Answered(books, events, i, Staged) && events[i].StagesTransfer? && events[i].key == key && events[i].transfer == t;
      OnRecordLater(books, events, i, n, TransferPosted(events[i].id));
    }
  }

  /** Staging a change again under its key finds it, staging another one under it is
      refused, and a new key is taken for a signed change of a holder and a class on record;
      nothing is staged twice. */
  lemma ChangeStagedExactly(books: seq<Books>, events: seq<Event>, n: nat, key: string, c: ChangeInput, id: Id, approval: Id)
    requires IsRun(books, events) && n <= |events| && |books| == |events| + 1
    ensures var (t, reply) := Step(books[n], StagesChange(key, c, id, approval));
            && (reply == Staged <==>
                  && IsSigned(c) && (forall d :: !ChangeStaged(books, events, n, key, d))
                  && c.holder in books[n].holders && c.cls in books[n].classes)
            && (reply == Existing <==> IsSigned(c) && ChangeStaged(books, events, n, key, c))
            && (reply != Staged ==> t == books[n])
  {
    forall d
      ensures (exists r :: r in books[n].changes && books[n].changes[r].key == key && books[n].changes[r].input == d)
         <==> ChangeStaged(books, events, n, key, d)
    {
      ChangeKeys(books, events, n, key, d);
    }
    hide IsRun, ChangeStaged;
    assert forall r :: r in books[n].changes && books[n].changes[r].key == key ==> ChangeStaged(books, events, n, key, books[n].changes[r].input);
  }

  /** The same of transfers, which also need the shares to be there when they are staged. */
  lemma TransferStagedExactly(books: seq<Books>, events: seq<Event>, n: nat, key: string, c: TransferInput, id: Id, approval: Id)
    requires IsRun(books, events) && n <= |events| && |books| == |events| + 1
    ensures var (t, reply) := Step(books[n], StagesTransfer(key, c, id, approval));
            && (reply == Staged <==>
                  && c.quantity > 0 && c.source != c.target && (forall d :: !TransferStaged(books, events, n, key, d))
                  && c.source in books[n].holders && c.target in books[n].holders && c.cls in books[n].classes
                  && Balance(books[n].entries, c.source, c.cls) >= c.quantity)
            && (reply == Existing <==> c.quantity > 0 && c.source != c.target && TransferStaged(books, events, n, key, c))
            && (reply != Staged ==> t == books[n])
  {
    forall d
      ensures (exists r :: r in books[n].transfers && books[n].transfers[r].key == key && books[n].transfers[r].input == d)
         <==> TransferStaged(books, events, n, key, d)
    {
      TransferKeys(books, events, n, key, d);
    }
    hide IsRun, TransferStaged, Balance;
    assert forall r :: r in books[n].transfers && books[n].transfers[r].key == key ==>
      TransferStaged(books, events, n, key, books[n].transfers[r].input);
  }

  // --------------------------------------------------------------- decisions

  /** The approval was drawn when a change or a transfer was staged. */
  ghost predicate DrawnBefore(books: seq<Books>, events: seq<Event>, n: nat, a: Id) {
    exists i :: 0 <= i < n <= |events| && Answered(books, events, i, Staged)
                && (events[i].StagesChange? || events[i].StagesTransfer?) && events[i].approval == a
  }

  ghost predicate DecidedBefore(books: seq<Books>, events: seq<Event>, n: nat, a: Id) {
    exists j :: 0 <= j < n <= |events| && Answered(books, events, j, Decided) && events[j].Decides? && events[j].approval == a
  }

  lemma DecisionStep(b: Books, e: Event, a: Id)
    requires Possible(b, e)
    ensures var (t, reply) := Step(b, e);
            && (a in t.approvals <==>
                  a in b.approvals || ((e.StagesChange? || e.StagesTransfer?) && e.approval == a && reply == Staged))
            && (a in t.approvals && t.approvals[a] == PENDING <==>
                  || (a in b.approvals && b.approvals[a] == PENDING && !(e.Decides? && e.approval == a && reply == Decided))
                  || ((e.StagesChange? || e.StagesTransfer?) && e.approval == a && reply == Staged))
            && ((e.StagesChange? || e.StagesTransfer?) && e.approval == a ==> a !in b.approvals)
            && (e.Decides? && reply == Decided ==> e.approval in b.approvals)
  {
    hide Balance, Issued, KeyTaken, NewRows, AddClasses, AddHolders, Valid, Conflicts, UniqueKeys, SignFits, Authorised;
  }

  lemma {:induction false} WaitingExactly(books: seq<Books>, events: seq<Event>, n: nat, a: Id)
    requires IsRun(books, events) && n <= |events| && |books| == |events| + 1
    ensures a in books[n].approvals <==> DrawnBefore(books, events, n, a)
    ensures a in books[n].approvals && books[n].approvals[a] == PENDING
       <==> DrawnBefore(books, events, n, a) && !DecidedBefore(books, events, n, a)
    ensures DecidedBefore(books, events, n, a) ==> DrawnBefore(books, events, n, a)
  {
    hide IsRun, Step, Possible;
    RunStart(books, events);
    if n > 0 {
      RunStep(books, events, n - 1);
      DecisionStep(books[n - 1], events[n - 1], a);
      WaitingExactly(books, events, n - 1, a);
      OneMoreDecision(books, events, n, a);
      hide DrawnBefore, DecidedBefore;
    }
  }

  lemma OneMoreDecision(books: seq<Books>, events: seq<Event>, n: nat, a: Id)
    requires 0 < n <= |events| < |books|
    ensures DrawnBefore(books, events, n, a)
       <==> DrawnBefore(books, events, n - 1, a)
            || (Step(books[n - 1], events[n - 1]).1 == Staged && (events[n - 1].StagesChange? || events[n - 1].StagesTransfer?)
                && events[n - 1].approval == a)
    ensures DecidedBefore(books, events, n, a)
       <==> DecidedBefore(books, events, n - 1, a)
            || (Step(books[n - 1], events[n - 1]).1 == Decided && events[n - 1].Decides? && events[n - 1].approval == a)
  {
    hide Step;
    assert Answered(books, events, n - 1, Staged) <==> Step(books[n - 1], events[n - 1]).1 == Staged;
    assert Answered(books, events, n - 1, Decided) <==> Step(books[n - 1], events[n - 1]).1 == Decided;
    hide Answered;
  }

  /** In every run an approval is decided exactly once: the first decision after it was drawn
      is taken, every other is refused. */
  lemma DecidedExactly(books: seq<Books>, events: seq<Event>, n: nat, a: Id, approve: bool)
    requires IsRun(books, events) && n <= |events| && |books| == |events| + 1
    ensures Step(books[n], Decides(a, approve)).1 == Decided
       <==> DrawnBefore(books, events, n, a) && !DecidedBefore(books, events, n, a)
  {
    WaitingExactly(books, events, n, a);
    hide IsRun, DrawnBefore, DecidedBefore;
  }

  // -------------------------------------------------------------- master data

  /** A class was created, or an imported file lists it. */
  ghost predicate ClassGiven(books: seq<Books>, events: seq<Event>, k: nat, code: Id) {
    && k < |events| < |books|
    && ((events[k].NewClass? && events[k].code == code && Answered(books, events, k, Created))
        || (events[k].Imports? && Step(books[k], events[k]).1.Imported?
            && exists i :: 0 <= i < |events[k].file.classes| && events[k].file.classes[i].code == code))
  }

  ghost predicate HolderGiven(books: seq<Books>, events: seq<Event>, k: nat, number: Id) {
    && k < |events| < |books|
    && ((events[k].NewHolder? && events[k].number == number && Answered(books, events, k, Created))
        || (events[k].Imports? && Step(books[k], events[k]).1.Imported?
            && exists i :: 0 <= i < |events[k].file.holders| && events[k].file.holders[i].number == number))
  }

  lemma {:induction false} ClassesAdded(classes: map<Id, ShareClass>, items: seq<ClassItem>, code: Id)
    ensures code in AddClasses(classes, items) <==> code in classes || exists i :: 0 <= i < |items| && items[i].code == code
  {
    if |items| > 0 {
      var most, last := items[..|items| - 1], items[|items| - 1];
      ClassesAdded(classes, most, code);
      hide AddClasses;
      if i :| 0 <= i < |items| && items[i].code == code {
        assert i < |most| ==> most[i].code == code;
      }
      if i :| 0 <= i < |most| && most[i].code == code {
        assert items[i].code == code;
      }
    }
  }

  lemma {:induction false} HoldersAdded(holders: map<Id, string>, items: seq<HolderItem>, number: Id)
    ensures number in AddHolders(holders, items) <==> number in holders || exists i :: 0 <= i < |items| && items[i].number == number
  {
    if |items| > 0 {
      var most, last := items[..|items| - 1], items[|items| - 1];
      HoldersAdded(holders, most, number);
      hide AddHolders;
      if i :| 0 <= i < |items| && items[i].number == number {
        assert i < |most| ==> most[i].number == number;
      }
      if i :| 0 <= i < |most| && most[i].number == number {
        assert items[i].number == number;
      }
    }
  }

  lemma MasterStep(b: Books, e: Event, id: Id)
    ensures var (t, reply) := Step(b, e);
            && (id in t.classes <==>
                  || id in b.classes || (e.NewClass? && e.code == id && reply == Created)
                  || (e.Imports? && reply.Imported? && exists i :: 0 <= i < |e.file.classes| && e.file.classes[i].code == id))
            && (id in t.holders <==>
                  || id in b.holders || (e.NewHolder? && e.number == id && reply == Created)
                  || (e.Imports? && reply.Imported? && exists i :: 0 <= i < |e.file.holders| && e.file.holders[i].number == id))
            && (e.NewClass? ==> (reply == Created <==> e.code !in b.classes)
                                && (reply == Created ==> t == b.(classes := b.classes[e.code := e.row])))
            && (e.NewHolder? ==> (reply == Created <==> e.number !in b.holders)
                                 && (reply == Created ==> t == b.(holders := b.holders[e.number := e.name])))
  {
    hide Balance, Issued, KeyTaken, NewRows, AddClasses, AddHolders, Valid, Conflicts, UniqueKeys, SignFits, Authorised;
    if e.Imports? {
      ClassesAdded(b.classes, e.file.classes, id);
      HoldersAdded(b.holders, e.file.holders, id);
    }
  }

  ghost predicate ClassBefore(books: seq<Books>, events: seq<Event>, n: nat, code: Id) {
    exists k :: 0 <= k < n && ClassGiven(books, events, k, code)
  }

  ghost predicate HolderBefore(books: seq<Books>, events: seq<Event>, n: nat, number: Id) {
    exists k :: 0 <= k < n && HolderGiven(books, events, k, number)
  }

  lemma OneMoreGiven(books: seq<Books>, events: seq<Event>, n: nat, id: Id)
    requires n > 0
    ensures ClassBefore(books, events, n, id) <==> ClassBefore(books, events, n - 1, id) || ClassGiven(books, events, n - 1, id)
    ensures HolderBefore(books, events, n, id) <==> HolderBefore(books, events, n - 1, id) || HolderGiven(books, events, n - 1, id)
  {
    hide ClassGiven, HolderGiven;
  }

  /** In every run a class or a holder is on record if and only if it was created or a file
      that lists it was imported. */
  lemma {:induction false} RegisteredExactly(books: seq<Books>, events: seq<Event>, n: nat, id: Id)
    requires IsRun(books, events) && n <= |events| && |books| == |events| + 1
    ensures id in books[n].classes <==> ClassBefore(books, events, n, id)
    ensures id in books[n].holders <==> HolderBefore(books, events, n, id)
  {
    hide IsRun, Step, Possible;
    RunStart(books, events);
    if n > 0 {
      RunStep(books, events, n - 1);
      RegisteredExactly(books, events, n - 1, id);
      MasterStep(books[n - 1], events[n - 1], id);
      WhenGiven(books, events, n - 1, id);
      OneMoreGiven(books, events, n, id);
      hide ClassGiven, HolderGiven, ClassBefore, HolderBefore;
    }
  }

  /** It can be created exactly when it is not on record. */
  lemma CreatedExactly(books: seq<Books>, events: seq<Event>, n: nat, id: Id, row: ShareClass, name: string)
    requires IsRun(books, events) && n <= |events| && |books| == |events| + 1
    ensures Step(books[n], NewClass(id, row)).1 == Created <==> !ClassBefore(books, events, n, id)
    ensures Step(books[n], NewHolder(id, name)).1 == Created <==> !HolderBefore(books, events, n, id)
  {
    RegisteredExactly(books, events, n, id);
    MasterStep(books[n], NewClass(id, row), id);
    MasterStep(books[n], NewHolder(id, name), id);
    hide IsRun, Step, ClassBefore, HolderBefore;
  }

  lemma WhenGiven(books: seq<Books>, events: seq<Event>, k: nat, id: Id)
    requires k < |events| < |books|
    ensures var e, reply := events[k], Step(books[k], events[k]).1;
            && (ClassGiven(books, events, k, id) <==>
                  || (e.NewClass? && e.code == id && reply == Created)
                  || (e.Imports? && reply.Imported? && exists i :: 0 <= i < |e.file.classes| && e.file.classes[i].code == id))
            && (HolderGiven(books, events, k, id) <==>
                  || (e.NewHolder? && e.number == id && reply == Created)
                  || (e.Imports? && reply.Imported? && exists i :: 0 <= i < |e.file.holders| && e.file.holders[i].number == id))
  {
    hide Step;
  }

  // ------------------------------------------------------------------ imports

  lemma {:induction false} ListedExactly(items: seq<ClassItem>, code: Id)
    requires DistinctCodes(items)
    ensures code in ClassMap(items) <==> exists i :: 0 <= i < |items| && items[i].code == code
    ensures forall i :: 0 <= i < |items| && items[i].code == code ==> code in ClassMap(items) && ClassMap(items)[code] == items[i].authorised
  {
    if |items| > 0 {
      var most, last := items[..|items| - 1], items[|items| - 1];
      ListedExactly(most, code);
      forall i | 0 <= i < |items| && items[i].code == code
        ensures code in ClassMap(items) && ClassMap(items)[code] == items[i].authorised
      {
        if i < |most| {
          assert most[i] == items[i] && items[i].code != last.code;
        }
      }
      if code in ClassMap(items) && code != last.code {
        var i :| 0 <= i < |most| && most[i].code == code;
        assert items[i].code == code;
      }
    }
  }

  /** A file is accepted for import exactly when it names its company (with a two-digit state
      code), lists at least one class and one holder, no code and no number twice, each with
      what it needs, and allots to listed holders positive numbers of shares of listed classes
      that stay within what each class is authorised for. */
  lemma AcceptedExactly(f: Bootstrap)
    ensures Valid(f) <==>
              && f.cin != "" && f.entity.name != "" && f.entity.office != "" && f.entity.source != ""
              && |f.entity.stateCode| == 2 && (forall c :: c in f.entity.stateCode ==> c in "0123456789")
              && f.classes != [] && f.holders != []
              && (forall i, j :: 0 <= i < j < |f.classes| ==> f.classes[i].code != f.classes[j].code)
              && (forall i, j :: 0 <= i < j < |f.holders| ==> f.holders[i].number != f.holders[j].number)
              && (forall c :: c in f.classes ==> c.code != "" && c.name != "" && c.evidence != "" && c.authorised >= 0 && c.face > 0.0)
              && (forall h :: h in f.holders ==> h.number != "" && h.name != "" && h.evidence != "")
              && (forall a :: a in f.allocations ==>
                    && a.quantity > 0 && a.dated && a.reference != ""
                    && (exists h :: h in f.holders && h.number == a.holder) && exists c :: c in f.classes && c.code == a.cls)
              && (forall c :: c in f.classes ==> ClassTotal(f.allocations, c.code) <= c.authorised)
  {
    FieldsExactly(f);
    if DistinctCodes(f.classes) {
      forall code
        ensures code in ClassMap(f.classes) <==> exists i :: 0 <= i < |f.classes| && f.classes[i].code == code
        ensures forall i :: 0 <= i < |f.classes| && f.classes[i].code == code ==>
                  code in ClassMap(f.classes) && ClassMap(f.classes)[code] == f.classes[i].authorised
      {
        ListedExactly(f.classes, code);
      }
      AllotedExactly(f);
    }
    hide ClassMap, ClassTotal;
  }

  lemma FieldsExactly(f: Bootstrap)
    ensures EntityValid(f) <==>
              && f.cin != "" && f.entity.name != "" && f.entity.office != "" && f.entity.source != ""
              && |f.entity.stateCode| == 2 && (forall c :: c in f.entity.stateCode ==> c in "0123456789")
    ensures (forall i :: 0 <= i < |f.classes| ==> ClassFits(f.classes[i]))
       <==> forall c :: c in f.classes ==> c.code != "" && c.name != "" && c.evidence != "" && c.authorised >= 0 && c.face > 0.0
    ensures (forall i :: 0 <= i < |f.holders| ==> HolderFits(f.holders[i]))
       <==> forall h :: h in f.holders ==> h.number != "" && h.name != "" && h.evidence != ""
  {
    if |f.entity.stateCode| == 2 {
      var a, b := f.entity.stateCode[0], f.entity.stateCode[1];
      assert f.entity.stateCode == [a, b];
      DigitExactly(a);
      DigitExactly(b);
    }
    assert forall i :: 0 <= i < |f.classes| ==> f.classes[i] in f.classes;
    assert forall i :: 0 <= i < |f.holders| ==> f.holders[i] in f.holders;
  }

  lemma DigitExactly(c: char)
    ensures '0' <= c <= '9' <==> c in "0123456789"
  {
    if '0' <= c <= '9' {
      assert c == "0123456789"[c as int - '0' as int];
    }
  }

  lemma AllotedExactly(f: Bootstrap)
    requires forall code :: code in ClassMap(f.classes) <==> exists i :: 0 <= i < |f.classes| && f.classes[i].code == code
    requires forall code, i :: 0 <= i < |f.classes| && f.classes[i].code == code ==>
               code in ClassMap(f.classes) && ClassMap(f.classes)[code] == f.classes[i].authorised
    ensures AllocationsValid(f) <==>
              && (forall a :: a in f.allocations ==>
                    && a.quantity > 0 && a.dated && a.reference != ""
                    && (exists h :: h in f.holders && h.number == a.holder) && exists c :: c in f.classes && c.code == a.cls)
              && (forall c :: c in f.classes ==> ClassTotal(f.allocations, c.code) <= c.authorised)
  {
    hide ClassMap, ClassTotal;
    assert forall i :: 0 <= i < |f.allocations| ==> f.allocations[i] in f.allocations;
    forall a
      ensures AllocationFits(f, a) <==>
                && a.quantity > 0 && a.dated && a.reference != ""
                && (exists h :: h in f.holders && h.number == a.holder) && exists c :: c in f.classes && c.code == a.cls
    {
      assert forall i :: 0 <= i < |f.holders| ==> f.holders[i] in f.holders;
      assert forall i :: 0 <= i < |f.classes| ==> f.classes[i] in f.classes;
    }
    assert forall i :: 0 <= i < |f.classes| ==> f.classes[i] in f.classes;
    assert forall code :: code in ClassMap(f.classes) ==> exists i :: 0 <= i < |f.classes| && f.classes[i].code == code && ClassMap(f.classes)[code] == f.classes[i].authorised;
  }
}
