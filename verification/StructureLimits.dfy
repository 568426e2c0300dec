/** The bound on nested document input (Backend/backend/document_engine.py): an explicit
    stack against plain recursion. */
module StructureLimits {
  import opened Sums

  const MAX_DEPTH := 12
  const MAX_NODES := 12_000
  const MAX_TEXT_BYTES := 200_000

  /** A JSON-like value. */
  datatype Value =
    | Text(text: string)
    | Dict(items: seq<Item>)
    | List(elements: seq<Value>)
    | Other

  /** A dictionary entry; `key` is the text `str(key)`. */
  datatype Item = Item(key: string, value: Value)

  /** `len(c.encode("utf-8"))` for one character. */
  function CharBytes(c: char): nat {
    if c as int < 0x80 then 1 else if c as int < 0x800 then 2 else if c as int < 0x1_0000 then 3 else 4
  }

  function Utf8Length(s: string): nat {
    if |s| == 0 then 0 else CharBytes(s[0]) + Utf8Length(s[1..])
  }

  // -------------------------------------------------------- plain recursion

  function Max(a: nat, b: nat): nat { if a > b then a else b }

  /** The depth of one value, its nodes, and its text bytes with keys included. */
  function Depth(v: Value): (n: nat)
    ensures n >= 1
  {
    match v
    case Text(_) => 1
    case Other => 1
    case Dict(items) => 1 + ItemsDepth(items)
    case List(elements) => 1 + ForestDepth(elements)
  }

  function ForestDepth(vs: seq<Value>): nat {
    if |vs| == 0 then 0 else Max(Depth(vs[0]), ForestDepth(vs[1..]))
  }

  function ItemsDepth(items: seq<Item>): nat {
    if |items| == 0 then 0 else Max(Depth(items[0].value), ItemsDepth(items[1..]))
  }

  function Nodes(v: Value): (n: nat)
    ensures n >= 1
  {
    match v
    case Text(_) => 1
    case Other => 1
    case Dict(items) => 1 + ItemsNodes(items)
    case List(elements) => 1 + ForestNodes(elements)
  }

  function ForestNodes(vs: seq<Value>): nat {
    if |vs| == 0 then 0 else Nodes(vs[0]) + ForestNodes(vs[1..])
  }

  function ItemsNodes(items: seq<Item>): nat {
    if |items| == 0 then 0 else Nodes(items[0].value) + ItemsNodes(items[1..])
  }

  function TextBytes(v: Value): nat {
    match v
    case Text(text) => Utf8Length(text)
    case Other => 0
    case Dict(items) => ItemsBytes(items)
    case List(elements) => ForestBytes(elements)
  }

  function ForestBytes(vs: seq<Value>): nat {
    if |vs| == 0 then 0 else TextBytes(vs[0]) + ForestBytes(vs[1..])
  }

  function ItemsBytes(items: seq<Item>): nat {
    if |items| == 0 then 0 else Utf8Length(items[0].key) + TextBytes(items[0].value) + ItemsBytes(items[1..])
  }

  /** What the check should say of a forest of values. */
  predicate WithinLimits(vs: seq<Value>) {
    ForestDepth(vs) <= MAX_DEPTH && ForestNodes(vs) <= MAX_NODES && ForestBytes(vs) <= MAX_TEXT_BYTES
  }

  // --------------------------------------------------------------- worklist

  datatype Entry = Entry(value: Value, depth: nat)

  /** Entries still to visit and what the visited ones counted. */
  datatype State = State(work: seq<Entry>, nodes: nat, bytes: nat)

  function NodesOf(e: Entry): int { Nodes(e.value) }
  function BytesOf(e: Entry): int { TextBytes(e.value) }

  predicate Fits(e: Entry) { e.depth + Depth(e.value) <= MAX_DEPTH + 1 }

  predicate AllFit(work: seq<Entry>) { forall i :: 0 <= i < |work| ==> Fits(work[i]) }

  function ValueEntries(vs: seq<Value>, depth: nat): seq<Entry> {
    if |vs| == 0 then [] else [Entry(vs[0], depth)] + ValueEntries(vs[1..], depth)
  }

  function ItemEntries(items: seq<Item>, depth: nat): seq<Entry> {
    if |items| == 0 then [] else [Entry(items[0].value, depth)] + ItemEntries(items[1..], depth)
  }

  function KeyBytes(items: seq<Item>): nat {
    if |items| == 0 then 0 else Utf8Length(items[0].key) + KeyBytes(items[1..])
  }

  /** What a visited entry pushes, and the text it counts itself. */
  function Children(e: Entry): seq<Entry> {
    match e.value
    case Dict(items) => ItemEntries(items, e.depth + 1)
    case List(elements) => ValueEntries(elements, e.depth + 1)
    case _ => []
  }

  function OwnBytes(v: Value): nat {
    match v
    case Text(text) => Utf8Length(text)
    case Dict(items) => KeyBytes(items)
    case _ => 0
  }

  lemma {:induction false} ForestCounts(vs: seq<Value>, depth: nat)
    ensures SumBy(NodesOf, ValueEntries(vs, depth)) == ForestNodes(vs)
    ensures SumBy(BytesOf, ValueEntries(vs, depth)) == ForestBytes(vs)
    ensures depth <= MAX_DEPTH + 1 ==> (AllFit(ValueEntries(vs, depth)) <==> depth + ForestDepth(vs) <= MAX_DEPTH + 1)
  {
    if |vs| > 0 {
      ForestCounts(vs[1..], depth);
      Headed(Entry(vs[0], depth), ValueEntries(vs[1..], depth));
    }
  }

  lemma {:induction false} ItemsCount(items: seq<Item>, depth: nat)
    ensures SumBy(NodesOf, ItemEntries(items, depth)) == ItemsNodes(items)
    ensures SumBy(BytesOf, ItemEntries(items, depth)) + KeyBytes(items) == ItemsBytes(items)
    ensures depth <= MAX_DEPTH + 1 ==> (AllFit(ItemEntries(items, depth)) <==> depth + ItemsDepth(items) <= MAX_DEPTH + 1)
  {
    if |items| > 0 {
      ItemsCount(items[1..], depth);
      Headed(Entry(items[0].value, depth), ItemEntries(items[1..], depth));
    }
  }

  lemma Headed(e: Entry, rest: seq<Entry>)
    ensures SumBy(NodesOf, [e] + rest) == NodesOf(e) + SumBy(NodesOf, rest)
    ensures SumBy(BytesOf, [e] + rest) == BytesOf(e) + SumBy(BytesOf, rest)
    ensures AllFit([e] + rest) <==> Fits(e) && AllFit(rest)
  {
    var both := [e] + rest;
    assert both[1..] == rest && both[0] == e;
    assert forall i :: 0 <= i < |rest| ==> rest[i] == both[i + 1];
    hide Fits, NodesOf, BytesOf;
    if AllFit(both) {
      forall i | 0 <= i < |rest| ensures Fits(rest[i]) { assert Fits(both[i + 1]); }
      assert Fits(both[0]);
    }
  }

  /** Visiting an entry within the depth limit passes on its nodes, bytes and depth. */
  lemma VisitPassesOn(e: Entry)
    requires e.depth <= MAX_DEPTH
    ensures 1 + SumBy(NodesOf, Children(e)) == NodesOf(e)
    ensures OwnBytes(e.value) + SumBy(BytesOf, Children(e)) == BytesOf(e)
    ensures AllFit(Children(e)) <==> Fits(e)
  {
    match e.value
    case Dict(items) => ItemsCount(items, e.depth + 1);
    case List(elements) => ForestCounts(elements, e.depth + 1);
    case _ =>
  }

  /** One visit, of any entry; None when a limit is passed. */
  datatype Option<+T> = None | Some(value: T)

  function Visit(s: State, i: nat): Option<State>
    requires i < |s.work|
  {
    var e := s.work[i];
    if e.depth > MAX_DEPTH || s.nodes + 1 > MAX_NODES || s.bytes + OwnBytes(e.value) > MAX_TEXT_BYTES then None
    else Some(State(s.work[..i] + s.work[i + 1..] + Children(e), s.nodes + 1, s.bytes + OwnBytes(e.value)))
  }

  /** What the visited and the waiting entries say together of the forest. */
  ghost predicate Accounts(vs: seq<Value>, s: State) {
    && s.nodes + SumBy(NodesOf, s.work) == ForestNodes(vs) && s.nodes <= MAX_NODES
    && s.bytes + SumBy(BytesOf, s.work) == ForestBytes(vs) && s.bytes <= MAX_TEXT_BYTES
    && (AllFit(s.work) <==> ForestDepth(vs) <= MAX_DEPTH)
  }

  function Start(vs: seq<Value>): State { State(ValueEntries(vs, 1), 0, 0) }

  lemma StartAccounts(vs: seq<Value>)
    ensures Accounts(vs, Start(vs))
  {
    ForestCounts(vs, 1);
  }

  lemma TakenOut(a: seq<Entry>, e: Entry, b: seq<Entry>, more: seq<Entry>)
    ensures SumBy(NodesOf, a + b + more) == SumBy(NodesOf, a + [e] + b) - NodesOf(e) + SumBy(NodesOf, more)
    ensures SumBy(BytesOf, a + b + more) == SumBy(BytesOf, a + [e] + b) - BytesOf(e) + SumBy(BytesOf, more)
  {
    hide NodesOf, BytesOf;
    SumSnoc(NodesOf, a, e);
    SumSnoc(BytesOf, a, e);
    SumAppend(NodesOf, a + [e], b);
    SumAppend(BytesOf, a + [e], b);
    SumAppend(NodesOf, a, b);
    SumAppend(BytesOf, a, b);
    SumAppend(NodesOf, a + b, more);
    SumAppend(BytesOf, a + b, more);
  }

  lemma FitsTakenOut(a: seq<Entry>, e: Entry, b: seq<Entry>, more: seq<Entry>)
    requires AllFit(more) <==> Fits(e)
    ensures AllFit(a + b + more) <==> AllFit(a + [e] + b)
  {
    FitsApart(a, [e], b);
    FitsApart(a, b, more);
    hide Fits;
    assert AllFit([e]) <==> Fits([e][0]);
  }

  lemma FitsApart(a: seq<Entry>, b: seq<Entry>, c: seq<Entry>)
    ensures AllFit(a + b + c) <==> AllFit(a) && AllFit(b) && AllFit(c)
  {
    hide Fits;
    var all := a + b + c;
    if AllFit(all) {
      forall i | 0 <= i < |a| ensures Fits(a[i]) { assert Fits(all[i]); }
      forall i | 0 <= i < |b| ensures Fits(b[i]) { assert Fits(all[|a| + i]); }
      forall i | 0 <= i < |c| ensures Fits(c[i]) { assert Fits(all[|a| + |b| + i]); }
    }
  }

  lemma NothingNegative(work: seq<Entry>)
    ensures SumBy(NodesOf, work) >= 0 && SumBy(BytesOf, work) >= 0
  {
    SumNonNegative(NodesOf, work);
    SumNonNegative(BytesOf, work);
  }

  /** A visit keeps the account and leaves one node less to visit; a refused visit means
      that the forest is over a limit. */
  lemma VisitAccounts(vs: seq<Value>, s: State, i: nat)
    requires Accounts(vs, s) && i < |s.work|
    ensures Visit(s, i).Some? ==>
              && Accounts(vs, Visit(s, i).value)
              && SumBy(NodesOf, Visit(s, i).value.work) == SumBy(NodesOf, s.work) - 1
    ensures Visit(s, i).None? ==> !WithinLimits(vs)
  {
    var a, e, b := s.work[..i], s.work[i], s.work[i + 1..];
    assert s.work == a + [e] + b;
    hide Children, OwnBytes;
    TakenOut(a, e, b, []);
    assert a + b + [] == a + b;
    NothingNegative(a + b);
    if e.depth > MAX_DEPTH {
      assert !Fits(s.work[i]);
    } else {
      VisitPassesOn(e);
      NothingNegative(Children(e));
      TakenOut(a, e, b, Children(e));
      FitsTakenOut(a, e, b, Children(e));
      hide AllFit, Fits, SumBy;
    }
  }

  // -------------------------------------------------------- any pop order

  datatype Verdict = Accepted | Rejected | Unfinished(state: State)

  /** Visits in the order of `picks`, as far as they are legal positions. */
  function Follow(s: State, picks: seq<nat>): Verdict
    decreases |picks|
  {
    if |s.work| == 0 then Accepted
    else if |picks| == 0 || picks[0] >= |s.work| then Unfinished(s)
    else if Visit(s, picks[0]).None? then Rejected
    else Follow(Visit(s, picks[0]).value, picks[1..])
  }

  lemma {:induction false} FollowIsRight(vs: seq<Value>, s: State, picks: seq<nat>)
    requires Accounts(vs, s)
    ensures Follow(s, picks).Accepted? ==> WithinLimits(vs)
    ensures Follow(s, picks).Rejected? ==> !WithinLimits(vs)
    decreases |picks|
  {
    hide Visit, Accounts;
    if |s.work| == 0 {
      DoneAccounts(vs, s);
    } else if |picks| > 0 && picks[0] < |s.work| {
      VisitAccounts(vs, s, picks[0]);
      if Visit(s, picks[0]).Some? {
        FollowIsRight(vs, Visit(s, picks[0]).value, picks[1..]);
      }
    }
  }

  lemma DoneAccounts(vs: seq<Value>, s: State)
    requires Accounts(vs, s) && |s.work| == 0
    ensures WithinLimits(vs)
  {
  }

  /** Whatever the pop order, a finished check accepts exactly the forests within limits. */
  lemma AnyOrderDecides(vs: seq<Value>, picks: seq<nat>)
    requires !Follow(Start(vs), picks).Unfinished?
    ensures Follow(Start(vs), picks).Accepted? <==> WithinLimits(vs)
  {
    StartAccounts(vs);
    FollowIsRight(vs, Start(vs), picks);
  }

  /** Every pick names an entry that is there. */
  predicate Legal(s: State, picks: seq<nat>)
    decreases |picks|
  {
    |s.work| > 0 && |picks| > 0 ==>
      picks[0] < |s.work| && (Visit(s, picks[0]).Some? ==> Legal(Visit(s, picks[0]).value, picks[1..]))
  }

  /** And every order finishes: no more visits than nodes. */
  lemma {:induction false} AnyOrderFinishes(vs: seq<Value>, s: State, picks: seq<nat>)
    requires Accounts(vs, s) && Legal(s, picks) && |picks| >= SumBy(NodesOf, s.work)
    ensures !Follow(s, picks).Unfinished?
    decreases |picks|
  {
    hide Visit, Accounts;
    if |s.work| > 0 {
      NothingNegative(s.work[1..]);
      assert SumBy(NodesOf, s.work) >= 1;
      VisitAccounts(vs, s, picks[0]);
      if Visit(s, picks[0]).Some? {
        AnyOrderFinishes(vs, Visit(s, picks[0]).value, picks[1..]);
      }
    }
  }

  // --------------------------------------------------------------- the code

  lemma ItemEntriesSnoc(items: seq<Item>, k: nat, depth: nat)
    requires k < |items|
    ensures ItemEntries(items[..k + 1], depth) == ItemEntries(items[..k], depth) + [Entry(items[k].value, depth)]
    ensures KeyBytes(items[..k + 1]) == KeyBytes(items[..k]) + Utf8Length(items[k].key)
    decreases k
  {
    if k > 0 {
      ItemEntriesSnoc(items[1..], k - 1, depth);
      assert items[..k + 1][1..] == items[1..][..k] && items[..k][1..] == items[1..][..k - 1];
    } else {
      assert items[..1][1..] == [] && items[..0] == [];
    }
  }

  lemma ValueEntriesSnoc(vs: seq<Value>, k: nat, depth: nat)
    requires k < |vs|
    ensures ValueEntries(vs[..k + 1], depth) == ValueEntries(vs[..k], depth) + [Entry(vs[k], depth)]
    decreases k
  {
    if k > 0 {
      ValueEntriesSnoc(vs[1..], k - 1, depth);
      assert vs[..k + 1][1..] == vs[1..][..k] && vs[..k][1..] == vs[1..][..k - 1];
    } else {
      assert vs[..1][1..] == [] && vs[..0] == [];
    }
  }

  /** The body of the loop after the counters: count the value's own text, push what is in it. */
  method Push(stack: seq<Entry>, value: Value, depth: nat, bytes: nat) returns (later: seq<Entry>, total: nat)
    ensures later == stack + Children(Entry(value, depth))
    ensures total == bytes + OwnBytes(value)
  {
    later, total := stack, bytes;
    match value {
      case Text(text) => total := total + Utf8Length(text);
      case Dict(items) =>
        for k := 0 to |items|
          invariant later == stack + ItemEntries(items[..k], depth + 1)
          invariant total == bytes + KeyBytes(items[..k])
        {
          ItemEntriesSnoc(items, k, depth + 1);
          total := total + Utf8Length(items[k].key);
          later := later + [Entry(items[k].value, depth + 1)];
        }
        assert items[..|items|] == items;
      case List(elements) =>
        for k := 0 to |elements|
          invariant later == stack + ValueEntries(elements[..k], depth + 1)
        {
          ValueEntriesSnoc(elements, k, depth + 1);
          later := later + [Entry(elements[k], depth + 1)];
        }
        assert elements[..|elements|] == elements;
      case Other =>
    }
  }

  lemma LimitsAre(vs: seq<Value>)
    ensures WithinLimits(vs) <==> ForestDepth(vs) <= 12 && ForestNodes(vs) <= 12_000 && ForestBytes(vs) <= 200_000
  {
  }

  /** `_validate_structure_complexity`: pop the last entry until none is left. */
  method ValidateStructureComplexity(values: seq<Value>) returns (ok: bool)
    ensures ok <==> ForestDepth(values) <= 12 && ForestNodes(values) <= 12_000 && ForestBytes(values) <= 200_000
  {
    LimitsAre(values);
    var nodes: nat, textBytes: nat := 0, 0;
    var stack := ValueEntries(values, 1);
    StartAccounts(values);
    hide Accounts, WithinLimits, ValueEntries, Children, OwnBytes, SumBy, ForestDepth, ForestNodes, ForestBytes;
    while stack != []
      invariant Accounts(values, State(stack, nodes, textBytes))
      decreases SumBy(NodesOf, stack)
    {
      var last := |stack| - 1;
      var value, depth := stack[last].value, stack[last].depth;
      ghost var before := State(stack, nodes, textBytes);
      VisitAccounts(values, before, last);
      NothingNegative(stack);
      assert stack[last + 1..] == [] && stack[..last] + [] == stack[..last];
      stack := stack[..last];
      if depth > MAX_DEPTH { return false; }
      nodes := nodes + 1;
      if nodes > MAX_NODES { return false; }
      stack, textBytes := Push(stack, value, depth, textBytes);
      if textBytes > MAX_TEXT_BYTES { return false; }
      if stack != [] {
        NothingNegative(stack);
      }
    }
    DoneAccounts(values, State(stack, nodes, textBytes));
    return true;
  }
}
