/** The order in which a return is reviewed and filed, told from the requests that were
    granted (Backend/backend/gst_compliance.py, Backend/backend/gst_gsp_fynamics.py). */
module GstHistory {
  import opened GstReturns

  // ---------------------------------------------------------- the last move

  /** The provider confirms the filing. */
  predicate Confirms(a: Answer) { a.Body? && a.arn.Some? && a.filed }

  /** The request is granted and settles anew where the return stands. */
  ghost predicate Moves(t: Table, e: Event, id: Id) {
    Step(t, e).1 == Done &&
    match e
    case Builds(form, period, _, _) => IsFor(Step(t, e).0, form, period, id)
    case ReviewsItc(_, _) => false
    case Verifies(i, answer) => i == id && Confirms(answer)
    case _ => e.id == id
  }

  function Reached(e: Event): Status {
    match e
    case Builds(_, _, _, _) => DRAFT
    case Reviews(_, approve) => if approve then APPROVED_FOR_FILING else REVIEW_REJECTED
    case RecordsEvidence(_, _) => FILED_EVIDENCE_RECORDED
    case Saves(_, _, _) => GSP_SAVED
    case Submits(_, _) => GSP_SUBMITTED
    case RequestsEvc(_, _) => EVC_REQUESTED
    case Files(_, answer) => if Confirms(answer) then FILED_VERIFIED else GSP_FILE_REQUESTED
    case _ => FILED_VERIFIED
  }

  /** The request filed the return. */
  predicate FiledIt(e: Event) { e.RecordsEvidence? || e.Verifies? || (e.Files? && Confirms(e.answer)) }

  ghost predicate IsLastMove(tables: seq<Table>, events: seq<Event>, n: nat, id: Id, m: nat) {
    && m < n <= |events| < |tables| && Moves(tables[m], events[m], id)
    && forall k :: m < k < n ==> !Moves(tables[k], events[k], id)
  }

  lemma BuiltRow(t: Table, e: Event, id: Id)
    requires Inv(t) && Possible(t, e) && e.Builds? && id in Step(t, e).0
    ensures Moves(t, e, id) ==> Step(t, e).0[id] == Fresh(e.form, e.period, e.summary.value)
    ensures !Moves(t, e, id) ==> id in t && Step(t, e).0[id] == t[id]
  {
    RowAfter(t, e, id);
    hide Inv;
    if Step(t, e).1 == Done {
      if Moves(t, e, id) {
        hide Build;
        BuildStartsOver(t, e.form, e.period, e.summary.value, e.drawn, id);
      }
    }
  }

  lemma FormStays(t: Table, e: Event, id: Id)
    requires Possible(t, e) && id in t
    ensures id in Step(t, e).0 && Step(t, e).0[id].form == t[id].form && Step(t, e).0[id].period == t[id].period
  {
  }

  lemma MovedRow(t: Table, e: Event, id: Id)
    requires Inv(t) && Possible(t, e) && id in Step(t, e).0
    ensures if Moves(t, e, id) then Step(t, e).0[id].status == Reached(e)
            else id in t && Step(t, e).0[id].status == t[id].status
    ensures id in t && !(e.Builds? && Moves(t, e, id)) ==> Step(t, e).0[id].summary == t[id].summary
  {
    hide Inv, Build;
    if e.Builds? {
      BuiltRow(t, e, id);
    }
  }

  /** A return stands where its last move put it. */
  lemma {:induction false} LastMove(tables: seq<Table>, events: seq<Event>, n: nat, id: Id) returns (m: nat)
    requires IsRun(tables, events) && n <= |events| && id in tables[n]
    ensures IsLastMove(tables, events, n, id, m) && tables[n][id].status == Reached(events[m])
  {
    hide IsRun, Step, Possible, Inv, Moves;
    RunStart(tables, events);
    if n == 0 {
      assert false;
    } else {
      RunKeeps(tables, events, n - 1);
      RunStep(tables, events, n - 1);
      MovedRow(tables[n - 1], events[n - 1], id);
      m := n - 1;
      if !Moves(tables[n - 1], events[n - 1], id) {
        m := LastMove(tables, events, n - 1, id);
      }
    }
  }

  // ------------------------------------------------------ the order of filing

  /** Which move may come right before a granted request of the filing workflow. */
  predicate MayFollow(form: Form, before: Event, e: Event) {
    match e
    case Saves(_, ready, answer) => ready && answer.Body? && before.Reviews? && before.approve
    case Submits(_, answer) => form == GSTR1 && answer.Body? && before.Saves?
    case RequestsEvc(_, answer) => answer.Body? && (if form == GSTR1 then before.Submits? else before.Saves?)
    case Files(_, answer) => answer.Body? && before.RequestsEvc?
    case RecordsEvidence(_, _) => before.Reviews? && before.approve
    case _ => false
  }

  predicate IsFilingRequest(e: Event, id: Id) {
    (e.Saves? || e.Submits? || e.RequestsEvc? || e.Files? || e.RecordsEvidence?) && e.id == id
  }

  lemma GrantedByStatus(t: Table, e: Event, id: Id, before: Event)
    requires Inv(t) && id in t && IsFilingRequest(e, id) && t[id].status == Reached(before) && !before.ReviewsItc?
    ensures Step(t, e).1 == Done <==> MayFollow(t[id].form, before, e)
  {
    RowIsFit(t, id);
    hide Inv;
  }

  /** In every run a request to upload, submit, ask for the code, file or record evidence is
      granted if and only if the provider answers and the last move of the return is the
      one it must follow: an upload and the record of evidence follow the approval, a submit
      (GSTR-1 only) the upload, the code the submit or, for a GSTR-3B, the upload, and the
      filing the code. */
  lemma FilingGrantedExactly(tables: seq<Table>, events: seq<Event>, n: nat, id: Id, e: Event) returns (m: nat)
    requires IsRun(tables, events) && n <= |events| && id in tables[n] && IsFilingRequest(e, id)
    ensures IsLastMove(tables, events, n, id, m)
    ensures Step(tables[n], e).1 == Done <==> MayFollow(tables[n][id].form, events[m], e)
  {
    m := LastMove(tables, events, n, id);
    RunKeeps(tables, events, n);
    hide IsRun, Step, Possible, Inv, MayFollow;
    NotItc(tables[m], events[m], id);
    GrantedByStatus(tables[n], e, id, events[m]);
  }

  lemma NotItc(t: Table, e: Event, id: Id)
    requires Moves(t, e, id)
    ensures !e.ReviewsItc?
  {
    hide Step;
  }

  /** No move of the return lies strictly between the two steps. */
  ghost predicate Quiet(tables: seq<Table>, events: seq<Event>, i: nat, j: nat, id: Id) {
    i < j <= |events| < |tables| && forall k :: i < k < j ==> !Moves(tables[k], events[k], id)
  }

  /** From a move on, with no build, form and summary stay. */
  lemma {:induction false} SummaryStays(tables: seq<Table>, events: seq<Event>, i: nat, j: nat, id: Id)
    requires IsRun(tables, events) && i <= j <= |events| && id in tables[i]
    requires forall k :: i <= k < j ==> !(events[k].Builds? && Moves(tables[k], events[k], id))
    ensures id in tables[j] && tables[j][id].summary == tables[i][id].summary && tables[j][id].form == tables[i][id].form
    decreases j
  {
    hide IsRun, Step, Possible, Inv, Moves;
    if i < j {
      SummaryStays(tables, events, i, j - 1, id);
      RunKeeps(tables, events, j - 1);
      RunStep(tables, events, j - 1);
      FormStays(tables[j - 1], events[j - 1], id);
      MovedRow(tables[j - 1], events[j - 1], id);
    }
  }

  lemma OnRow(t: Table, e: Event, id: Id)
    requires Moves(t, e, id) && !e.Builds?
    ensures id in t && e.id == id && Step(t, e).1 == Done
  {
  }

  /** The move before a granted filing request, on the same form and summary. */
  lemma MoveBefore(tables: seq<Table>, events: seq<Event>, n: nat, id: Id) returns (m: nat)
    requires IsRun(tables, events) && n < |events| && id in tables[n] && IsFilingRequest(events[n], id)
    requires Step(tables[n], events[n]).1 == Done
    ensures IsLastMove(tables, events, n, id, m)
    ensures MayFollow(tables[n][id].form, events[m], events[n])
    ensures MovedAt(tables, events, m, id, tables[n][id].summary) && events[m].id == id
    ensures tables[m][id].form == tables[n][id].form
  {
    m := FilingGrantedExactly(tables, events, n, id, events[n]);
    hide IsRun, Step, Possible, Inv, Moves;
    OnRow(tables[m], events[m], id);
    SummaryStays(tables, events, m, n, id);
  }

  /** The form of a return never changes. */
  lemma {:induction false} FormIsFixed(tables: seq<Table>, events: seq<Event>, i: nat, j: nat, id: Id)
    requires IsRun(tables, events) && i <= j <= |events| && id in tables[i]
    ensures id in tables[j] && tables[j][id].form == tables[i][id].form
    decreases j
  {
    hide IsRun, Step, Possible;
    if i < j {
      FormIsFixed(tables, events, i, j - 1, id);
      RunStep(tables, events, j - 1);
      FormStays(tables[j - 1], events[j - 1], id);
    }
  }

  lemma NeverSubmitted(tables: seq<Table>, events: seq<Event>, n: nat, id: Id, x: nat)
    requires IsRun(tables, events) && n <= |events| && id in tables[n] && tables[n][id].form == GSTR3B
    requires x < |events| && events[x].Submits? && events[x].id == id
    ensures Step(tables[x], events[x]).1 != Done
  {
    RunStart(tables, events);
    hide IsRun, Possible;
    if id in tables[x] {
      FormIsFixed(tables, events, if x < n then x else n, if x < n then n else x, id);
    }
  }

  /** The request at `k` was granted on this summary and moved the return. */
  ghost predicate MovedAt(tables: seq<Table>, events: seq<Event>, k: nat, id: Id, summary: string) {
    Met(tables, events, k, id, summary) && Moves(tables[k], events[k], id) && !events[k].Builds?
  }

  /** A return whose filing code was asked for, in any run: a GSTR-1 was approved, uploaded,
      submitted and granted its code, in this order; a GSTR-3B was approved, uploaded and
      granted its code, and was never submitted. All of it happened on the present summary,
      and nothing else moved the return in between; after the code at most the filing did. */
  lemma CodeWasEarned(tables: seq<Table>, events: seq<Event>, n: nat, id: Id)
    returns (i: nat, j: nat, k: nat, l: nat)
    requires IsRun(tables, events) && n <= |events| && id in tables[n]
    requires tables[n][id].status == EVC_REQUESTED || tables[n][id].status == GSP_FILE_REQUESTED
    ensures i < j <= k < l < n
    ensures forall x :: x in {i, j, k, l} ==> MovedAt(tables, events, x, id, tables[n][id].summary)
    ensures events[i] == Reviews(id, true) && events[j].Saves? && events[l].RequestsEvc?
    ensures tables[n][id].form == GSTR1 ==> j < k && events[k].Submits?
    ensures tables[n][id].form == GSTR3B ==>
              (j == k && forall x :: 0 <= x < |events| && events[x].Submits? && events[x].id == id ==> Step(tables[x], events[x]).1 != Done)
    ensures forall x :: i < x < n && Moves(tables[x], events[x], id) ==>
              x in {j, k, l} || (l < x && events[x].Files? && tables[n][id].status == GSP_FILE_REQUESTED)
  {
    hide IsRun, Step, Possible, Inv, Moves;
    var m := LastMove(tables, events, n, id);
    RunStart(tables, events);
    OnRow(tables[m], events[m], id);
    SummaryStays(tables, events, m, n, id);
    l := m;
    if events[m].Files? {
      l := MoveBefore(tables, events, m, id);
    }
    k := MoveBefore(tables, events, l, id);
    j := k;
    if tables[n][id].form == GSTR1 {
      j := MoveBefore(tables, events, k, id);
    } else {
      forall x | 0 <= x < |events| && events[x].Submits? && events[x].id == id ensures Step(tables[x], events[x]).1 != Done {
        NeverSubmitted(tables, events, n, id, x);
      }
    }
    i := MoveBefore(tables, events, j, id);
  }

  // --------------------------------------------- where the records come from

  /** What is written on a return along its way. */
  datatype Field = ItcEvidence | Reference | Arn

  function Value(row: Working, f: Field): Option<string> {
    match f
    case ItcEvidence => row.itc
    case Reference => row.submission
    case Arn => row.arn
  }

  /** The granted request writes the value: ITC evidence by its review; a reference by the
      provider's answer to the upload, the submit or the filing; an ARN by the record of
      evidence, or by the answer that confirms the filing. */
  ghost predicate Writes(t: Table, e: Event, id: Id, f: Field, v: string) {
    Step(t, e).1 == Done && !e.Builds? && e.id == id &&
    match f
    case ItcEvidence => e.ReviewsItc? && e.evidence == v
    case Reference => (e.Saves? || e.Submits? || e.Files?) && e.answer.reference == Some(v)
    case Arn => (e.RecordsEvidence? && e.arn == v) || ((e.Files? || e.Verifies?) && Confirms(e.answer) && e.answer.arn == Some(v))
  }

  /** The granted request starts anew: a build, or for the reference an upload. */
  ghost predicate Drops(t: Table, e: Event, id: Id, f: Field) {
    (e.Builds? && Moves(t, e, id)) || (f == Reference && e.Saves? && e.id == id && Step(t, e).1 == Done)
  }

  ghost predicate IsLastWritten(tables: seq<Table>, events: seq<Event>, n: nat, id: Id, f: Field, v: string, k: nat) {
    && k < n <= |events| < |tables| && Writes(tables[k], events[k], id, f, v)
    && forall x :: k < x < n ==> !Drops(tables[x], events[x], id, f) && forall w :: !Writes(tables[x], events[x], id, f, w)
  }

  lemma FieldStep(t: Table, e: Event, id: Id, f: Field, v: string)
    requires Inv(t) && Possible(t, e) && id in Step(t, e).0
    ensures Value(Step(t, e).0[id], f) == Some(v) <==>
              (Writes(t, e, id, f, v)
               || (id in t && Value(t[id], f) == Some(v) && !Drops(t, e, id, f) && forall w :: !Writes(t, e, id, f, w)))
  {
    hide Inv, Build;
    if e.Builds? {
      BuiltRow(t, e, id);
    } else if e.id == id && Step(t, e).1 == Done && Value(Step(t, e).0[id], f).Some? {
      var w := Value(Step(t, e).0[id], f).value;
      assert Writes(t, e, id, f, w) || !exists u :: Writes(t, e, id, f, u);
    }
  }

  /** In every run a return carries a piece of ITC evidence, a provider reference or an ARN
      if and only if it is the last one that a granted request wrote on it since it was last
      built (for the reference: or uploaded). */
  lemma {:induction false} WrittenExactly(tables: seq<Table>, events: seq<Event>, n: nat, id: Id, f: Field, v: string)
    requires IsRun(tables, events) && n <= |events| && id in tables[n]
    ensures Value(tables[n][id], f) == Some(v) <==> exists k :: IsLastWritten(tables, events, n, id, f, v, k)
  {
    hide IsRun, Step, Possible, Inv, Writes, Drops, Value;
    RunStart(tables, events);
    if n > 0 {
      RunKeeps(tables, events, n - 1);
      RunStep(tables, events, n - 1);
      var t, e := tables[n - 1], events[n - 1];
      FieldStep(t, e, id, f, v);
      if id in t {
        WrittenExactly(tables, events, n - 1, id, f, v);
        if Value(tables[n][id], f) == Some(v) && !Writes(t, e, id, f, v) {
          var k :| IsLastWritten(tables, events, n - 1, id, f, v, k);
          assert IsLastWritten(tables, events, n, id, f, v, k);
        }
      } else {
        NoneBefore(tables, events, n - 1, id, f);
      }
      if Writes(t, e, id, f, v) {
        assert IsLastWritten(tables, events, n, id, f, v, n - 1);
      }
      if k: nat :| IsLastWritten(tables, events, n, id, f, v, k) {
        assert k < n - 1 ==> IsLastWritten(tables, events, n - 1, id, f, v, k);
      }
    }
  }

  /** A row that is not there yet was written on by nothing. */
  lemma NoneBefore(tables: seq<Table>, events: seq<Event>, n: nat, id: Id, f: Field)
    requires IsRun(tables, events) && n <= |events| && id !in tables[n]
    ensures forall k, v :: 0 <= k < n ==> !Writes(tables[k], events[k], id, f, v)
  {
    forall k | 0 <= k < n ensures id !in tables[k] {
      if id in tables[k] {
        FormIsFixed(tables, events, k, n, id);
      }
    }
    hide IsRun, Possible;
  }

  /** In every run the other requests are granted as follows. A CA decision and an ITC review
      (GSTR-3B only) need a return that is not filed, and the approval of a GSTR-3B an ITC
      review since the last build; a build needs a period that parses and no filed working
      of it; a status check needs a reference and an answer. */
  lemma ReviewGrantedExactly(tables: seq<Table>, events: seq<Event>, n: nat, id: Id, e: Event) returns (m: nat)
    requires IsRun(tables, events) && n <= |events| && id in tables[n]
    ensures IsLastMove(tables, events, n, id, m)
    ensures e.Reviews? && e.id == id ==>
              (Step(tables[n], e).1 == Done <==>
                 !FiledIt(events[m]) && (e.approve && tables[n][id].form == GSTR3B ==>
                   exists v, k :: IsLastWritten(tables, events, n, id, ItcEvidence, v, k)))
    ensures e.ReviewsItc? && e.id == id ==>
              (Step(tables[n], e).1 == Done <==> tables[n][id].form == GSTR3B && !FiledIt(events[m]))
    ensures e.Verifies? && e.id == id ==>
              (Step(tables[n], e).1 == Done <==> e.answer.Body? && exists v, k :: IsLastWritten(tables, events, n, id, Reference, v, k))
    ensures e.Builds? && IsFor(tables[n], e.form, e.period, id) ==>
              (Step(tables[n], e).1 == Done <==> e.summary.Some? && !FiledIt(events[m]))
  {
    m := LastMove(tables, events, n, id);
    RunKeeps(tables, events, n);
    IsWritten(tables, events, n, id, ItcEvidence);
    IsWritten(tables, events, n, id, Reference);
    NotItc(tables[m], events[m], id);
    hide IsRun, Possible, IsLastWritten;
    GrantedRow(tables[n], e, id, events[m]);
    hide Step, Inv;
  }

  lemma IsWritten(tables: seq<Table>, events: seq<Event>, n: nat, id: Id, f: Field)
    requires IsRun(tables, events) && n <= |events| && id in tables[n]
    ensures Value(tables[n][id], f).Some? <==> exists v, k :: IsLastWritten(tables, events, n, id, f, v, k)
  {
    RunStart(tables, events);
    hide IsRun, IsLastWritten;
    if Value(tables[n][id], f).Some? {
      WrittenExactly(tables, events, n, id, f, Value(tables[n][id], f).value);
    }
    if v, k: nat :| IsLastWritten(tables, events, n, id, f, v, k) {
      WrittenExactly(tables, events, n, id, f, v);
    }
  }

  lemma GrantedRow(t: Table, e: Event, id: Id, before: Event)
    requires Inv(t) && id in t && t[id].status == Reached(before) && !before.ReviewsItc?
    ensures e.Reviews? && e.id == id ==>
              (Step(t, e).1 == Done <==> !FiledIt(before) && (e.approve && t[id].form == GSTR3B ==> t[id].itc.Some?))
    ensures e.ReviewsItc? && e.id == id ==> (Step(t, e).1 == Done <==> t[id].form == GSTR3B && !FiledIt(before))
    ensures e.Verifies? && e.id == id ==> (Step(t, e).1 == Done <==> e.answer.Body? && t[id].submission.Some?)
    ensures e.Builds? && IsFor(t, e.form, e.period, id) ==> (Step(t, e).1 == Done <==> e.summary.Some? && !FiledIt(before))
  {
  }

  // ------------------------------------------------------------- the way out

  /** The requests that take a return through the provider. */
  function FilingRequests(form: Form, id: Id, evidence: string, saved: Answer, sent: Answer, coded: Answer, filed: Answer): seq<Event> {
    if form == GSTR1 then
      [Reviews(id, true), Saves(id, true, saved), Submits(id, sent), RequestsEvc(id, coded), Files(id, filed)]
    else
      [ReviewsItc(id, evidence), Reviews(id, true), Saves(id, true, saved), RequestsEvc(id, coded), Files(id, filed)]
  }

  ghost predicate Ends(tables: seq<Table>, events: seq<Event>, id: Id, row: Working) {
    |tables| == |events| + 1 && IsRun(tables, events) && id in tables[|events|] && tables[|events|][id] == row
  }

  /** One more request of a run, granted on the row it names. */
  lemma Goes(tables: seq<Table>, events: seq<Event>, id: Id, row: Working, e: Event, later: Working) returns (more: seq<Table>)
    requires Ends(tables, events, id, row) && !e.Builds? && Step(tables[|events|], e).0 == tables[|events|][id := later]
    ensures Ends(more, events + [e], id, later) && tables <= more
  {
    hide Step;
    more := tables + [Step(tables[|events|], e).0];
  }

  function Approved(row: Working): Working {
    row.(status := APPROVED_FOR_FILING, reviewed := true, last := Some(Decision(true, row.summary)), approved := Some(row.summary))
  }

  lemma ReviewServed(t: Table, id: Id, evidence: string)
    requires id in t && !IsFiled(t[id].status)
    ensures t[id].form == GSTR1 || t[id].itc.Some? ==> Step(t, Reviews(id, true)).0 == t[id := Approved(t[id])]
    ensures t[id].form == GSTR3B ==> Step(t, ReviewsItc(id, evidence)).0 == t[id := t[id].(itc := Some(evidence))]
  {
  }

  lemma ProviderServed(t: Table, id: Id, a: Answer)
    requires id in t && a.Body?
    ensures t[id].status == APPROVED_FOR_FILING && (t[id].form == GSTR1 || t[id].itc.Some?) ==>
              Step(t, Saves(id, true, a)).0 == t[id := t[id].(status := GSP_SAVED, submission := a.reference)]
    ensures t[id].status == GSP_SAVED && t[id].form == GSTR1 ==>
              Step(t, Submits(id, a)).0 == t[id := t[id].(status := GSP_SUBMITTED, submission := Or(a.reference, t[id].submission))]
    ensures t[id].status == (if t[id].form == GSTR1 then GSP_SUBMITTED else GSP_SAVED) ==>
              Step(t, RequestsEvc(id, a)).0 == t[id := t[id].(status := EVC_REQUESTED)]
    ensures t[id].status == EVC_REQUESTED ==> Step(t, Files(id, a)).0 == t[id := Sent(t[id], a.reference, a.arn, a.filed)]
  {
  }

  lemma Uploaded(tables: seq<Table>, events: seq<Event>, id: Id, row: Working, saved: Answer, sent: Answer)
    returns (later: seq<Table>, more: seq<Event>, uploaded: Working)
    requires Ends(tables, events, id, row) && row.status == APPROVED_FOR_FILING && (row.form == GSTR1 || row.itc.Some?)
    requires saved.Body? && sent.Body?
    ensures Ends(later, more, id, uploaded) && tables <= later
    ensures more == events + [Saves(id, true, saved)] + if row.form == GSTR1 then [Submits(id, sent)] else []
    ensures uploaded == row.(status := uploaded.status, submission := uploaded.submission)
    ensures uploaded.status == if row.form == GSTR1 then GSP_SUBMITTED else GSP_SAVED
  {
    hide IsRun, Step;
    ProviderServed(tables[|events|], id, saved);
    uploaded := row.(status := GSP_SAVED, submission := saved.reference);
    later := Goes(tables, events, id, row, Saves(id, true, saved), uploaded);
    more := events + [Saves(id, true, saved)];
    if row.form == GSTR1 {
      ProviderServed(later[|more|], id, sent);
      var submitted := uploaded.(status := GSP_SUBMITTED, submission := Or(sent.reference, uploaded.submission));
      later := Goes(later, more, id, uploaded, Submits(id, sent), submitted);
      uploaded, more := submitted, more + [Submits(id, sent)];
    }
  }

  /** Every return that is not filed, wherever it stands in a run, can be filed through the
      provider: these five requests, with a provider that answers, end it FILED_VERIFIED on
      its summary and under the ARN it reports. */
  lemma CanBeFiled(
    tables: seq<Table>, events: seq<Event>, id: Id, evidence: string, saved: Answer, sent: Answer, coded: Answer, filed: Answer)
    returns (later: seq<Table>, more: seq<Event>)
    requires IsRun(tables, events) && id in tables[|events|] && !IsFiled(tables[|events|][id].status)
    requires saved.Body? && sent.Body? && coded.Body? && Confirms(filed)
    ensures more == events + FilingRequests(tables[|events|][id].form, id, evidence, saved, sent, coded, filed)
    ensures IsRun(later, more) && tables <= later && id in later[|more|]
    ensures later[|more|][id].status == FILED_VERIFIED && later[|more|][id].arn == filed.arn
    ensures later[|more|][id].summary == tables[|events|][id].summary
  {
    RunStart(tables, events);
    hide IsRun, Step, Possible;
    var row := tables[|events|][id];
    later, more, row := Cleared(tables, events, id, row, evidence);
    later, more, row := Uploaded(later, more, id, row, saved, sent);
    later, more, row := Coded(later, more, id, row, coded, filed);
  }

  lemma Cleared(tables: seq<Table>, events: seq<Event>, id: Id, row: Working, evidence: string)
    returns (later: seq<Table>, more: seq<Event>, cleared: Working)
    requires Ends(tables, events, id, row) && !IsFiled(row.status)
    ensures Ends(later, more, id, cleared) && tables <= later
    ensures more == events + (if row.form == GSTR3B then [ReviewsItc(id, evidence)] else []) + [Reviews(id, true)]
    ensures cleared.status == APPROVED_FOR_FILING && cleared.form == row.form && cleared.summary == row.summary
    ensures cleared.form == GSTR1 || cleared.itc.Some?
  {
    hide IsRun, Step;
    later, more, cleared := tables, events, row;
    if row.form == GSTR3B {
      ReviewServed(later[|more|], id, evidence);
      later := Goes(later, more, id, cleared, ReviewsItc(id, evidence), row.(itc := Some(evidence)));
      cleared, more := row.(itc := Some(evidence)), more + [ReviewsItc(id, evidence)];
    }
    ReviewServed(later[|more|], id, evidence);
    later := Goes(later, more, id, cleared, Reviews(id, true), Approved(cleared));
    cleared, more := Approved(cleared), more + [Reviews(id, true)];
  }

  lemma Coded(tables: seq<Table>, events: seq<Event>, id: Id, row: Working, coded: Answer, filed: Answer)
    returns (later: seq<Table>, more: seq<Event>, done: Working)
    requires Ends(tables, events, id, row) && row.status == (if row.form == GSTR1 then GSP_SUBMITTED else GSP_SAVED)
    requires coded.Body? && Confirms(filed)
    ensures Ends(later, more, id, done) && tables <= later && more == events + [RequestsEvc(id, coded), Files(id, filed)]
    ensures done.status == FILED_VERIFIED && done.arn == filed.arn && done.summary == row.summary
  {
    hide IsRun, Step;
    ProviderServed(tables[|events|], id, coded);
    done := row.(status := EVC_REQUESTED);
    later := Goes(tables, events, id, row, RequestsEvc(id, coded), done);
    more := events + [RequestsEvc(id, coded)];
    ProviderServed(later[|more|], id, filed);
    later := Goes(later, more, id, done, Files(id, filed), Sent(done, filed.reference, filed.arn, filed.filed));
    done, more := Sent(done, filed.reference, filed.arn, filed.filed), more + [Files(id, filed)];
  }

  /** A GSTR-3B built, cleared and filed through the provider, in a run from no returns. */
  lemma FiledGstr3b() returns (tables: seq<Table>, events: seq<Event>)
    ensures IsRun(tables, events) && |events| == 6 && "r" in tables[6]
    ensures events[0] == Builds(GSTR3B, "2024-04", Some("s"), "r") && events[3].Saves? && events[4].RequestsEvc? && events[5].Files?
    ensures tables[6]["r"].form == GSTR3B && tables[6]["r"].status == FILED_VERIFIED
  {
    var built := Fresh(GSTR3B, "2024-04", "s");
    events, tables := [Builds(GSTR3B, "2024-04", Some("s"), "r")], [map[], map["r" := built]];
    assert !exists id :: IsFor(map[], GSTR3B, "2024-04", id);
    assert Step(tables[0], events[0]).0 == tables[1];
    var ok := Body(Some("ref"), None, false);
    tables, events := CanBeFiled(tables, events, "r", "itc", ok, ok, ok, Body(None, Some("arn"), true));
    hide Step, Possible;
    FormIsFixed(tables, events, 1, 6, "r");
  }
}
