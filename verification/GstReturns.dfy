/** The life of a GST return working, from build to verified filing
    (Backend/backend/gst_compliance.py, Backend/backend/gst_gsp_fynamics.py). */
module GstReturns {

  type Id = string

  datatype Option<+T> = None | Some(value: T)

  /** SHA-256 of the canonical JSON of a summary. */
  datatype Hash = Sha256(text: string)

  datatype Form = GSTR1 | GSTR3B

  datatype Status =
    | DRAFT | APPROVED_FOR_FILING | REVIEW_REJECTED
    | GSP_SAVED | GSP_SUBMITTED | EVC_REQUESTED | GSP_FILE_REQUESTED
    | FILED | FILED_EVIDENCE_RECORDED | FILED_VERIFIED

  datatype Decision = Decision(approve: bool, on: string)

  /** One working. `last` and `approved` are the audit trail read back since the last
      build: the latest CA decision with the summary it was made on, and the summary
      that was last approved. */
  datatype Working = Working(
    form: Form, period: string, status: Status, sourceHash: Hash, summary: string,
    reviewed: bool, itc: Option<string>, arn: Option<string>, submission: Option<string>,
    last: Option<Decision>, approved: Option<string>)

  type Table = map<Id, Working>

  datatype Reply = Refused(code: nat) | Done

  /** What a provider call came back with; `filed` is `_is_filed_status` of its status. */
  datatype Answer = NoAnswer | Body(reference: Option<string>, arn: Option<string>, filed: bool)

  predicate IsFiled(s: Status) { s == FILED || s == FILED_EVIDENCE_RECORDED || s == FILED_VERIFIED }

  predicate IsInFiling(s: Status) {
    s == GSP_SAVED || s == GSP_SUBMITTED || s == EVC_REQUESTED || s == GSP_FILE_REQUESTED
  }

  function Fresh(form: Form, period: string, summary: string): Working {
    Working(form, period, DRAFT, Sha256(summary), summary, false, None, None, None, None, None)
  }

  predicate IsFor(t: Table, form: Form, period: string, id: Id) {
    id in t && t[id].form == form && t[id].period == period
  }

  /** `build_return`; `summary` is None for a period that does not parse. */
  ghost function Build(t: Table, form: Form, period: string, summary: Option<string>, drawn: Id): (Table, Reply) {
    if summary.None? then (t, Refused(422))
    else if exists id :: IsFor(t, form, period, id) then
      var id :| IsFor(t, form, period, id);
      if IsFiled(t[id].status) then (t, Refused(409)) else (t[id := Fresh(form, period, summary.value)], Done)
    else (t[drawn := Fresh(form, period, summary.value)], Done)
  }

  /** `review_return`. */
  function Review(t: Table, id: Id, approve: bool): (Table, Reply) {
    if id !in t then (t, Refused(404))
    else
      var row := t[id];
      if IsFiled(row.status) then (t, Refused(409))
      else if approve && row.form == GSTR3B && row.itc.None? then (t, Refused(409))
      else
        (t[id := row.(status := if approve then APPROVED_FOR_FILING else REVIEW_REJECTED, reviewed := true,
                      last := Some(Decision(approve, row.summary)),
                      approved := if approve then Some(row.summary) else row.approved)],
         Done)
  }

  /** `record_filing_evidence`. */
  function RecordEvidence(t: Table, id: Id, arn: string): (Table, Reply) {
    if id !in t then (t, Refused(404))
    else if t[id].status != APPROVED_FOR_FILING then (t, Refused(409))
    else (t[id := t[id].(status := FILED_EVIDENCE_RECORDED, arn := Some(arn))], Done)
  }

  /** `review_itc`. */
  function ReviewItc(t: Table, id: Id, evidence: string): (Table, Reply) {
    if id !in t then (t, Refused(404))
    else if t[id].form != GSTR3B || IsFiled(t[id].status) then (t, Refused(409))
    else (t[id := t[id].(itc := Some(evidence))], Done)
  }

  function Or(a: Option<string>, b: Option<string>): Option<string> { if a.Some? then a else b }

  /** `save_return`; `ready` stands for a configured provider and a payload that could be built. */
  function Save(t: Table, id: Id, ready: bool, a: Answer): (Table, Reply) {
    if id !in t then (t, Refused(404))
    else if t[id].status != APPROVED_FOR_FILING || !ready || (t[id].form == GSTR3B && t[id].itc.None?) then (t, Refused(409))
    else
      match a
      case NoAnswer => (t, Refused(502))
      case Body(reference, _, _) => (t[id := t[id].(status := GSP_SAVED, submission := reference)], Done)
  }

  /** `submit_return`. */
  function Submit(t: Table, id: Id, a: Answer): (Table, Reply) {
    if id !in t then (t, Refused(404))
    else if t[id].form != GSTR1 || t[id].status != GSP_SAVED then (t, Refused(409))
    else
      match a
      case NoAnswer => (t, Refused(502))
      case Body(reference, _, _) =>
        (t[id := t[id].(status := GSP_SUBMITTED, submission := Or(reference, t[id].submission))], Done)
  }

  /** `request_evc`. */
  function RequestEvc(t: Table, id: Id, a: Answer): (Table, Reply) {
    if id !in t then (t, Refused(404))
    else if t[id].status != (if t[id].form == GSTR1 then GSP_SUBMITTED else GSP_SAVED) then (t, Refused(409))
    else if a.NoAnswer? then (t, Refused(502))
    else (t[id := t[id].(status := EVC_REQUESTED)], Done)
  }

  /** `file_return`. */
  function File(t: Table, id: Id, a: Answer): (Table, Reply) {
    if id !in t then (t, Refused(404))
    else if t[id].status != EVC_REQUESTED then (t, Refused(409))
    else
      match a
      case NoAnswer => (t, Refused(502))
      case Body(reference, arn, filed) =>
        (t[id := Sent(t[id], reference, arn, filed)], Done)
  }

  function Sent(row: Working, reference: Option<string>, arn: Option<string>, filed: bool): Working {
    var sent := row.(status := GSP_FILE_REQUESTED, submission := Or(reference, row.submission));
    if arn.Some? && filed then sent.(status := FILED_VERIFIED, arn := arn) else sent
  }

  /** `verify_return`. */
  function Verify(t: Table, id: Id, a: Answer): (Table, Reply) {
    if id !in t then (t, Refused(404))
    else if t[id].submission.None? then (t, Refused(409))
    else
      match a
      case NoAnswer => (t, Refused(502))
      case Body(_, arn, filed) =>
        (t[id := if arn.Some? && filed then t[id].(status := FILED_VERIFIED, arn := arn) else t[id]], Done)
  }

  // ------------------------------------------------------------------- runs

  datatype Event =
    | Builds(form: Form, period: string, summary: Option<string>, drawn: Id)
    | Reviews(id: Id, approve: bool)
    | RecordsEvidence(id: Id, arn: string)
    | ReviewsItc(id: Id, evidence: string)
    | Saves(id: Id, ready: bool, answer: Answer)
    | Submits(id: Id, answer: Answer)
    | RequestsEvc(id: Id, answer: Answer)
    | Files(id: Id, answer: Answer)
    | Verifies(id: Id, answer: Answer)

  ghost function Step(t: Table, e: Event): (Table, Reply) {
    match e
    case Builds(form, period, summary, drawn) => Build(t, form, period, summary, drawn)
    case Reviews(id, approve) => Review(t, id, approve)
    case RecordsEvidence(id, arn) => RecordEvidence(t, id, arn)
    case ReviewsItc(id, evidence) => ReviewItc(t, id, evidence)
    case Saves(id, ready, answer) => Save(t, id, ready, answer)
    case Submits(id, answer) => Submit(t, id, answer)
    case RequestsEvc(id, answer) => RequestEvc(t, id, answer)
    case Files(id, answer) => File(t, id, answer)
    case Verifies(id, answer) => Verify(t, id, answer)
  }

  predicate Possible(t: Table, e: Event) { e.Builds? ==> e.drawn !in t }

  ghost predicate IsRun(tables: seq<Table>, events: seq<Event>) {
    && |tables| == |events| + 1 && tables[0] == map[]
    && forall k :: 0 <= k < |events| ==> Possible(tables[k], events[k]) && tables[k + 1] == Step(tables[k], events[k]).0
  }

  // -------------------------------------------------------------- invariant

  /** Cleared for filing: approved, in filing, filed, or known to the provider. */
  predicate IsCleared(row: Working) {
    row.status == APPROVED_FOR_FILING || IsInFiling(row.status) || IsFiled(row.status) || row.submission.Some?
  }

  predicate RowFits(row: Working) {
    && row.sourceHash == Sha256(row.summary)
    && (row.status == DRAFT ==> row.submission.None? && row.arn.None?)
    && (row.status != DRAFT ==> row.reviewed && row.last.Some? && row.last.value.on == row.summary)
    && (row.status == APPROVED_FOR_FILING || IsInFiling(row.status) || row.status == FILED_EVIDENCE_RECORDED ==> row.last.value.approve)
    && (row.status == REVIEW_REJECTED ==> !row.last.value.approve)
    && (IsCleared(row) ==> row.approved == Some(row.summary) && (row.form == GSTR3B ==> row.itc.Some?))
    && (row.status == FILED_VERIFIED || row.status == FILED_EVIDENCE_RECORDED ==> row.arn.Some?)
    && row.status != FILED
  }

  ghost predicate Inv(t: Table) {
    && (forall id :: id in t ==> RowFits(t[id]))
    && (forall i, j :: i in t && j in t && t[i].form == t[j].form && t[i].period == t[j].period ==> i == j)
  }

  /** What a step may do to a filed row: nothing but confirm it. */
  predicate Frozen(row: Working, later: Working) {
    && IsFiled(later.status) && later.form == row.form && later.period == row.period
    && later.summary == row.summary && later.sourceHash == row.sourceHash && later.itc == row.itc
    && later.last == row.last && later.approved == row.approved
  }

  ghost predicate FiledStay(t: Table, u: Table) {
    forall id :: id in t ==> id in u && (IsFiled(t[id].status) ==> Frozen(t[id], u[id]))
  }

  /** One row is put; its form and period are its own. */
  lemma PutRow(t: Table, id: Id, row: Working)
    requires Inv(t) && RowFits(row)
    requires id in t ==> row.form == t[id].form && row.period == t[id].period
    requires id !in t ==> forall i :: !IsFor(t, row.form, row.period, i)
    requires id in t && IsFiled(t[id].status) ==> Frozen(t[id], row)
    ensures Inv(t[id := row]) && FiledStay(t, t[id := row])
  {
    hide RowFits, Frozen;
    var u := t[id := row];
    forall i, j | i in u && j in u && u[i].form == u[j].form && u[i].period == u[j].period ensures i == j {
      assert !(id !in t && i in t && IsFor(t, row.form, row.period, i) && j == id);
      assert !(id !in t && j in t && IsFor(t, row.form, row.period, j) && i == id);
    }
    forall i | i in t && IsFiled(t[i].status) ensures Frozen(t[i], u[i]) {
      if i != id {
        SameRow(t[i]);
      }
    }
  }

  lemma SameRow(row: Working)
    requires IsFiled(row.status)
    ensures Frozen(row, row)
  {
  }

  lemma AsIs(t: Table)
    ensures FiledStay(t, t)
  {
  }

  lemma BuildKeeps(t: Table, form: Form, period: string, summary: Option<string>, drawn: Id)
    requires Inv(t) && drawn !in t
    ensures Inv(Build(t, form, period, summary, drawn).0) && FiledStay(t, Build(t, form, period, summary, drawn).0)
  {
    AsIs(t);
    if summary.Some? {
      hide Inv, FiledStay;
      var row := Fresh(form, period, summary.value);
      forall id | IsFor(t, form, period, id) && !IsFiled(t[id].status)
        ensures Inv(t[id := row]) && FiledStay(t, t[id := row])
      {
        PutRow(t, id, row);
      }
      if !exists id :: IsFor(t, form, period, id) {
        PutRow(t, drawn, row);
      }
    }
  }

  /** Every handler that works on an existing row. */
  lemma RowKeeps(t: Table, u: Table, id: Id)
    requires Inv(t) && (u == t || (id in t && id in u && u == t[id := u[id]]))
    requires id in t && u != t ==>
               && RowFits(u[id]) && u[id].form == t[id].form && u[id].period == t[id].period
               && (IsFiled(t[id].status) ==> Frozen(t[id], u[id]))
    ensures Inv(u) && FiledStay(t, u)
  {
    hide Inv, FiledStay, RowFits, Frozen;
    AsIs(t);
    if u != t {
      PutRow(t, id, u[id]);
    }
  }

  lemma RowIsFit(t: Table, id: Id)
    requires Inv(t) && id in t
    ensures RowFits(t[id])
  {
    hide RowFits;
  }

  lemma ReviewKeeps(t: Table, id: Id, approve: bool, evidence: string)
    requires Inv(t)
    ensures Inv(Review(t, id, approve).0) && FiledStay(t, Review(t, id, approve).0)
    ensures Inv(ReviewItc(t, id, evidence).0) && FiledStay(t, ReviewItc(t, id, evidence).0)
  {
    if id in t { RowIsFit(t, id); }
    hide Inv, FiledStay;
    RowKeeps(t, Review(t, id, approve).0, id);
    RowKeeps(t, ReviewItc(t, id, evidence).0, id);
  }

  lemma SaveKeeps(t: Table, id: Id, ready: bool, a: Answer, arn: string)
    requires Inv(t)
    ensures Inv(Save(t, id, ready, a).0) && FiledStay(t, Save(t, id, ready, a).0)
    ensures Inv(RecordEvidence(t, id, arn).0) && FiledStay(t, RecordEvidence(t, id, arn).0)
  {
    if id in t { RowIsFit(t, id); }
    hide Inv, FiledStay;
    RowKeeps(t, Save(t, id, ready, a).0, id);
    RowKeeps(t, RecordEvidence(t, id, arn).0, id);
  }

  lemma SubmitKeeps(t: Table, id: Id, a: Answer)
    requires Inv(t)
    ensures Inv(Submit(t, id, a).0) && FiledStay(t, Submit(t, id, a).0)
    ensures Inv(RequestEvc(t, id, a).0) && FiledStay(t, RequestEvc(t, id, a).0)
  {
    if id in t { RowIsFit(t, id); }
    hide Inv, FiledStay;
    RowKeeps(t, Submit(t, id, a).0, id);
    RowKeeps(t, RequestEvc(t, id, a).0, id);
  }

  lemma FileKeeps(t: Table, id: Id, a: Answer)
    requires Inv(t)
    ensures Inv(File(t, id, a).0) && FiledStay(t, File(t, id, a).0)
  {
    hide Inv, FiledStay, RowFits, Sent;
    if id in t && t[id].status == EVC_REQUESTED && a.Body? {
      RowIsFit(t, id);
      SentFits(t[id], a.reference, a.arn, a.filed);
    }
    RowKeeps(t, File(t, id, a).0, id);
  }

  lemma SentFits(row: Working, reference: Option<string>, arn: Option<string>, filed: bool)
    requires RowFits(row) && row.status == EVC_REQUESTED
    ensures var sent := Sent(row, reference, arn, filed); RowFits(sent) && sent.form == row.form && sent.period == row.period
  {
  }

  lemma VerifyKeeps(t: Table, id: Id, a: Answer)
    requires Inv(t)
    ensures Inv(Verify(t, id, a).0) && FiledStay(t, Verify(t, id, a).0)
  {
    if id in t { RowIsFit(t, id); }
    hide Inv, FiledStay;
    RowKeeps(t, Verify(t, id, a).0, id);
  }

  lemma StepKeeps(t: Table, e: Event)
    requires Inv(t) && Possible(t, e)
    ensures Inv(Step(t, e).0) && FiledStay(t, Step(t, e).0)
  {
    hide Inv, FiledStay, Build, Review, RecordEvidence, ReviewItc, Save, Submit, RequestEvc, File, Verify;
    match e
    case Builds(form, period, summary, drawn) => BuildKeeps(t, form, period, summary, drawn);
    case Reviews(id, approve) => ReviewKeeps(t, id, approve, "");
    case RecordsEvidence(id, arn) => SaveKeeps(t, id, true, NoAnswer, arn);
    case ReviewsItc(id, evidence) => ReviewKeeps(t, id, true, evidence);
    case Saves(id, ready, answer) => SaveKeeps(t, id, ready, answer, "");
    case Submits(id, answer) => SubmitKeeps(t, id, answer);
    case RequestsEvc(id, answer) => SubmitKeeps(t, id, answer);
    case Files(id, answer) => FileKeeps(t, id, answer);
    case Verifies(id, answer) => VerifyKeeps(t, id, answer);
  }

  lemma {:induction false} RunKeeps(tables: seq<Table>, events: seq<Event>, n: nat)
    requires IsRun(tables, events) && n <= |events|
    ensures Inv(tables[n])
  {
    hide Step, Possible;
    if n > 0 {
      hide Inv, FiledStay;
      RunKeeps(tables, events, n - 1);
      StepKeeps(tables[n - 1], events[n - 1]);
    }
  }

  // --------------------------------------------------------------- promises

  /** Once filed, a return is never anything but filed, and no handler changes its
      summary, source hash, ITC review or recorded decision. */
  lemma {:induction false} FiledIsFinal(tables: seq<Table>, events: seq<Event>, i: nat, j: nat, id: Id)
    requires IsRun(tables, events) && i <= j <= |events|
    requires id in tables[i] && IsFiled(tables[i][id].status)
    ensures id in tables[j] && Frozen(tables[i][id], tables[j][id])
    decreases j
  {
    hide Step, Possible;
    if i < j {
      FiledIsFinal(tables, events, i, j - 1, id);
      RunKeeps(tables, events, j - 1);
      StepKeeps(tables[j - 1], events[j - 1]);
      assert Frozen(tables[j - 1][id], tables[j][id]);
    }
  }

  /** Every return past DRAFT carries a CA decision made on exactly its current summary,
      and one that is approved, in filing or filed was approved on exactly that summary. */
  lemma DecisionIsOnCurrentSummary(tables: seq<Table>, events: seq<Event>, n: nat, id: Id)
    requires IsRun(tables, events) && n <= |events| && id in tables[n]
    ensures var row := tables[n][id];
            && row.sourceHash == Sha256(row.summary)
            && (row.status != DRAFT ==> row.last.Some? && row.last.value.on == row.summary)
            && (row.status == APPROVED_FOR_FILING || IsInFiling(row.status) || IsFiled(row.status) ==> row.approved == Some(row.summary))
  {
    hide Step, Possible;
    RunKeeps(tables, events, n);
    RowIsFit(tables[n], id);
  }

  /** A GSTR-3B that is approved, in filing or filed has an ITC review on record; the
      review is cleared by a build, so it was made since the last one. */
  lemma ClearedReturnsHaveItcReview(tables: seq<Table>, events: seq<Event>, n: nat, id: Id)
    requires IsRun(tables, events) && n <= |events| && id in tables[n] && tables[n][id].form == GSTR3B
    requires IsCleared(tables[n][id])
    ensures tables[n][id].itc.Some?
  {
    hide Step, Possible;
    RunKeeps(tables, events, n);
    RowIsFit(tables[n], id);
  }

  /** A return verified as filed has an ARN. */
  lemma VerifiedReturnsHaveArn(tables: seq<Table>, events: seq<Event>, n: nat, id: Id)
    requires IsRun(tables, events) && n <= |events| && id in tables[n] && tables[n][id].status == FILED_VERIFIED
    ensures tables[n][id].arn.Some?
  {
    hide Step, Possible;
    RunKeeps(tables, events, n);
    RowIsFit(tables[n], id);
  }

  /** After a build nothing of an earlier review is left on the period's one row. */
  lemma BuildStartsOver(t: Table, form: Form, period: string, summary: string, drawn: Id, id: Id)
    requires Inv(t) && drawn !in t && Build(t, form, period, Some(summary), drawn).1 == Done
    requires IsFor(Build(t, form, period, Some(summary), drawn).0, form, period, id)
    ensures Build(t, form, period, Some(summary), drawn).0[id] == Fresh(form, period, summary)
  {
    forall i | IsFor(t, form, period, i)
      ensures IsFor(t[i := Fresh(form, period, summary)], form, period, id) ==> id == i
    {
      OneRowFor(t, i, form, period, summary, id);
    }
    hide Inv;
    if !exists i :: IsFor(t, form, period, i) {
      assert !IsFor(t, form, period, id);
    }
  }

  lemma OneRowFor(t: Table, i: Id, form: Form, period: string, summary: string, id: Id)
    requires Inv(t) && IsFor(t, form, period, i) && IsFor(t[i := Fresh(form, period, summary)], form, period, id)
    ensures id == i
  {
    hide RowFits;
  }

  // ------------------------------------------------- filed after a rejection

  /** A return the CA rejected is filed by the next request if and only if that request is
      a status check of it, an earlier upload left its reference, and the provider answers
      with an ARN and reports it filed; no other request of any kind can file it. */
  lemma RejectedIsFiledExactly(t: Table, e: Event, id: Id)
    requires Inv(t) && Possible(t, e) && id in t && t[id].status == REVIEW_REJECTED
    ensures id in Step(t, e).0
    ensures IsFiled(Step(t, e).0[id].status)
       <==> (e.Verifies? && e.id == id && t[id].submission.Some? && e.answer.Body? && e.answer.arn.Some? && e.answer.filed)
  {
    hide Inv, RowFits, Build;
    if e.Builds? {
      RowAfter(t, e, id);
    }
  }

  /** What one request can do to one row, by the kind of the request. */
  lemma RowAfter(t: Table, e: Event, id: Id)
    requires Possible(t, e)
    ensures id in t ==> id in Step(t, e).0
    ensures id in Step(t, e).0 && e.Builds? ==>
              || (id in t && Step(t, e).0[id] == t[id])
              || (e.summary.Some? && Step(t, e).0[id] == Fresh(e.form, e.period, e.summary.value))
    ensures id in Step(t, e).0 && !e.Builds? ==> id in t && (e.id != id ==> Step(t, e).0[id] == t[id])
  {
  }

  /** The request at position `k` of the run was answered and met this summary. */
  ghost predicate Met(tables: seq<Table>, events: seq<Event>, k: nat, id: Id, summary: string) {
    && k < |events| < |tables| && Step(tables[k], events[k]).1 == Done
    && id in tables[k] && tables[k][id].summary == summary
  }

  ghost predicate ReviewedAt(tables: seq<Table>, events: seq<Event>, k: nat, id: Id, approve: bool, summary: string) {
    Met(tables, events, k, id, summary) && events[k] == Reviews(id, approve)
  }

  ghost predicate UploadedAt(tables: seq<Table>, events: seq<Event>, k: nat, id: Id, summary: string) {
    Met(tables, events, k, id, summary) && events[k].Saves? && events[k].id == id && events[k].answer.Body?
  }

  ghost predicate ConfirmedAt(tables: seq<Table>, events: seq<Event>, k: nat, id: Id, summary: string) {
    && Met(tables, events, k, id, summary) && events[k].Verifies? && events[k].id == id
    && events[k].answer.Body? && events[k].answer.arn.Some? && events[k].answer.filed
  }

  lemma {:induction false} WasApproved(tables: seq<Table>, events: seq<Event>, n: nat, id: Id) returns (i: nat)
    requires IsRun(tables, events) && n <= |events| && id in tables[n] && tables[n][id].status == APPROVED_FOR_FILING
    ensures i < n && ReviewedAt(tables, events, i, id, true, tables[n][id].summary)
  {
    hide Build;
    if n == 0 {
      assert false;
    } else {
      RowAfter(tables[n - 1], events[n - 1], id);
      if events[n - 1] == Reviews(id, true) && Step(tables[n - 1], events[n - 1]).1 == Done {
        i := n - 1;
      } else {
        i := WasApproved(tables, events, n - 1, id);
      }
    }
  }

  lemma {:induction false} WasUploaded(tables: seq<Table>, events: seq<Event>, n: nat, id: Id) returns (i: nat, j: nat)
    requires IsRun(tables, events) && n <= |events| && id in tables[n]
    requires IsInFiling(tables[n][id].status) || tables[n][id].submission.Some?
    ensures i < j < n
    ensures ReviewedAt(tables, events, i, id, true, tables[n][id].summary)
    ensures UploadedAt(tables, events, j, id, tables[n][id].summary)
  {
    hide Build;
    if n == 0 {
      assert false;
    } else {
      var e := events[n - 1];
      RowAfter(tables[n - 1], e, id);
      if e.Saves? && e.id == id && Step(tables[n - 1], e).1 == Done {
        i := WasApproved(tables, events, n - 1, id);
        j := n - 1;
      } else {
        i, j := WasUploaded(tables, events, n - 1, id);
      }
    }
  }

  lemma {:induction false} WasRejected(
    tables: seq<Table>, events: seq<Event>, n: nat, id: Id) returns (i: nat, j: nat, k: nat)
    requires IsRun(tables, events) && n <= |events| && id in tables[n]
    requires tables[n][id].status == REVIEW_REJECTED && tables[n][id].submission.Some?
    ensures i < j < k < n
    ensures ReviewedAt(tables, events, i, id, true, tables[n][id].summary)
    ensures UploadedAt(tables, events, j, id, tables[n][id].summary)
    ensures ReviewedAt(tables, events, k, id, false, tables[n][id].summary)
  {
    hide Build;
    if n == 0 {
      assert false;
    } else {
      RowAfter(tables[n - 1], events[n - 1], id);
      if events[n - 1] == Reviews(id, false) && Step(tables[n - 1], events[n - 1]).1 == Done {
        i, j := WasUploaded(tables, events, n - 1, id);
        k := n - 1;
      } else {
        i, j, k := WasRejected(tables, events, n - 1, id);
      }
    }
  }

  /** The step that files a return whose last decision is a REJECT. */
  lemma RejectedBefore(t: Table, e: Event, id: Id)
    requires Inv(t) && Possible(t, e) && id in Step(t, e).0 && (id in t ==> !IsFiled(t[id].status))
    requires IsFiled(Step(t, e).0[id].status)
    requires Step(t, e).0[id].last.Some? && !Step(t, e).0[id].last.value.approve
    ensures id in t && t[id].status == REVIEW_REJECTED && Step(t, e).0[id].summary == t[id].summary && Step(t, e).1 == Done
  {
    RowAfter(t, e, id);
    if id in t { RowIsFit(t, id); }
    hide Inv, Build;
  }

  /** How a filed return came to carry a REJECT as its last decision: on one and the same
      summary it was approved, uploaded, rejected and then confirmed, in this order. */
  lemma {:induction false} FiledRejectWasUploaded(tables: seq<Table>, events: seq<Event>, n: nat, id: Id)
    returns (i: nat, j: nat, k: nat, l: nat)
    requires IsRun(tables, events) && n <= |events| && id in tables[n] && IsFiled(tables[n][id].status)
    requires tables[n][id].last.Some? && !tables[n][id].last.value.approve
    ensures i < j < k < l < n
    ensures ReviewedAt(tables, events, i, id, true, tables[n][id].summary)
    ensures UploadedAt(tables, events, j, id, tables[n][id].summary)
    ensures ReviewedAt(tables, events, k, id, false, tables[n][id].summary)
    ensures ConfirmedAt(tables, events, l, id, tables[n][id].summary)
  {
    hide IsRun, Step, Possible, Inv, ReviewedAt, UploadedAt;
    RunStart(tables, events);
    if n > 0 {
      RunKeeps(tables, events, n - 1);
      RunStep(tables, events, n - 1);
      var t, e := tables[n - 1], events[n - 1];
      if id in t && IsFiled(t[id].status) {
        StepKeeps(t, e);
        assert Frozen(t[id], tables[n][id]);
        i, j, k, l := FiledRejectWasUploaded(tables, events, n - 1, id);
      } else {
        RejectedBefore(t, e, id);
        RejectedIsFiledExactly(t, e, id);
        i, j, k := WasRejected(tables, events, n - 1, id);
        l := n - 1;
      }
    }
  }

  lemma RunStart(tables: seq<Table>, events: seq<Event>)
    requires IsRun(tables, events)
    ensures |tables| == |events| + 1 && tables[0] == map[]
  {
    hide Step;
  }

  lemma RunStep(tables: seq<Table>, events: seq<Event>, k: nat)
    requires IsRun(tables, events) && k < |events|
    ensures |tables| == |events| + 1 && Possible(tables[k], events[k]) && tables[k + 1] == Step(tables[k], events[k]).0
  {
    hide Step;
  }

  /** So a filed return may carry a REJECT as its last decision, in a run. */
  lemma FiledMayBeRejected() returns (tables: seq<Table>, events: seq<Event>)
    ensures IsRun(tables, events) && |events| == 5 && "r" in tables[5]
    ensures tables[5]["r"].status == FILED_VERIFIED && tables[5]["r"].last == Some(Decision(false, "s"))
  {
    var uploaded := Body(Some("ref"), None, false);
    var filed := Body(None, Some("arn"), true);
    var built := Fresh(GSTR1, "2024-04", "s");
    var approved := built.(status := APPROVED_FOR_FILING, reviewed := true, last := Some(Decision(true, "s")), approved := Some("s"));
    var saved := approved.(status := GSP_SAVED, submission := Some("ref"));
    var rejected := saved.(status := REVIEW_REJECTED, last := Some(Decision(false, "s")));
    events := [Builds(GSTR1, "2024-04", Some("s"), "r"), Reviews("r", true), Saves("r", true, uploaded), Reviews("r", false), Verifies("r", filed)];
    tables := [map[], map["r" := built], map["r" := approved], map["r" := saved], map["r" := rejected],
               map["r" := rejected.(status := FILED_VERIFIED, arn := Some("arn"))]];
    assert !exists id :: IsFor(map[], GSTR1, "2024-04", id);
    assert Step(tables[0], events[0]).0 == tables[1];
    assert Step(tables[1], events[1]).0 == tables[2];
    assert Step(tables[2], events[2]).0 == tables[3];
    assert Step(tables[3], events[3]).0 == tables[4];
    assert Step(tables[4], events[4]).0 == tables[5];
    assert |events| == 5 && |tables| == 6;
  }
}
