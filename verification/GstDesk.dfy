/** The return handlers as they run: the row is fetched and its fields assigned
    (Backend/backend/gst_compliance.py, Backend/backend/gst_gsp_fynamics.py). A desk that
    serves requests goes through a run of GstReturns, so all that is proved there of runs
    holds of it. */
module GstDesk {
  import opened GstReturns

  class Desk {
    var rows: Table
    ghost var tables: seq<Table>
    ghost var events: seq<Event>

    constructor ()
      ensures Valid() && events == []
    {
      rows, tables, events := map[], [map[]], [];
    }

    /** What was served so far is a run that ends in these rows. */
    ghost predicate Valid()
      reads this
    {
      IsRun(tables, events) && tables[|events|] == rows
    }

    /** One working per form and period. */
    ghost predicate OnePerPeriod()
      reads this
    {
      forall i, j :: i in rows && j in rows && rows[i].form == rows[j].form && rows[i].period == rows[j].period ==> i == j
    }

    method BuildReturn(form: Form, period: string, summary: Option<string>, drawn: Id) returns (r: Reply)
      requires OnePerPeriod()
      modifies this`rows
      ensures (rows, r) == Build(old(rows), form, period, summary, drawn)
    {
      if summary.None? { return Refused(422); }
      var found := set id | id in rows && rows[id].form == form && rows[id].period == period;
      assert forall id :: id in found <==> IsFor(rows, form, period, id);
      if found == {} {
        rows := rows[drawn := Working(form, period, DRAFT, Sha256(summary.value), summary.value, false, None, None, None, None, None)];
        return Done;
      }
      var id :| id in found;
      assert forall other :: IsFor(rows, form, period, other) ==> other == id;
      if IsFiled(rows[id].status) { return Refused(409); }
      rows := rows[id := rows[id].(
        status := DRAFT, sourceHash := Sha256(summary.value), summary := summary.value, reviewed := false,
        itc := None, arn := None, submission := None, last := None, approved := None)];
      return Done;
    }

    method ReviewReturn(id: Id, approve: bool) returns (r: Reply)
      modifies this`rows
      ensures (rows, r) == Review(old(rows), id, approve)
    {
      if id !in rows { return Refused(404); }
      if IsFiled(rows[id].status) { return Refused(409); }
      if approve && rows[id].form == GSTR3B && rows[id].itc.None? { return Refused(409); }
      var row := rows[id].(reviewed := true, last := Some(Decision(approve, rows[id].summary)));
      if approve {
        row := row.(status := APPROVED_FOR_FILING, approved := Some(row.summary));
      } else {
        row := row.(status := REVIEW_REJECTED);
      }
      rows := rows[id := row];
      return Done;
    }

    method RecordFilingEvidence(id: Id, arn: string) returns (r: Reply)
      modifies this`rows
      ensures (rows, r) == RecordEvidence(old(rows), id, arn)
    {
      if id !in rows { return Refused(404); }
      if rows[id].status != APPROVED_FOR_FILING { return Refused(409); }
      rows := rows[id := rows[id].(status := FILED_EVIDENCE_RECORDED, arn := Some(arn))];
      return Done;
    }

    method ReviewItcClaim(id: Id, evidence: string) returns (r: Reply)
      modifies this`rows
      ensures (rows, r) == ReviewItc(old(rows), id, evidence)
    {
      if id !in rows { return Refused(404); }
      if rows[id].form != GSTR3B { return Refused(409); }
      if IsFiled(rows[id].status) { return Refused(409); }
      rows := rows[id := rows[id].(itc := Some(evidence))];
      return Done;
    }

    method SaveReturn(id: Id, ready: bool, a: Answer) returns (r: Reply)
      modifies this`rows
      ensures (rows, r) == Save(old(rows), id, ready, a)
    {
      if id !in rows { return Refused(404); }
      if rows[id].status != APPROVED_FOR_FILING || !ready { return Refused(409); }
      if rows[id].form == GSTR3B && rows[id].itc.None? { return Refused(409); }
      if a.NoAnswer? { return Refused(502); }
      rows := rows[id := rows[id].(status := GSP_SAVED, submission := a.reference)];
      return Done;
    }

    method SubmitReturn(id: Id, a: Answer) returns (r: Reply)
      modifies this`rows
      ensures (rows, r) == Submit(old(rows), id, a)
    {
      if id !in rows { return Refused(404); }
      if rows[id].form != GSTR1 || rows[id].status != GSP_SAVED { return Refused(409); }
      if a.NoAnswer? { return Refused(502); }
      var reference := Or(a.reference, rows[id].submission);
      rows := rows[id := rows[id].(status := GSP_SUBMITTED, submission := reference)];
      return Done;
    }

    method RequestEvcCode(id: Id, a: Answer) returns (r: Reply)
      modifies this`rows
      ensures (rows, r) == RequestEvc(old(rows), id, a)
    {
      if id !in rows { return Refused(404); }
      var allowed := if rows[id].form == GSTR1 then GSP_SUBMITTED else GSP_SAVED;
      if rows[id].status != allowed { return Refused(409); }
      if a.NoAnswer? { return Refused(502); }
      rows := rows[id := rows[id].(status := EVC_REQUESTED)];
      return Done;
    }

    method FileReturn(id: Id, a: Answer) returns (r: Reply)
      modifies this`rows
      ensures (rows, r) == File(old(rows), id, a)
    {
      if id !in rows { return Refused(404); }
      if rows[id].status != EVC_REQUESTED { return Refused(409); }
      if a.NoAnswer? { return Refused(502); }
      var row := rows[id].(status := GSP_FILE_REQUESTED, submission := Or(a.reference, rows[id].submission));
      if a.arn.Some? && a.filed {
        row := row.(status := FILED_VERIFIED, arn := a.arn);
      }
      rows := rows[id := row];
      return Done;
    }

    method VerifyReturn(id: Id, a: Answer) returns (r: Reply)
      modifies this`rows
      ensures (rows, r) == Verify(old(rows), id, a)
    {
      if id !in rows { return Refused(404); }
      if rows[id].submission.None? { return Refused(409); }
      if a.NoAnswer? { return Refused(502); }
      var row := rows[id];
      if a.arn.Some? && a.filed {
        row := row.(status := FILED_VERIFIED, arn := a.arn);
      }
      rows := rows[id := row];
      return Done;
    }

    method Dispatch(e: Event) returns (r: Reply)
      requires OnePerPeriod()
      modifies this`rows
      ensures (rows, r) == Step(old(rows), e)
    {
      hide Build, Review, RecordEvidence, ReviewItc, Save, Submit, RequestEvc, File, Verify;
      match e {
        case Builds(form, period, summary, drawn) => r := BuildReturn(form, period, summary, drawn);
        case Reviews(id, approve) => r := ReviewReturn(id, approve);
        case RecordsEvidence(id, arn) => r := RecordFilingEvidence(id, arn);
        case ReviewsItc(id, evidence) => r := ReviewItcClaim(id, evidence);
        case Saves(id, ready, answer) => r := SaveReturn(id, ready, answer);
        case Submits(id, answer) => r := SubmitReturn(id, answer);
        case RequestsEvc(id, answer) => r := RequestEvcCode(id, answer);
        case Files(id, answer) => r := FileReturn(id, answer);
        case Verifies(id, answer) => r := VerifyReturn(id, answer);
      }
    }

    /** One request of any kind: the desk stays on a run, keeps the row invariant and
        never touches what was filed. */
    method Serve(e: Event) returns (r: Reply)
      requires Valid() && Possible(rows, e)
      modifies this
      ensures Valid() && events == old(events) + [e] && tables == old(tables) + [rows]
      ensures r == Step(old(rows), e).1
      ensures Inv(rows) && FiledStay(old(rows), rows)
    {
      hide Step, Possible, RowFits, FiledStay;
      RunKeeps(tables, events, |events|);
      StepKeeps(rows, e);
      LongerRun(tables, events, e);
      hide Inv, IsRun;
      r := Dispatch(e);
      tables, events := tables + [rows], events + [e];
    }
  }

  lemma LongerRun(tables: seq<Table>, events: seq<Event>, e: Event)
    requires IsRun(tables, events) && Possible(tables[|events|], e)
    ensures IsRun(tables + [Step(tables[|events|], e).0], events + [e])
  {
    hide Step, Possible;
  }
}
