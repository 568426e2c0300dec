/** A run in which a second scan of a used code takes the way back to the lost reply. */
module IdentityRescanRun {
  import opened IdentityModel
  import opened IdentityInvariants
  import opened IdentityProtocol
  import opened IdentitySafety
  import opened AuthenticatorClient
  import opened IdentityRescan

  const BROWSER := Claims("u", "s", OFFICE, 100)
  const PASSWORD_ONLY := Session("u", Sha256("r"), ACTIVE, AAL1, OFFICE, 0, 3600)
  const PHONE := Approval("u", "ss", Sha256("xx"), Sha256("yy"), Trusted, 2592001, Some(2592001))
  const CODE := Qr("u", "s", Sha256("xxxxx"), Sha256("yyyyy"), QrPending, None, 61)
  const ASKED := Activation("u", "ss", "ss", Sha256("xxx"), Live, 301)
  const SCAN := QrScan(Some(ACCESS), Device("ss", "xx"), "sssss", "yyyyy")

  /** One user with a browser session and a trusted phone. */
  function Scene(browser: Session, enrolled: bool, qrs: map<Id, Qr>, activations: map<Id, Activation>, log: seq<Fact>): State {
    State(map["s" := browser, "ss" := REVIEWED], map["ss" := PHONE], qrs, activations, map["u" := User(enrolled, None)], log)
  }

  ghost predicate Reached(worlds: seq<World>, events: seq<Event>, n: nat, s: State) {
    && IsRun(SETTINGS, worlds, events) && |events| == n && |worlds| == n + 1
    && worlds[n].db == s && worlds[n].clock == 1 && ShortNames(worlds[n], n + 1)
  }

  /** The next request of a run, with drawn names longer than all before. */
  lemma Extend(worlds: seq<World>, events: seq<Event>, n: nat, s: State, e: Event, t: State)
    returns (later: seq<World>, more: seq<Event>)
    requires Reached(worlds, events, n, s) && e.ctx.now == 1 && LongMint(e.mint, n + 1)
    requires Step(SETTINGS, s, e).0 == t
    requires t.sessions.Keys == s.sessions.Keys && t.approvals.Keys == s.approvals.Keys
    requires t.qrs.Keys <= s.qrs.Keys + {e.mint.id} && t.activations.Keys <= s.activations.Keys + {e.mint.id}
    ensures Reached(later, more, n + 1, t) && more == events + [e] && worlds <= later
  {
    hide IsRun, Step;
    FreshByLength(worlds[n], e, n + 1);
    LongerRun(SETTINGS, worlds, events, e);
    later, more := worlds + [Next(SETTINGS, worlds[n], e)], events + [e];
  }

  lemma AsksActivation(log: seq<Fact>, e: Event)
    requires e.ctx == Ctx(1, true, true, false) && e.mint.id == "sss" && e.mint.first == "xxx"
    requires e.request == AskActivation(Some(ACCESS))
    ensures Step(SETTINGS, Scene(PASSWORD_ONLY, false, map[], map[], log), e).0
         == Scene(PASSWORD_ONLY, false, map[], map["sss" := ASKED], log)
  {
    assert OwnTrustedDevice(Scene(PASSWORD_ONLY, false, map[], map[], log), "ss", "u", "ss");
  }

  lemma ClaimsActivation(log: seq<Fact>, e: Event)
    requires e.ctx == Ctx(1, true, true, false) && e.request == Claim("sss", "xxx")
    ensures Step(SETTINGS, Scene(PASSWORD_ONLY, false, map[], map["sss" := ASKED], log), e).0
         == Scene(PASSWORD_ONLY, true, map[], map["sss" := ASKED.(status := Claimed)], log + [FactorRotated("u", "sss")])
  {
  }

  lemma StartsCode(activations: map<Id, Activation>, log: seq<Fact>, e: Event)
    requires e.ctx == Ctx(1, true, true, false) && e.request == StartQr(Some(BROWSER))
    requires e.mint.id == "sssss" && e.mint.first == "xxxxx" && e.mint.second == "yyyyy"
    ensures Step(SETTINGS, Scene(PASSWORD_ONLY, true, map[], activations, log), e).0
         == Scene(PASSWORD_ONLY, true, map["sssss" := CODE], activations, log)
  {
  }

  /** The code once the phone has scanned it. */
  function CodeIn(status: QrStatus): Qr { CODE.(status := status, scannedBy := Some("ss")) }

  lemma ScansCode(activations: map<Id, Activation>, log: seq<Fact>, e: Event)
    requires e.ctx == Ctx(1, true, true, false) && e.request == SCAN
    ensures Step(SETTINGS, Scene(PASSWORD_ONLY, true, map["sssss" := CODE], activations, log), e).0
         == Scene(PASSWORD_ONLY, true, map["sssss" := CodeIn(QrScanned)], activations, log + [Scanned("sssss", "s", "ss")])
  {
  }

  lemma ApprovesCode(activations: map<Id, Activation>, log: seq<Fact>, e: Event)
    requires e.ctx == Ctx(1, true, true, false) && e.request == QrDecide(Some(ACCESS), Device("ss", "xx"), "sssss", true)
    ensures Step(SETTINGS, Scene(PASSWORD_ONLY, true, map["sssss" := CodeIn(QrScanned)], activations, log), e).0
         == Scene(PASSWORD_ONLY, true, map["sssss" := CodeIn(QrApproved)], activations, log + [Approved("sssss", "s", "ss")])
  {
  }

  lemma CompletesRow(s: State, x: Ctx, q: Id, proof: Token)
    requires HoldsBrowserProof(s, q, proof) && s.qrs[q].status == QrApproved && Waiting(s, q) && s.qrs[q].user in s.users
    requires x.active && x.roles
    ensures var row := s.qrs[q];
            CompleteQr(s, x, q, proof)
            == (Log(WithSession(SetQr(s, q, QrConsumed), row.session, s.sessions[row.session].(aal := AAL2)),
                    Completed(q, row.session)),
                Accepted)
  {
  }

  lemma CompletesCode(activations: map<Id, Activation>, log: seq<Fact>, e: Event)
    requires e.ctx == Ctx(1, true, true, false) && e.request == QrComplete("sssss", "xxxxx")
    ensures Step(SETTINGS, Scene(PASSWORD_ONLY, true, map["sssss" := CodeIn(QrApproved)], activations, log), e)
         == (Scene(PASSWORD_ONLY.(aal := AAL2), true, map["sssss" := CodeIn(QrConsumed)], activations,
                   log + [Completed("sssss", "s")]),
             Accepted)
  {
    hide Step, CompleteQr;
    var s := Scene(PASSWORD_ONLY, true, map["sssss" := CodeIn(QrApproved)], activations, log);
    var t := Scene(PASSWORD_ONLY.(aal := AAL2), true, map["sssss" := CodeIn(QrConsumed)], activations, log);
    CompleteStep(s, e);
    CompletesRow(s, e.ctx, "sssss", "xxxxx");
    assert s.sessions["s" := PASSWORD_ONLY.(aal := AAL2)] == t.sessions;
    assert s.qrs["sssss" := CodeIn(QrConsumed)] == t.qrs;
  }

  lemma ScansAgain(activations: map<Id, Activation>, log: seq<Fact>, e: Event)
    requires e.ctx == Ctx(1, true, true, false) && e.request == SCAN
    ensures var s := Scene(PASSWORD_ONLY.(aal := AAL2), true, map["sssss" := CodeIn(QrConsumed)], activations, log);
            && Scans(s, e, "sssss")
            && Step(SETTINGS, s, e).0
               == Scene(PASSWORD_ONLY.(aal := AAL2), true, map["sssss" := CodeIn(QrRevoked)], activations, log)
  {
  }

  lemma ReviewedRun() returns (worlds: seq<World>, events: seq<Event>, log: seq<Fact>)
    ensures Reached(worlds, events, 2, Scene(PASSWORD_ONLY, false, map[], map[], log))
  {
    hide IsRun, Step;
    worlds, events := ReviewerRun();
    log := worlds[2].db.log;
    assert worlds[2].db.sessions == map["s" := PASSWORD_ONLY, "ss" := REVIEWED];
    assert worlds[2].db.approvals == map["ss" := PHONE];
  }

  /** The phone gets its authenticator seed, so the user is enrolled. */
  lemma EnrolledRun() returns (worlds: seq<World>, events: seq<Event>, log: seq<Fact>)
    ensures Reached(worlds, events, 4, Scene(PASSWORD_ONLY, true, map[], map["sss" := ASKED.(status := Claimed)], log))
  {
    hide Step, Reached;
    worlds, events, log := ReviewedRun();
    var s := Scene(PASSWORD_ONLY, false, map[], map[], log);
    var t := Scene(PASSWORD_ONLY, false, map[], map["sss" := ASKED], log);
    var e := At(1, "sss", "rrr", "xxx", "yyy", AskActivation(Some(ACCESS)));
    AsksActivation(log, e);
    worlds, events := Extend(worlds, events, 2, s, e, t);
    e := At(1, "ssss", "rrrr", "xxxx", "yyyy", Claim("sss", "xxx"));
    ClaimsActivation(log, e);
    log := log + [FactorRotated("u", "sss")];
    worlds, events := Extend(worlds, events, 3, t, e, Scene(PASSWORD_ONLY, true, map[], map["sss" := ASKED.(status := Claimed)], log));
  }

  /** The browser shows a code and the phone scans and accepts it. */
  lemma ApprovedRun() returns (worlds: seq<World>, events: seq<Event>, log: seq<Fact>)
    ensures Reached(worlds, events, 7, Scene(PASSWORD_ONLY, true, map["sssss" := CodeIn(QrApproved)],
                                             map["sss" := ASKED.(status := Claimed)], log))
  {
    hide Step, Reached;
    var used := map["sss" := ASKED.(status := Claimed)];
    worlds, events, log := EnrolledRun();
    var s := Scene(PASSWORD_ONLY, true, map[], used, log);
    var t := Scene(PASSWORD_ONLY, true, map["sssss" := CODE], used, log);
    var e := At(1, "sssss", "rrrrr", "xxxxx", "yyyyy", StartQr(Some(BROWSER)));
    StartsCode(used, log, e);
    worlds, events := Extend(worlds, events, 4, s, e, t);
    s, t := t, Scene(PASSWORD_ONLY, true, map["sssss" := CodeIn(QrScanned)], used, log + [Scanned("sssss", "s", "ss")]);
    e := At(1, "ssssss", "rrrrrr", "xxxxxx", "yyyyyy", SCAN);
    ScansCode(used, log, e);
    log := t.log;
    worlds, events := Extend(worlds, events, 5, s, e, t);
    s, t := t, Scene(PASSWORD_ONLY, true, map["sssss" := CodeIn(QrApproved)], used, log + [Approved("sssss", "s", "ss")]);
    e := At(1, "sssssss", "rrrrrrr", "xxxxxxx", "yyyyyyy", QrDecide(Some(ACCESS), Device("ss", "xx"), "sssss", true));
    ApprovesCode(used, log, e);
    log := t.log;
    worlds, events := Extend(worlds, events, 6, s, e, t);
  }

  /** The browser session is raised. */
  lemma CompletedRun() returns (worlds: seq<World>, events: seq<Event>, log: seq<Fact>)
    ensures Reached(worlds, events, 8, Scene(PASSWORD_ONLY.(aal := AAL2), true, map["sssss" := CodeIn(QrConsumed)],
                                             map["sss" := ASKED.(status := Claimed)], log))
    ensures events[7].request == QrComplete("sssss", "xxxxx") && Step(SETTINGS, worlds[7].db, events[7]).1 == Accepted
  {
    hide IsRun, Step, ShortNames;
    var used := map["sss" := ASKED.(status := Claimed)];
    worlds, events, log := ApprovedRun();
    var s := Scene(PASSWORD_ONLY, true, map["sssss" := CodeIn(QrApproved)], used, log);
    var t := Scene(PASSWORD_ONLY.(aal := AAL2), true, map["sssss" := CodeIn(QrConsumed)], used, log + [Completed("sssss", "s")]);
    var e := At(1, "ssssssss", "rrrrrrrr", "xxxxxxxx", "yyyyyyyy", QrComplete("sssss", "xxxxx"));
    CompletesCode(used, log, e);
    log := t.log;
    worlds, events := Extend(worlds, events, 7, s, e, t);
  }

  /** The browser completes at step 7 and loses the reply; the phone scans the used code
      again at step 8; the browser's second attempt is refused while its session is ACTIVE
      at aal2. */
  lemma RescanWitness() returns (worlds: seq<World>, events: seq<Event>)
    ensures IsRun(SETTINGS, worlds, events) && |events| == 10 && |worlds| == 11
    ensures events[7].request == events[9].request == QrComplete("sssss", "xxxxx")
    ensures Step(SETTINGS, worlds[7].db, events[7]).1 == Accepted && Scans(worlds[8].db, events[8], "sssss")
    ensures Step(SETTINGS, worlds[9].db, events[9]).1.Refused?
    ensures "s" in worlds[9].db.sessions && worlds[9].db.sessions["s"].status == ACTIVE && worlds[9].db.sessions["s"].aal == AAL2
  {
    hide IsRun, Step, ShortNames;
    var used := map["sss" := ASKED.(status := Claimed)];
    var log;
    worlds, events, log := CompletedRun();
    var s := Scene(PASSWORD_ONLY.(aal := AAL2), true, map["sssss" := CodeIn(QrConsumed)], used, log);
    var t := Scene(PASSWORD_ONLY.(aal := AAL2), true, map["sssss" := CodeIn(QrRevoked)], used, log);
    var e := At(1, "sssssssss", "rrrrrrrrr", "xxxxxxxxx", "yyyyyyyyy", SCAN);
    ScansAgain(used, log, e);
    worlds, events := Extend(worlds, events, 8, s, e, t);
    e := At(1, "ssssssssss", "rrrrrrrrrr", "xxxxxxxxxx", "yyyyyyyyyy", QrComplete("sssss", "xxxxx"));
    ConsumedAnswers(t, e.ctx, "sssss", "xxxxx");
    CompleteStep(t, e);
    worlds, events := Extend(worlds, events, 9, t, e, t);
    hide Scans, CompleteQr;
    QrCompletionIsRetrySafe(SETTINGS, worlds, events, "sssss", "xxxxx", 7, 9);
  }

  lemma CompleteStep(s: State, e: Event)
    requires e.request.QrComplete?
    ensures Step(SETTINGS, s, e) == CompleteQr(s, e.ctx, e.request.qr, e.request.proof)
  {
    hide CompleteQr;
  }
}
