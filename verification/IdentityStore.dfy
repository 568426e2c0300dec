/** The handlers as they run: rows fetched, fields assigned, related rows looped over
    (Backend/backend/identity_auth.py). Every method ends in the state and the reply
    that IdentityModel states for it. A store that serves requests goes through a run of
    IdentityProtocol, so all that is proved of runs holds of it. */
module IdentityStore {
  import opened IdentityModel
  import opened IdentityInvariants
  import opened IdentityLoops
  import opened IdentityProtocol
  import opened IdentitySteps
  import opened IdentitySafety
  import opened IdentityOnce

  /** Whether a device is known does not depend on the session being opened. */
  lemma KnownIgnoresSessions(s: State, t: State, user: Id, d: DeviceClaim, now: Time)
    requires t.approvals == s.approvals
    ensures KnownDevice(t, user, d, now) == KnownDevice(s, user, d, now)
  {
  }

  lemma ScannerIsDevice(s: State, x: Ctx, claims: Option<Claims>, device: DeviceClaim)
    ensures ScannerRefusal(s, x, claims, device).None? ==> claims.Some? && device.Device?
  {
    hide MayLogIn;
  }

  /** Replacing other devices leaves the held session and its approval alone. */
  lemma HeldUntouched(s: State, user: Id, approval: Id, now: Time, session: Id)
    requires approval in s.approvals && session in s.sessions && s.sessions[session].status == PENDING_DEVICE_APPROVAL
    ensures var mid := ReplaceDevices(s, user, approval, now);
            && session in mid.sessions && mid.sessions[session] == s.sessions[session]
            && approval in mid.approvals && mid.approvals[approval] == s.approvals[approval]
  {
  }

  predicate IsAboutDevices(q: Request) {
    || q.DeviceReview? || q.DeviceDecide? || q.DeviceStatusOf? || q.DeviceRevoke? || q.DeviceComplete?
    || q.AskActivation? || q.Claim?
  }

  predicate IsAboutFactor(q: Request) {
    || q.StartQr? || q.QrStatusOf? || q.QrCancel? || q.QrScan? || q.QrDecide? || q.QrComplete?
    || q.Totp? || q.VerifyEmailCode?
  }

  class Store {
    const config: Config
    var sessions: map<Id, Session>
    var approvals: map<Id, Approval>
    var qrs: map<Id, Qr>
    var activations: map<Id, Activation>
    var users: map<Id, User>
    var log: seq<Fact>
    ghost var worlds: seq<World>
    ghost var events: seq<Event>

    constructor (config: Config)
      requires ValidConfig(config)
      ensures this.config == config
      ensures Valid() && events == []
    {
      this.config := config;
      sessions, approvals, qrs, activations, users, log := map[], map[], map[], map[], map[], [];
      worlds, events := [EMPTY], [];
    }

    /** What was served so far is a run that ends in these tables. */
    ghost predicate Valid()
      reads this
    {
      IsRun(config, worlds, events) && worlds[|events|].db == Db()
    }

    /** The tables as one value. */
    function Db(): State
      reads this
    {
      State(sessions, approvals, qrs, activations, users, log)
    }

    /** `office_auth_sessions_v2.refresh_token_hash` is unique. */
    ghost predicate UniqueRefreshHash()
      reads this
    {
      forall i, j :: i in sessions && j in sessions && sessions[i].refreshHash == sessions[j].refreshHash ==> i == j
    }

    // ---------------------------------------------------- loops over rows

    /** `for session in sessions: session.status = "REVOKED"`. */
    method RevokeActiveSessions(user: Id, spare: Option<Id>)
      modifies this`sessions
      ensures sessions == RevokeActive(old(sessions), user, spare)
    {
      var rows := set id | id in sessions && sessions[id].user == user && sessions[id].status == ACTIVE && spare != Some(id);
      ghost var before, after := sessions, RevokeActive(sessions, user, spare);
      ghost var chosen := rows;
      assert Midway(before, sessions, after, rows);
      assert forall id :: id in chosen ==> after[id] == Revoked(before[id]);
      hide Midway, RevokeActive;
      while rows != {}
        invariant rows <= chosen && Midway(before, sessions, after, rows)
        decreases rows
      {
        var id :| id in rows;
        OneRow(before, sessions, after, rows, id);
        sessions := sessions[id := sessions[id].(status := REVOKED)];
        rows := rows - {id};
      }
      AllRows(before, sessions, after);
    }

    /** `_cancel_live_authenticator_activations`. */
    method CancelLiveActivations(user: Id, session: Option<Id>, device: Option<Id>)
      modifies this`activations
      ensures activations == CancelLive(old(activations), user, session, device)
    {
      var rows := set id | id in activations && activations[id].user == user && activations[id].status == Live
                           && Selects(session, activations[id].session) && Selects(device, activations[id].device);
      ghost var before, after := activations, CancelLive(activations, user, session, device);
      ghost var chosen := rows;
      hide Selects;
      assert Midway(before, activations, after, rows);
      assert forall id :: id in chosen ==> after[id] == before[id].(status := Cancelled);
      hide Midway, CancelLive;
      while rows != {}
        invariant rows <= chosen && Midway(before, activations, after, rows)
        decreases rows
      {
        var id :| id in rows;
        OneRow(before, activations, after, rows, id);
        activations := activations[id := activations[id].(status := Cancelled)];
        rows := rows - {id};
      }
      AllRows(before, activations, after);
    }

    /** The loop over `replaced` in `/device-approvals/complete`. */
    method ReplaceOtherDevices(user: Id, spare: Id, now: Time)
      modifies this`sessions, this`approvals, this`activations
      ensures Db() == ReplaceDevices(old(Db()), user, spare, now)
    {
      var rows := set a | a in approvals && IsReplaced(approvals, user, Some(spare), a);
      ghost var chosen, done := rows, {};
      ghost var before, was, live := approvals, sessions, activations;
      ghost var after := RevokeTrusted(approvals, user, Some(spare), now);
      assert Midway(before, approvals, after, rows);
      assert forall a :: a in chosen ==> after[a] == before[a].(status := ApprovalRevoked, trustedUntil := Some(now));
      assert SessionsAfter(before, was, sessions, {});
      assert ActivationsAfter(before, live, activations, user, {}, true);
      hide Midway, RevokeTrusted, SessionsAfter, ActivationsAfter, CancelLive, IsReplaced;
      while rows != {}
        invariant rows <= chosen && chosen == rows + done && chosen <= before.Keys
        invariant Midway(before, approvals, after, rows)
        invariant SessionsAfter(before, was, sessions, done)
        invariant ActivationsAfter(before, live, activations, user, done, true)
        decreases rows
      {
        var prior :| prior in rows;
        OneRow(before, approvals, after, rows, prior);
        OneMoreSession(before, was, sessions, done, prior);
        OneMoreDevice(before, live, activations, user, done, true, prior);
        approvals := approvals[prior := approvals[prior].(status := ApprovalRevoked, trustedUntil := Some(now))];
        var session := approvals[prior].session;
        if session in sessions && sessions[session].status == ACTIVE {
          sessions := sessions[session := Revoked(sessions[session])];
        }
        CancelLiveActivations(user, Some(session), Some(prior));
        rows := rows - {prior};
        done := done + {prior};
      }
      assert done == chosen;
      AllRows(before, approvals, after);
      AllSessions(before, was, sessions, user, Some(spare), done);
      AllDevices(before, live, activations, user, Some(spare), done, true);
    }

    /** The loop over previous devices in `_create_play_reviewer_device`. */
    method RevokePreviousDevices(user: Id, now: Time)
      modifies this`approvals, this`activations
      ensures approvals == RevokeTrusted(old(approvals), user, None, now)
      ensures activations == CancelReplaced(old(approvals), old(activations), user, None, false)
    {
      var rows := set a | a in approvals && IsReplaced(approvals, user, None, a);
      ghost var chosen, done := rows, {};
      ghost var before, live := approvals, activations;
      ghost var after := RevokeTrusted(approvals, user, None, now);
      assert Midway(before, approvals, after, rows);
      assert forall a :: a in chosen ==> after[a] == before[a].(status := ApprovalRevoked, trustedUntil := Some(now));
      assert ActivationsAfter(before, live, activations, user, {}, false);
      hide Midway, RevokeTrusted, ActivationsAfter, CancelLive, IsReplaced;
      while rows != {}
        invariant rows <= chosen && chosen == rows + done && chosen <= before.Keys
        invariant Midway(before, approvals, after, rows)
        invariant ActivationsAfter(before, live, activations, user, done, false)
        decreases rows
      {
        var previous :| previous in rows;
        OneRow(before, approvals, after, rows, previous);
        OneMoreDevice(before, live, activations, user, done, false, previous);
        approvals := approvals[previous := approvals[previous].(status := ApprovalRevoked, trustedUntil := Some(now))];
        CancelLiveActivations(user, None, Some(previous));
        rows := rows - {previous};
        done := done + {previous};
      }
      assert done == chosen;
      AllRows(before, approvals, after);
      AllDevices(before, live, activations, user, None, done, false);
    }

    /** `item.status = "REVOKED"` for every open request of the session. */
    method RevokeOpenQrs(session: Id)
      modifies this`qrs
      ensures qrs == map id | id in old(qrs) ::
                if OpenQr(old(Db()), session, id) then old(qrs)[id].(status := QrRevoked) else old(qrs)[id]
    {
      ghost var db := Db();
      var rows := set id | id in qrs && qrs[id].session == session && (qrs[id].status == QrPending || qrs[id].status == QrScanned);
      ghost var before := qrs;
      ghost var after := map id | id in qrs :: if OpenQr(db, session, id) then qrs[id].(status := QrRevoked) else qrs[id];
      ghost var chosen := rows;
      assert Midway(before, qrs, after, rows);
      assert forall id :: id in chosen ==> after[id] == before[id].(status := QrRevoked);
      hide Midway, OpenQr;
      while rows != {}
        invariant rows <= chosen && Midway(before, qrs, after, rows)
        decreases rows
      {
        var id :| id in rows;
        OneRow(before, qrs, after, rows, id);
        qrs := qrs[id := qrs[id].(status := QrRevoked)];
        rows := rows - {id};
      }
      AllRows(before, qrs, after);
    }

    // ------------------------------------------------------------ sign-in

    method SignIn(x: Ctx, user: Id, accepted: bool, session: Id, refresh: Token) returns (r: Reply)
      modifies this`sessions
      ensures (Db(), r) == IdentityModel.SignIn(config, old(Db()), x, user, accepted, session, refresh)
    {
      if user !in users || !accepted { return Refused(401); }
      if !MayLogIn(x) || x.reviewer { return Refused(403); }
      sessions := sessions[session := Session(user, Sha256(refresh), ACTIVE, AAL1, OFFICE, 0, x.now + config.refreshTtl)];
      return Issued(session, refresh);
    }

    method Register(x: Ctx, user: Id, session: Id, refresh: Token) returns (r: Reply)
      modifies this`sessions, this`users
      ensures (Db(), r) == IdentityModel.Register(config, old(Db()), x, user, session, refresh)
    {
      if user in users { return Refused(409); }
      users := users[user := User(false, None)];
      sessions := sessions[session := Session(user, Sha256(refresh), ACTIVE, AAL1, OFFICE, 0, x.now + config.refreshTtl)];
      return Issued(session, refresh);
    }

    /** `_known_browser_device`, writing a lapsed trust off. */
    method KnownBrowserDevice(user: Id, d: DeviceClaim, now: Time) returns (known: bool)
      modifies this`approvals
      ensures known == KnownDevice(old(Db()), user, d, now)
      ensures Db() == MarkLapsed(old(Db()), user, d, now)
      ensures known ==> Db() == old(Db()) && d.Device?
    {
      if d.NoDevice? || d.approval !in approvals { return false; }
      var row := approvals[d.approval];
      if row.user != user || row.status != Trusted { return false; }
      if row.trustedUntil.None? || row.trustedUntil.value <= now {
        approvals := approvals[d.approval := row.(status := ApprovalExpired)];
        return false;
      }
      return row.deviceHash == Sha256(d.proof);
    }

    /** `_create_device_approval`, then `_send_device_approval_notice`. */
    method HoldSession(now: Time, session: Id, approval: Id, deviceToken: Token, ownerToken: Token,
                       mail: Mail) returns (r: Reply)
      requires session in sessions
      modifies this`sessions, this`approvals
      ensures Db() == HoldForApproval(config, old(Db()), now, session, approval, deviceToken, ownerToken, mail)
      ensures r == HeldReply(approval, mail)
    {
      approvals := approvals[approval := Approval(sessions[session].user, session, Sha256(deviceToken), Sha256(ownerToken),
                                                  ApprovalPending, now + config.deviceApprovalTtl, None)];
      sessions := sessions[session := sessions[session].(status := PENDING_DEVICE_APPROVAL, aal := AAL2)];
      match mail {
        case MailSent => return DevicePending(approval);
        case MailRejected => approvals := approvals[approval := approvals[approval].(status := DeliveryFailed)];
        case MailUnknown => approvals := approvals[approval := approvals[approval].(status := DeliveryUnknown)];
      }
      sessions := sessions[session := Revoked(sessions[session])];
      assert sessions == old(sessions)[session := sessions[session]];
      assert approvals == old(approvals)[approval := approvals[approval]];
      return Refused(503);
    }

    method VerifyEmailOtp(
      x: Ctx, user: Id, reviewer: bool, device: DeviceClaim, mail: Mail,
      session: Id, refresh: Token, approval: Id, deviceToken: Token, ownerToken: Token) returns (r: Reply)
      modifies this`sessions, this`approvals, this`activations, this`log
      ensures (Db(), r) == IdentityModel.VerifyEmailOtp(config, old(Db()), x, user, reviewer, device, mail, session, refresh,
                                                        approval, deviceToken, ownerToken)
    {
      hide RevokeTrusted, CancelReplaced, HoldForApproval, KnownDevice, MarkLapsed, HeldReply;
      if user !in users { return Refused(404); }
      var until := x.now + config.mobileRefreshTtl;
      ghost var begun := WithSession(Db(), session, Session(user, Sha256(refresh), ACTIVE, AAL2, AUTHENTICATOR_ACTIVATION, 0, until));
      KnownIgnoresSessions(Db(), begun, user, device, x.now);
      sessions := sessions[session := Session(user, Sha256(refresh), ACTIVE, AAL2, AUTHENTICATOR_ACTIVATION, 0, until)];
      if reviewer {
        RevokePreviousDevices(user, x.now);
        approvals := approvals[approval := Approval(user, session, Sha256(deviceToken), Sha256(ownerToken), Trusted, until, Some(until))];
        log := log + [EmailVerified(session, user, Reviewer(approval))];
        return Issued(session, refresh);
      }
      var known := KnownBrowserDevice(user, device, x.now);
      if known {
        log := log + [EmailVerified(session, user, Known(device.approval))];
        return Issued(session, refresh);
      }
      r := HoldSession(x.now, session, approval, deviceToken, ownerToken, mail);
      log := log + [EmailVerified(session, user, Held)];
    }

    /** A code that matched no step is counted, and the last one allowed ends the session. */
    method CountFailure(sid: Id) returns (r: Reply)
      requires sid in sessions
      modifies this`sessions
      ensures var counted := old(sessions)[sid].(failed := old(sessions)[sid].failed + 1);
              var spent := counted.failed >= config.mfaMaxFailed;
              && sessions == old(sessions)[sid := if spent then Revoked(counted) else counted]
              && r == Refused(if spent then 429 else 400)
    {
      sessions := sessions[sid := sessions[sid].(failed := sessions[sid].failed + 1)];
      if sessions[sid].failed >= config.mfaMaxFailed {
        sessions := sessions[sid := Revoked(sessions[sid])];
        assert sessions == old(sessions)[sid := sessions[sid]];
        return Refused(429);
      }
      return Refused(400);
    }

    /** After an accepted code: let a known browser in, hold any other for the mailbox. */
    method AdmitBrowser(x: Ctx, sid: Id, user: Id, counter: nat, device: DeviceClaim, mail: Mail,
                        approval: Id, deviceToken: Token, ownerToken: Token) returns (r: Reply)
      requires sid in sessions
      modifies this`sessions, this`approvals, this`log
      ensures (Db(), r) == IdentityModel.AdmitBrowser(config, old(Db()), x, sid, user, counter, device, mail, approval, deviceToken, ownerToken)
    {
      if !config.deviceApprovalRequired {
        log := log + [TotpAccepted(sid, user, counter, ApprovalOff)];
        return Accepted;
      }
      hide HoldForApproval, KnownDevice, MarkLapsed, HeldReply;
      var known := KnownBrowserDevice(user, device, x.now);
      if known {
        log := log + [TotpAccepted(sid, user, counter, Known(device.approval))];
        return Accepted;
      }
      r := HoldSession(x.now, sid, approval, deviceToken, ownerToken, mail);
      log := log + [TotpAccepted(sid, user, counter, Held)];
    }

    method VerifyMfa(
      x: Ctx, claims: Option<Claims>, matched: Option<nat>, device: DeviceClaim, mail: Mail,
      approval: Id, deviceToken: Token, ownerToken: Token) returns (r: Reply)
      modifies this`sessions, this`approvals, this`users, this`log
      ensures (Db(), r) == IdentityModel.VerifyMfa(config, old(Db()), x, claims, matched, device, mail, approval, deviceToken, ownerToken)
    {
      hide IdentityModel.AdmitBrowser, Authenticate;
      var refusal := Authenticate(Db(), x, claims, false, {OFFICE});
      if refusal.Some? { return Refused(refusal.value); }
      Admitted(Db(), x, claims, false, {OFFICE});
      var sid, user := claims.value.session, claims.value.user;
      if !users[user].enrolled || sessions[sid].aal == AAL2 { return Refused(409); }
      if matched.None? {
        r := CountFailure(sid);
        return;
      }
      if users[user].lastCounter.Some? && matched.value <= users[user].lastCounter.value { return Refused(400); }
      users := users[user := users[user].(lastCounter := matched)];
      sessions := sessions[sid := sessions[sid].(aal := AAL2, failed := 0)];
      r := AdmitBrowser(x, sid, user, matched.value, device, mail, approval, deviceToken, ownerToken);
    }

    // --------------------------------------------------------- QR sign-in

    method CreateQr(x: Ctx, claims: Option<Claims>, qr: Id, browserProof: Token, scanToken: Token) returns (r: Reply)
      modifies this`qrs
      ensures (Db(), r) == IdentityModel.CreateQr(config, old(Db()), x, claims, qr, browserProof, scanToken)
    {
      var refusal := Authenticate(Db(), x, claims, false, {OFFICE});
      if refusal.Some? { return Refused(refusal.value); }
      hide OpenQr;
      var sid := claims.value.session;
      var user := sessions[sid].user;
      if sessions[sid].aal != AAL1 || !users[user].enrolled { return Refused(409); }
      RevokeOpenQrs(sid);
      qrs := qrs[qr := Qr(user, sid, Sha256(browserProof), Sha256(scanToken), QrPending, None, x.now + config.qrTtl)];
      return Accepted;
    }

    method ReadQr(x: Ctx, qr: Id, proof: Token) returns (r: Reply)
      modifies this`qrs
      ensures (Db(), r) == IdentityModel.ReadQr(old(Db()), x, qr, proof)
    {
      if qr !in qrs || qrs[qr].browserHash != Sha256(proof) { return Refused(404); }
      if QrLapsed(qrs[qr], x.now) {
        qrs := qrs[qr := qrs[qr].(status := QrExpired)];
      }
      return Accepted;
    }

    method CancelQr(qr: Id, proof: Token) returns (r: Reply)
      modifies this`qrs
      ensures (Db(), r) == IdentityModel.CancelQr(old(Db()), qr, proof)
    {
      if qr !in qrs || qrs[qr].browserHash != Sha256(proof) { return Refused(404); }
      if qrs[qr].status == QrPending || qrs[qr].status == QrScanned {
        qrs := qrs[qr := qrs[qr].(status := QrRevoked)];
      }
      return Accepted;
    }

    method ScanQr(x: Ctx, claims: Option<Claims>, device: DeviceClaim, qr: Id, scanToken: Token) returns (r: Reply)
      modifies this`qrs, this`log
      ensures (Db(), r) == IdentityModel.ScanQr(old(Db()), x, claims, device, qr, scanToken)
    {
      hide ScannerRefusal;
      var refusal := ScannerRefusal(Db(), x, claims, device);
      if refusal.Some? { return Refused(refusal.value); }
      ScannerIsDevice(Db(), x, claims, device);
      if qr !in qrs || qrs[qr].scanHash != Sha256(scanToken) { return Refused(404); }
      if QrLapsed(qrs[qr], x.now) {
        qrs := qrs[qr := qrs[qr].(status := QrExpired)];
        return Refused(410);
      }
      if qrs[qr].user != claims.value.user { return Refused(404); }
      var browser := qrs[qr].session;
      if browser !in sessions || sessions[browser].status != ACTIVE || sessions[browser].aal != AAL1 || sessions[browser].purpose != OFFICE {
        qrs := qrs[qr := qrs[qr].(status := QrRevoked)];
        return Refused(409);
      }
      if qrs[qr].status != QrPending { return Refused(409); }
      qrs := qrs[qr := qrs[qr].(status := QrScanned, scannedBy := Some(device.approval))];
      log := log + [Scanned(qr, browser, device.approval)];
      return Accepted;
    }

    method DecideQr(x: Ctx, claims: Option<Claims>, device: DeviceClaim, qr: Id, approve: bool) returns (r: Reply)
      modifies this`sessions, this`qrs, this`log
      ensures (Db(), r) == IdentityModel.DecideQr(old(Db()), x, claims, device, qr, approve)
    {
      hide ScannerRefusal;
      var refusal := ScannerRefusal(Db(), x, claims, device);
      if refusal.Some? { return Refused(refusal.value); }
      ScannerIsDevice(Db(), x, claims, device);
      if qr !in qrs || qrs[qr].user != claims.value.user { return Refused(404); }
      if QrLapsed(qrs[qr], x.now) {
        qrs := qrs[qr := qrs[qr].(status := QrExpired)];
        return Refused(410);
      }
      if qrs[qr].status != QrScanned || qrs[qr].scannedBy != Some(device.approval) { return Refused(409); }
      var browser := qrs[qr].session;
      if approve {
        qrs := qrs[qr := qrs[qr].(status := QrApproved)];
        log := log + [Approved(qr, browser, device.approval)];
      } else {
        qrs := qrs[qr := qrs[qr].(status := QrRejected)];
        if browser in sessions && sessions[browser].status == ACTIVE && sessions[browser].aal == AAL1 {
          sessions := sessions[browser := Revoked(sessions[browser])];
        }
      }
      return Accepted;
    }

    method CompleteQr(x: Ctx, qr: Id, proof: Token) returns (r: Reply)
      modifies this`sessions, this`qrs, this`log
      ensures (Db(), r) == IdentityModel.CompleteQr(old(Db()), x, qr, proof)
    {
      if qr !in qrs || qrs[qr].browserHash != Sha256(proof) { return Refused(404); }
      if QrLapsed(qrs[qr], x.now) {
        qrs := qrs[qr := qrs[qr].(status := QrExpired)];
        return Refused(410);
      }
      var sid := qrs[qr].session;
      var missing := sid !in sessions || qrs[qr].user !in users;
      if qrs[qr].status == QrConsumed {
        if missing || sessions[sid].status != ACTIVE || sessions[sid].aal != AAL2 { return Refused(409); }
        return Accepted;
      }
      if qrs[qr].status != QrApproved { return Refused(409); }
      if missing || sessions[sid].status != ACTIVE || sessions[sid].aal != AAL1 || sessions[sid].purpose != OFFICE {
        qrs := qrs[qr := qrs[qr].(status := QrRevoked)];
        return Refused(409);
      }
      if !x.active || !x.roles {
        sessions := sessions[sid := Revoked(sessions[sid])];
        qrs := qrs[qr := qrs[qr].(status := QrRevoked)];
        return Refused(403);
      }
      sessions := sessions[sid := sessions[sid].(aal := AAL2)];
      qrs := qrs[qr := qrs[qr].(status := QrConsumed)];
      log := log + [Completed(qr, sid)];
      return Accepted;
    }

    // -------------------------------------------------- activation of a phone

    /** `session_id` is unique among the approvals, so the lookup finds one row or none. */
    method RequestActivation(x: Ctx, claims: Option<Claims>, activation: Id, claimToken: Token) returns (r: Reply)
      requires OneApprovalPerSession(approvals)
      modifies this`activations
      ensures (Db(), r) == IdentityModel.RequestActivation(config, old(Db()), x, claims, activation, claimToken)
    {
      var refusal := Authenticate(Db(), x, claims, true, {AUTHENTICATOR_ACTIVATION});
      if refusal.Some? { return Refused(refusal.value); }
      hide Authenticate, CancelLive;
      var sid, user := claims.value.session, claims.value.user;
      var found := set d | d in approvals && approvals[d].user == user && approvals[d].session == sid && approvals[d].status == Trusted;
      assert forall d :: d in found <==> OwnTrustedDevice(Db(), sid, user, d);
      if found == {} { return Refused(409); }
      var device :| device in found;
      assert forall d :: OwnTrustedDevice(Db(), sid, user, d) ==> d == device;
      if TrustLapsed(approvals[device], x.now) { return Refused(409); }
      CancelLiveActivations(user, None, None);
      activations := activations[activation := Activation(user, sid, device, Sha256(claimToken), Live, x.now + config.activationTtl)];
      return Accepted;
    }

    method ClaimActivation(x: Ctx, activation: Id, claimToken: Token) returns (r: Reply)
      modifies this`activations, this`users, this`log
      ensures (Db(), r) == IdentityModel.ClaimActivation(old(Db()), x, activation, claimToken)
    {
      if activation !in activations || activations[activation].claimHash != Sha256(claimToken) { return Refused(404); }
      var row := activations[activation];
      if row.status == Live && row.expiresAt <= x.now {
        activations := activations[activation := row.(status := ActivationExpired)];
        return Refused(410);
      }
      if row.status != Live { return Refused(409); }
      if !ActivationStillBound(Db(), row, x.now) || row.user !in users || !MayLogIn(x) {
        activations := activations[activation := row.(status := Cancelled)];
        return Refused(409);
      }
      users := users[row.user := User(true, None)];
      activations := activations[activation := row.(status := Claimed)];
      log := log + [FactorRotated(row.user, activation)];
      return Accepted;
    }

    // ------------------------------------------------------ device approvals

    /** `_expire_device_approval` and the session it held. */
    method ExpireIfLapsed(approval: Id, now: Time) returns (lapsed: bool)
      requires approval in approvals
      modifies this`sessions, this`approvals
      ensures lapsed == ApprovalLapsed(old(approvals)[approval], now)
      ensures Db() == if lapsed then ExpireApproval(old(Db()), approval) else old(Db())
    {
      var row := approvals[approval];
      lapsed := (row.status == ApprovalPending || row.status == ApprovalApproved) && row.expiresAt <= now;
      if lapsed {
        approvals := approvals[approval := row.(status := ApprovalExpired)];
        if row.session in sessions && sessions[row.session].status == PENDING_DEVICE_APPROVAL {
          sessions := sessions[row.session := Revoked(sessions[row.session])];
        }
      }
    }

    method ReviewDevice(x: Ctx, approval: Id, ownerToken: Token) returns (r: Reply)
      modifies this`sessions, this`approvals
      ensures (Db(), r) == IdentityModel.ReviewDevice(old(Db()), x, approval, ownerToken)
    {
      hide ExpireApproval, ApprovalLapsed;
      if approval !in approvals || approvals[approval].ownerHash != Sha256(ownerToken) { return Refused(404); }
      var lapsed := ExpireIfLapsed(approval, x.now);
      if lapsed { return Refused(410); }
      if approvals[approval].status != ApprovalPending && approvals[approval].status != ApprovalApproved { return Refused(404); }
      return Accepted;
    }

    method ReadDevice(x: Ctx, approval: Id, proof: Token) returns (r: Reply)
      modifies this`sessions, this`approvals
      ensures (Db(), r) == IdentityModel.ReadDevice(old(Db()), x, approval, proof)
    {
      hide ExpireApproval, ApprovalLapsed;
      if approval !in approvals || approvals[approval].deviceHash != Sha256(proof) { return Refused(404); }
      var lapsed := ExpireIfLapsed(approval, x.now);
      return Accepted;
    }

    method DecideDevice(x: Ctx, approval: Id, ownerToken: Token, approve: bool) returns (r: Reply)
      modifies this`sessions, this`approvals, this`log
      ensures (Db(), r) == IdentityModel.DecideDevice(old(Db()), x, approval, ownerToken, approve)
    {
      hide ExpireApproval, ApprovalLapsed;
      if approval !in approvals || approvals[approval].ownerHash != Sha256(ownerToken) { return Refused(404); }
      var lapsed := ExpireIfLapsed(approval, x.now);
      if lapsed { return Refused(410); }
      var row := approvals[approval];
      if row.status != ApprovalPending { return Refused(409); }
      if approve {
        approvals := approvals[approval := row.(status := ApprovalApproved)];
        log := log + [MailboxApproved(approval, row.session)];
      } else {
        approvals := approvals[approval := row.(status := ApprovalDeclined)];
        if row.session in sessions && sessions[row.session].status == PENDING_DEVICE_APPROVAL {
          sessions := sessions[row.session := Revoked(sessions[row.session])];
        }
      }
      return Accepted;
    }

    method RevokeDevice(x: Ctx, claims: Option<Claims>, approval: Id, proof: Token) returns (r: Reply)
      modifies this`sessions, this`approvals, this`activations
      ensures (Db(), r) == IdentityModel.RevokeDevice(old(Db()), x, claims, approval, proof)
    {
      hide CancelLive, MayLogIn;
      var refusal := Authenticate(Db(), x, claims, true, {AUTHENTICATOR_ACTIVATION});
      if refusal.Some? { return Refused(refusal.value); }
      if approval !in approvals || approvals[approval].deviceHash != Sha256(proof) { return Refused(404); }
      var row := approvals[approval];
      if row.user != claims.value.user || row.session != claims.value.session || row.status != Trusted { return Refused(409); }
      approvals := approvals[approval := row.(status := ApprovalRevoked, trustedUntil := Some(x.now))];
      if row.session in sessions && sessions[row.session].status == ACTIVE {
        sessions := sessions[row.session := Revoked(sessions[row.session])];
      }
      CancelLiveActivations(row.user, Some(row.session), Some(approval));
      return Accepted;
    }

    method CompleteDevice(x: Ctx, approval: Id, proof: Token, refresh: Token) returns (r: Reply)
      modifies this`sessions, this`approvals, this`activations, this`log
      ensures (Db(), r) == IdentityModel.CompleteDevice(config, old(Db()), x, approval, proof, refresh)
    {
      hide ExpireApproval, ApprovalLapsed, RevokeTrusted, RevokeReplacedSessions, CancelReplaced;
      if approval !in approvals || approvals[approval].deviceHash != Sha256(proof) { return Refused(404); }
      var lapsed := ExpireIfLapsed(approval, x.now);
      if lapsed { return Refused(410); }
      var row := approvals[approval];
      var sid := row.session;
      var missing := sid !in sessions || row.user !in users;
      if row.status == Trusted {
        if missing || sessions[sid].status != ACTIVE || sessions[sid].aal != AAL2 || sessions[sid].expiresAt <= x.now
           || TrustLapsed(row, x.now) { return Refused(409); }
        if !x.active || !x.roles { return Refused(403); }
        sessions := sessions[sid := sessions[sid].(refreshHash := Sha256(refresh))];
        return Issued(sid, refresh);
      }
      if row.status != ApprovalApproved { return Refused(409); }
      if missing || sessions[sid].status != PENDING_DEVICE_APPROVAL || sessions[sid].aal != AAL2 { return Refused(409); }
      if !x.active || !x.roles {
        sessions := sessions[sid := Revoked(sessions[sid])];
        return Refused(403);
      }
      HeldUntouched(Db(), row.user, approval, x.now, sid);
      ReplaceOtherDevices(row.user, approval, x.now);
      sessions := sessions[sid := sessions[sid].(status := ACTIVE, refreshHash := Sha256(refresh))];
      approvals := approvals[approval := approvals[approval].(status := Trusted, trustedUntil := Some(x.now + config.deviceTrustTtl))];
      log := log + [DeviceCompleted(approval, sid)];
      return Issued(sid, refresh);
    }

    // -------------------------------------------------- sessions and passwords

    method Refresh(x: Ctx, token: Token, replacement: Token) returns (r: Reply)
      requires UniqueRefreshHash()
      modifies this`sessions, this`log
      ensures (Db(), r) == IdentityModel.Refresh(old(Db()), x, token, replacement)
    {
      var found := set id | id in sessions && sessions[id].refreshHash == Sha256(token);
      assert forall id :: id in found <==> HoldsRefresh(Db(), token, id);
      if found == {} { return Refused(401); }
      var id :| id in found;
      assert forall other :: HoldsRefresh(Db(), token, other) ==> other == id;
      var row := sessions[id];
      if row.status != ACTIVE || row.expiresAt <= x.now { return Refused(401); }
      if row.user !in users || !MayLogIn(x) { return Refused(403); }
      sessions := sessions[id := row.(refreshHash := Sha256(replacement))];
      log := log + [RefreshAccepted(id, token)];
      return Issued(id, replacement);
    }

    method SignOut(x: Ctx, claims: Option<Claims>) returns (r: Reply)
      modifies this`sessions, this`activations
      ensures (Db(), r) == IdentityModel.SignOut(old(Db()), x, claims)
    {
      hide CancelLive, MayLogIn;
      var refusal := Authenticate(Db(), x, claims, false, {OFFICE, AUTHENTICATOR_ACTIVATION});
      if refusal.Some? { return Refused(refusal.value); }
      var sid := claims.value.session;
      sessions := sessions[sid := Revoked(sessions[sid])];
      CancelLiveActivations(claims.value.user, Some(sid), None);
      return Accepted;
    }

    method RevokeSession(x: Ctx, claims: Option<Claims>, target: Id) returns (r: Reply)
      modifies this`sessions
      ensures (Db(), r) == IdentityModel.RevokeSession(old(Db()), x, claims, target)
    {
      hide MayLogIn;
      var refusal := Authenticate(Db(), x, claims, true, {OFFICE});
      if refusal.Some? { return Refused(refusal.value); }
      if target == claims.value.session { return Refused(409); }
      if target !in sessions || sessions[target].user != claims.value.user || sessions[target].purpose != OFFICE { return Refused(404); }
      if sessions[target].status == ACTIVE {
        sessions := sessions[target := Revoked(sessions[target])];
      }
      return Accepted;
    }

    method ChangePassword(x: Ctx, claims: Option<Claims>, accepted: bool) returns (r: Reply)
      modifies this`sessions, this`activations
      ensures (Db(), r) == IdentityModel.ChangePassword(old(Db()), x, claims, accepted)
    {
      hide CancelLive, RevokeActive, MayLogIn;
      var refusal := Authenticate(Db(), x, claims, true, {OFFICE});
      if refusal.Some? { return Refused(refusal.value); }
      if !accepted { return Refused(400); }
      RevokeActiveSessions(claims.value.user, Some(claims.value.session));
      CancelLiveActivations(claims.value.user, None, None);
      return Accepted;
    }

    method RecoverPassword(user: Id, accepted: bool) returns (r: Reply)
      modifies this`sessions, this`activations
      ensures (Db(), r) == IdentityModel.RecoverPassword(old(Db()), user, accepted)
    {
      hide CancelLive, RevokeActive;
      if user !in users { return Refused(404); }
      if !accepted { return Refused(400); }
      RevokeActiveSessions(user, None);
      CancelLiveActivations(user, None, None);
      return Accepted;
    }

    method IssueRecovery(x: Ctx, claims: Option<Claims>, user: Id, permitted: bool) returns (r: Reply)
      modifies this`sessions, this`activations
      ensures (Db(), r) == IdentityModel.IssueRecovery(old(Db()), x, claims, user, permitted)
    {
      hide CancelLive, RevokeActive, MayLogIn;
      var refusal := Authenticate(Db(), x, claims, true, {OFFICE});
      if refusal.Some? { return Refused(refusal.value); }
      if user == claims.value.user { return Refused(409); }
      if user !in users { return Refused(404); }
      if !permitted { return Refused(403); }
      RevokeActiveSessions(user, None);
      CancelLiveActivations(user, None, None);
      return Accepted;
    }

    method BreakGlass(founder: Id, keyAccepted: bool) returns (r: Reply)
      modifies this`sessions, this`activations, this`users, this`log
      ensures (Db(), r) == IdentityModel.BreakGlass(old(Db()), founder, keyAccepted)
    {
      hide CancelLive, RevokeActive;
      if !keyAccepted { return Refused(403); }
      if founder !in users { return Refused(404); }
      users := users[founder := User(false, None)];
      RevokeActiveSessions(founder, None);
      CancelLiveActivations(founder, None, None);
      log := log + [FactorRemoved(founder)];
      return Accepted;
    }

    method ResetMfa(x: Ctx, claims: Option<Claims>, user: Id, permitted: bool) returns (r: Reply)
      modifies this`sessions, this`activations, this`users, this`log
      ensures (Db(), r) == IdentityModel.ResetMfa(old(Db()), x, claims, user, permitted)
    {
      hide CancelLive, RevokeActive, MayLogIn;
      var refusal := Authenticate(Db(), x, claims, true, {OFFICE});
      if refusal.Some? { return Refused(refusal.value); }
      if user == claims.value.user { return Refused(409); }
      if user !in users { return Refused(404); }
      if !permitted { return Refused(403); }
      users := users[user := User(false, None)];
      RevokeActiveSessions(user, None);
      CancelLiveActivations(user, None, None);
      log := log + [FactorRemoved(user)];
      return Accepted;
    }

    // ------------------------------------------------------------ the service

    method DispatchDevices(e: Event) returns (r: Reply)
      requires OneApprovalPerSession(approvals) && IsAboutDevices(e.request)
      modifies this`sessions, this`approvals, this`activations, this`users, this`log
      ensures (Db(), r) == Step(config, old(Db()), e)
    {
      hide IdentityModel.ReviewDevice, IdentityModel.DecideDevice, IdentityModel.ReadDevice, IdentityModel.RevokeDevice;
      hide IdentityModel.CompleteDevice, IdentityModel.RequestActivation, IdentityModel.ClaimActivation;
      var x, m := e.ctx, e.mint;
      match e.request {
        case DeviceReview(approval, proof) => r := ReviewDevice(x, approval, proof);
        case DeviceDecide(approval, proof, approve) => r := DecideDevice(x, approval, proof, approve);
        case DeviceStatusOf(approval, proof) => r := ReadDevice(x, approval, proof);
        case DeviceRevoke(claims, approval, proof) => r := RevokeDevice(x, claims, approval, proof);
        case DeviceComplete(approval, proof) => r := CompleteDevice(x, approval, proof, m.refresh);
        case AskActivation(claims) => r := RequestActivation(x, claims, m.id, m.first);
        case Claim(activation, proof) => r := ClaimActivation(x, activation, proof);
      }
    }

    method DispatchFactor(e: Event) returns (r: Reply)
      requires IsAboutFactor(e.request)
      modifies this`sessions, this`approvals, this`qrs, this`activations, this`users, this`log
      ensures (Db(), r) == Step(config, old(Db()), e)
    {
      hide IdentityModel.CreateQr, IdentityModel.ReadQr, IdentityModel.CancelQr, IdentityModel.ScanQr, IdentityModel.DecideQr;
      hide IdentityModel.CompleteQr, IdentityModel.VerifyMfa, IdentityModel.VerifyEmailOtp;
      var x, m := e.ctx, e.mint;
      match e.request {
        case StartQr(claims) => r := CreateQr(x, claims, m.id, m.first, m.second);
        case QrStatusOf(qr, proof) => r := ReadQr(x, qr, proof);
        case QrCancel(qr, proof) => r := CancelQr(qr, proof);
        case QrScan(claims, device, qr, proof) => r := ScanQr(x, claims, device, qr, proof);
        case QrDecide(claims, device, qr, approve) => r := DecideQr(x, claims, device, qr, approve);
        case QrComplete(qr, proof) => r := CompleteQr(x, qr, proof);
        case Totp(claims, matched, device, mail) =>
          r := VerifyMfa(x, claims, matched, device, mail, m.approval, m.first, m.second);
        case VerifyEmailCode(user, reviewer, device, mail) =>
          r := VerifyEmailOtp(x, user, reviewer, device, mail, m.id, m.refresh, m.approval, m.first, m.second);
      }
    }

    method DispatchAccount(e: Event) returns (r: Reply)
      requires UniqueRefreshHash() && !IsAboutDevices(e.request) && !IsAboutFactor(e.request)
      modifies this`sessions, this`activations, this`users, this`log
      ensures (Db(), r) == Step(config, old(Db()), e)
    {
      hide IdentityModel.SignIn, IdentityModel.Register, IdentityModel.RevokeSession, IdentityModel.ChangePassword;
      hide IdentityModel.RecoverPassword, IdentityModel.IssueRecovery, IdentityModel.ResetMfa, IdentityModel.BreakGlass;
      hide IdentityModel.Refresh, IdentityModel.SignOut;
      var x, m := e.ctx, e.mint;
      match e.request {
        case SignInWith(user, accepted) => r := SignIn(x, user, accepted, m.id, m.refresh);
        case RegisterAs(user) => r := Register(x, user, m.id, m.refresh);
        case EndSession(claims, target) => r := RevokeSession(x, claims, target);
        case NewPassword(claims, accepted) => r := ChangePassword(x, claims, accepted);
        case Recover(user, accepted) => r := RecoverPassword(user, accepted);
        case RecoveryLink(claims, user, permitted) => r := IssueRecovery(x, claims, user, permitted);
        case FactorReset(claims, user, permitted) => r := ResetMfa(x, claims, user, permitted);
        case FounderRecovery(user, keyAccepted) => r := BreakGlass(user, keyAccepted);
        case RefreshWith(proof) => r := Refresh(x, proof, m.refresh);
        case SignOutOf(claims) => r := SignOut(x, claims);
      }
    }

    method Dispatch(e: Event) returns (r: Reply)
      requires OneApprovalPerSession(approvals) && UniqueRefreshHash()
      modifies this`sessions, this`approvals, this`qrs, this`activations, this`users, this`log
      ensures (Db(), r) == Step(config, old(Db()), e)
    {
      hide Step;
      if IsAboutDevices(e.request) {
        r := DispatchDevices(e);
      } else if IsAboutFactor(e.request) {
        r := DispatchFactor(e);
      } else {
        r := DispatchAccount(e);
      }
    }

    /** One request of any kind, at a time not before the last and with new identifiers and
        tokens: the store stays on a run, which is longer by this request, and keeps the
        invariant; no session is lost or revived and aal2 is never lowered. */
    method Serve(e: Event) returns (r: Reply)
      requires Valid() && Possible(worlds[|events|], e)
      modifies this
      ensures Valid() && events == old(events) + [e] && worlds == old(worlds) + [Next(config, old(worlds[|events|]), e)]
      ensures r == Step(config, old(Db()), e).1
      ensures Inv(config, Db(), e.ctx.now) && SessionsEvolve(old(sessions), sessions)
    {
      hide Step, IsRun, Inv, SessionsEvolve;
      RunStart(config, worlds, events);
      ghost var w := worlds[|events|];
      RunKeeps(config, worlds, events, |events|);
      RunOnce(config, worlds, events, |events|);
      StepKeeps(config, w, e);
      LongerRun(config, worlds, events, e);
      UniqueRows(config, w);
      r := Dispatch(e);
      worlds, events := worlds + [Next(config, w, e)], events + [e];
    }
  }

  /** The two unique columns the lookups rely on are unique in every world of a run. */
  lemma UniqueRows(c: Config, w: World)
    requires Inv(c, w.db, w.clock) && Once(w)
    ensures OneApprovalPerSession(w.db.approvals)
    ensures forall i, j :: i in w.db.sessions && j in w.db.sessions && w.db.sessions[i].refreshHash == w.db.sessions[j].refreshHash ==> i == j
  {
  }
}
