/** The tables of the identity service and what one request does to them
    (Backend/backend/identity_auth.py). Each request is one atomic step. */
module IdentityModel {

  type Id = string
  type Token = string
  type Time = nat

  datatype Option<+T> = None | Some(value: T)

  /** `_hash_token`: an injective image of the token, and nothing else of it is stored. */
  datatype Hash = Sha256(token: Token)

  datatype SessionStatus = ACTIVE | PENDING_DEVICE_APPROVAL | REVOKED
  datatype Assurance = AAL1 | AAL2
  datatype Purpose = OFFICE | AUTHENTICATOR_ACTIVATION

  /** `revoked_at` is set exactly when `status` becomes REVOKED, so it is not kept apart. */
  datatype Session = Session(
    user: Id, refreshHash: Hash, status: SessionStatus, aal: Assurance, purpose: Purpose,
    failed: nat, expiresAt: Time)

  datatype ApprovalStatus =
    | ApprovalPending | ApprovalApproved | ApprovalDeclined | ApprovalExpired | ApprovalRevoked
    | Trusted | DeliveryFailed | DeliveryUnknown

  datatype Approval = Approval(
    user: Id, session: Id, deviceHash: Hash, ownerHash: Hash, status: ApprovalStatus,
    expiresAt: Time, trustedUntil: Option<Time>)

  datatype QrStatus =
    | QrPending | QrScanned | QrApproved | QrRejected | QrExpired | QrRevoked | QrConsumed

  datatype Qr = Qr(
    user: Id, session: Id, browserHash: Hash, scanHash: Hash, status: QrStatus,
    scannedBy: Option<Id>, expiresAt: Time)

  datatype ActivationStatus = Live | Claimed | Cancelled | ActivationExpired

  datatype Activation = Activation(
    user: Id, session: Id, device: Id, claimHash: Hash, status: ActivationStatus, expiresAt: Time)

  datatype User = User(enrolled: bool, lastCounter: Option<nat>)

  /** Why a session that proved its factor could go on, or that it could not yet. */
  datatype Basis = ApprovalOff | Known(device: Id) | Reviewer(device: Id) | Held

  /** The rows of the audit event table that the properties below speak of. */
  datatype Fact =
    | TotpAccepted(session: Id, user: Id, counter: nat, basis: Basis)
    | EmailVerified(session: Id, user: Id, basis: Basis)
    | MailboxApproved(approval: Id, session: Id)
    | DeviceCompleted(approval: Id, session: Id)
    | Scanned(qr: Id, session: Id, device: Id)
    | Approved(qr: Id, session: Id, device: Id)
    | Completed(qr: Id, session: Id)
    | FactorRotated(user: Id, activation: Id)
    | FactorRemoved(user: Id)
    | RefreshAccepted(session: Id, token: Token)

  datatype State = State(
    sessions: map<Id, Session>,
    approvals: map<Id, Approval>,
    qrs: map<Id, Qr>,
    activations: map<Id, Activation>,
    users: map<Id, User>,
    log: seq<Fact>)

  datatype Config = Config(
    mfaMaxFailed: nat, deviceApprovalRequired: bool,
    refreshTtl: nat, mobileRefreshTtl: nat, deviceApprovalTtl: nat, deviceTrustTtl: nat,
    qrTtl: nat, activationTtl: nat)

  predicate ValidConfig(c: Config) {
    && c.mfaMaxFailed >= 1
    && 300 <= c.deviceApprovalTtl <= 3600
    && 86400 <= c.deviceTrustTtl <= 90 * 24 * 60 * 60
    && 30 <= c.qrTtl <= 300
    && c.mobileRefreshTtl == 30 * 24 * 60 * 60
  }

  /** What the request finds outside these tables: the clock, and the standing of
      the user it is about (`user.status` and the control plane, roles, reviewer record). */
  datatype Ctx = Ctx(now: Time, active: bool, roles: bool, reviewer: bool)

  predicate MayLogIn(x: Ctx) { x.active && (x.roles || x.reviewer) }

  /** The claims of an access token whose signature verified. */
  datatype Claims = Claims(user: Id, session: Id, purpose: Purpose, expiresAt: Time)

  datatype DeviceClaim = NoDevice | Device(approval: Id, proof: Token)

  datatype Mail = MailSent | MailRejected | MailUnknown

  /** HTTP outcomes; tokens appear only where the reply carries a refresh token. */
  datatype Reply = Refused(code: nat) | Accepted | DevicePending(approval: Id) | Issued(session: Id, refresh: Token)

  // ------------------------------------------------------ row-level helpers

  function WithSession(s: State, id: Id, row: Session): State { s.(sessions := s.sessions[id := row]) }
  function WithApproval(s: State, id: Id, row: Approval): State { s.(approvals := s.approvals[id := row]) }
  function WithQr(s: State, id: Id, row: Qr): State { s.(qrs := s.qrs[id := row]) }
  function WithActivation(s: State, id: Id, row: Activation): State { s.(activations := s.activations[id := row]) }
  function WithUser(s: State, id: Id, row: User): State { s.(users := s.users[id := row]) }
  function Log(s: State, f: Fact): State { s.(log := s.log + [f]) }

  function Revoked(row: Session): Session { row.(status := REVOKED) }

  /** `for session in active_sessions: session.status = "REVOKED"`. */
  function RevokeActive(sessions: map<Id, Session>, user: Id, spare: Option<Id>): map<Id, Session> {
    map id | id in sessions ::
      if sessions[id].user == user && sessions[id].status == ACTIVE && spare != Some(id)
      then Revoked(sessions[id]) else sessions[id]
  }

  predicate Selects(filter: Option<Id>, id: Id) { filter == None || filter == Some(id) }

  /** `_cancel_live_authenticator_activations`. */
  function CancelLive(activations: map<Id, Activation>, user: Id, session: Option<Id>, device: Option<Id>)
    : map<Id, Activation>
  {
    map id | id in activations ::
      if && activations[id].user == user && activations[id].status == Live
         && Selects(session, activations[id].session) && Selects(device, activations[id].device)
      then activations[id].(status := Cancelled) else activations[id]
  }

  /** The trusted approvals of a user, other than `spare`. */
  predicate IsReplaced(approvals: map<Id, Approval>, user: Id, spare: Option<Id>, id: Id) {
    id in approvals && approvals[id].user == user && approvals[id].status == Trusted && spare != Some(id)
  }

  function RevokeTrusted(approvals: map<Id, Approval>, user: Id, spare: Option<Id>, now: Time): map<Id, Approval> {
    map id | id in approvals ::
      if IsReplaced(approvals, user, spare, id)
      then approvals[id].(status := ApprovalRevoked, trustedUntil := Some(now)) else approvals[id]
  }

  /** The sessions of replaced devices; only ACTIVE ones are touched. */
  function RevokeReplacedSessions(
    approvals: map<Id, Approval>, sessions: map<Id, Session>, user: Id, spare: Option<Id>): map<Id, Session>
  {
    map id | id in sessions ::
      if && sessions[id].status == ACTIVE
         && exists a | a in approvals :: IsReplaced(approvals, user, spare, a) && approvals[a].session == id
      then Revoked(sessions[id]) else sessions[id]
  }

  /** The unused activations bound to a replaced device and, when `bySession`, to its session. */
  function CancelReplaced(
    approvals: map<Id, Approval>, activations: map<Id, Activation>, user: Id, spare: Option<Id>, bySession: bool)
    : map<Id, Activation>
  {
    map id | id in activations ::
      if && activations[id].user == user && activations[id].status == Live
         && IsReplaced(approvals, user, spare, activations[id].device)
         && (bySession ==> approvals[activations[id].device].session == activations[id].session)
      then activations[id].(status := Cancelled) else activations[id]
  }

  // --------------------------------------------------------- authentication

  /** `authenticate_office_access`: the refusal, or None with the session admitted. */
  function Authenticate(s: State, x: Ctx, claims: Option<Claims>, needAal2: bool, purposes: set<Purpose>): Option<nat> {
    if claims.None? || claims.value.expiresAt <= x.now then Some(401)
    else
      var c := claims.value;
      if c.session !in s.sessions || c.user !in s.users || s.sessions[c.session].user != c.user then Some(401)
      else
        var row := s.sessions[c.session];
        if row.status != ACTIVE || row.expiresAt <= x.now then Some(401)
        else if row.purpose !in purposes || c.purpose != row.purpose then Some(403)
        else if needAal2 && row.aal != AAL2 then Some(403)
        else if x.reviewer && row.purpose != AUTHENTICATOR_ACTIVATION then Some(403)
        else if !MayLogIn(x) then Some(403)
        else None
  }

  /** An admitted request names rows that exist and belong together. */
  lemma Admitted(s: State, x: Ctx, claims: Option<Claims>, needAal2: bool, purposes: set<Purpose>)
    requires Authenticate(s, x, claims, needAal2, purposes).None?
    ensures claims.Some? && claims.value.session in s.sessions && claims.value.user in s.users
    ensures var row := s.sessions[claims.value.session];
            && row.user == claims.value.user && row.status == ACTIVE && row.purpose in purposes
            && (needAal2 ==> row.aal == AAL2)
  {
    hide MayLogIn;
  }

  predicate HasTrust(s: State, user: Id, d: DeviceClaim) {
    d.Device? && d.approval in s.approvals && s.approvals[d.approval].user == user
    && s.approvals[d.approval].status == Trusted
  }

  predicate TrustLapsed(row: Approval, now: Time) {
    row.trustedUntil.None? || row.trustedUntil.value <= now
  }

  /** `_known_browser_device`, the answer. */
  predicate KnownDevice(s: State, user: Id, d: DeviceClaim, now: Time) {
    && HasTrust(s, user, d)
    && !TrustLapsed(s.approvals[d.approval], now)
    && s.approvals[d.approval].deviceHash == Sha256(d.proof)
  }

  /** `_known_browser_device`, the side effect: a lapsed trust is written off. */
  function MarkLapsed(s: State, user: Id, d: DeviceClaim, now: Time): (t: State)
    ensures t == s.(approvals := t.approvals)
  {
    if HasTrust(s, user, d) && TrustLapsed(s.approvals[d.approval], now)
    then WithApproval(s, d.approval, s.approvals[d.approval].(status := ApprovalExpired))
    else s
  }

  predicate ApprovalLapsed(row: Approval, now: Time) {
    (row.status == ApprovalPending || row.status == ApprovalApproved) && row.expiresAt <= now
  }

  /** A lapsed request is closed together with the session it holds. */
  function ExpireApproval(s: State, id: Id): (t: State)
    requires id in s.approvals
    ensures t == s.(sessions := t.sessions, approvals := t.approvals)
  {
    var row := s.approvals[id];
    CloseHeld(WithApproval(s, id, row.(status := ApprovalExpired)), row.session)
  }

  function CloseHeld(s: State, session: Id): (t: State)
    ensures t == s.(sessions := t.sessions)
  {
    if session in s.sessions && s.sessions[session].status == PENDING_DEVICE_APPROVAL
    then WithSession(s, session, Revoked(s.sessions[session])) else s
  }

  predicate QrLapsed(row: Qr, now: Time) {
    (row.status == QrPending || row.status == QrScanned) && row.expiresAt <= now
  }

  function SetQr(s: State, id: Id, status: QrStatus): (t: State)
    requires id in s.qrs
    ensures t == s.(qrs := t.qrs)
  {
    WithQr(s, id, s.qrs[id].(status := status))
  }

  /** `_create_device_approval` and then `_send_device_approval_notice`. */
  function HoldForApproval(
    c: Config, s: State, now: Time, session: Id, approval: Id, deviceToken: Token, ownerToken: Token, mail: Mail): (t: State)
    requires session in s.sessions
    ensures session in t.sessions
    ensures t == s.(sessions := s.sessions[session := t.sessions[session]], approvals := t.approvals)
    ensures t.sessions[session].refreshHash == s.sessions[session].refreshHash
    ensures approval in t.approvals && t.approvals == s.approvals[approval := t.approvals[approval]]
    ensures t.approvals[approval].session == session && t.approvals[approval].user == s.sessions[session].user
  {
    var row := s.sessions[session];
    var status := match mail
      case MailSent => ApprovalPending
      case MailRejected => DeliveryFailed
      case MailUnknown => DeliveryUnknown;
    var held := row.(status := if mail.MailSent? then PENDING_DEVICE_APPROVAL else REVOKED, aal := AAL2);
    WithSession(
      WithApproval(s, approval, Approval(row.user, session, Sha256(deviceToken), Sha256(ownerToken), status,
                                         now + c.deviceApprovalTtl, None)),
      session, held)
  }

  function HeldReply(approval: Id, mail: Mail): Reply {
    if mail.MailSent? then DevicePending(approval) else Refused(503)
  }

  // -------------------------------------------------------------- handlers

  /** `/sign-in`: a password session at aal1; `accepted` is the password check. */
  function SignIn(c: Config, s: State, x: Ctx, user: Id, accepted: bool, session: Id,
                  refresh: Token): (r: (State, Reply))
    ensures r.0.users == s.users
  {
    if user !in s.users || !accepted then (s, Refused(401))
    else if !MayLogIn(x) || x.reviewer then (s, Refused(403))
    else
      (WithSession(s, session, Session(user, Sha256(refresh), ACTIVE, AAL1, OFFICE, 0, x.now + c.refreshTtl)),
       Issued(session, refresh))
  }

  /** A registered identity; registration also opens its first session. */
  function Register(c: Config, s: State, x: Ctx, user: Id, session: Id, refresh: Token): (State, Reply) {
    if user in s.users then (s, Refused(409))
    else
      (WithSession(WithUser(s, user, User(false, None)), session,
                   Session(user, Sha256(refresh), ACTIVE, AAL1, OFFICE, 0, x.now + c.refreshTtl)),
       Issued(session, refresh))
  }

  /** `/email-otp/challenges/{id}/verify` once the code itself was accepted. */
  function VerifyEmailOtp(
    c: Config, s: State, x: Ctx, user: Id, reviewer: bool, device: DeviceClaim, mail: Mail,
    session: Id, refresh: Token, approval: Id, deviceToken: Token, ownerToken: Token): (r: (State, Reply))
    ensures r.0.users == s.users
  {
    if user !in s.users then (s, Refused(404))
    else
      var begun := WithSession(s, session,
        Session(user, Sha256(refresh), ACTIVE, AAL2, AUTHENTICATOR_ACTIVATION, 0, x.now + c.mobileRefreshTtl));
      if reviewer then
        var until := x.now + c.mobileRefreshTtl;
        var bound := begun.(approvals := RevokeTrusted(s.approvals, user, None, x.now),
                             activations := CancelReplaced(s.approvals, s.activations, user, None, false));
        (Log(WithApproval(bound, approval,
                          Approval(user, session, Sha256(deviceToken), Sha256(ownerToken), Trusted, until, Some(until))),
             EmailVerified(session, user, Reviewer(approval))),
         Issued(session, refresh))
      else if KnownDevice(s, user, device, x.now) then
        (Log(begun, EmailVerified(session, user, Known(device.approval))), Issued(session, refresh))
      else
        var marked := MarkLapsed(begun, user, device, x.now);
        (Log(HoldForApproval(c, marked, x.now, session, approval, deviceToken, ownerToken, mail),
             EmailVerified(session, user, Held)),
         HeldReply(approval, mail))
  }

  ghost predicate OpenQr(s: State, session: Id, id: Id) {
    id in s.qrs && s.qrs[id].session == session && (s.qrs[id].status == QrPending || s.qrs[id].status == QrScanned)
  }

  /** `/qr-signins`. */
  ghost function CreateQr(
    c: Config, s: State, x: Ctx, claims: Option<Claims>, qr: Id, browserProof: Token, scanToken: Token): (r: (State, Reply))
    ensures r.0.users == s.users
  {
    var refusal := Authenticate(s, x, claims, false, {OFFICE});
    if refusal.Some? then (s, Refused(refusal.value))
    else
      var sid := claims.value.session;
      var row := s.sessions[sid];
      if row.aal != AAL1 || !s.users[row.user].enrolled then (s, Refused(409))
      else
        var cleared := map id | id in s.qrs :: if OpenQr(s, sid, id) then s.qrs[id].(status := QrRevoked) else s.qrs[id];
        (WithQr(s.(qrs := cleared), qr,
                Qr(row.user, sid, Sha256(browserProof), Sha256(scanToken), QrPending, None, x.now + c.qrTtl)),
         Accepted)
  }

  predicate HoldsBrowserProof(s: State, qr: Id, proof: Token) {
    qr in s.qrs && s.qrs[qr].browserHash == Sha256(proof)
  }

  /** `/qr-signins/status`. */
  function ReadQr(s: State, x: Ctx, qr: Id, proof: Token): (r: (State, Reply))
    ensures r.0.users == s.users
  {
    if !HoldsBrowserProof(s, qr, proof) then (s, Refused(404))
    else if QrLapsed(s.qrs[qr], x.now) then (SetQr(s, qr, QrExpired), Accepted)
    else (s, Accepted)
  }

  /** `/qr-signins/cancel`. */
  function CancelQr(s: State, qr: Id, proof: Token): (r: (State, Reply))
    ensures r.0.users == s.users
  {
    if !HoldsBrowserProof(s, qr, proof) then (s, Refused(404))
    else if s.qrs[qr].status == QrPending || s.qrs[qr].status == QrScanned then (SetQr(s, qr, QrRevoked), Accepted)
    else (s, Accepted)
  }

  /** `_qr_scanner_context`; refusing rolls the lapse mark back. */
  function ScannerRefusal(s: State, x: Ctx, claims: Option<Claims>, device: DeviceClaim): Option<nat> {
    var refusal := Authenticate(s, x, claims, true, {AUTHENTICATOR_ACTIVATION});
    if refusal.Some? then refusal
    else if !KnownDevice(s, claims.value.user, device, x.now) then Some(403)
    else None
  }

  predicate AwaitingFactor(s: State, session: Id) {
    session in s.sessions && s.sessions[session].status == ACTIVE && s.sessions[session].aal == AAL1
  }

  /** `/qr-signins/scan`. */
  function ScanQr(s: State, x: Ctx, claims: Option<Claims>, device: DeviceClaim, qr: Id,
                  scanToken: Token): (r: (State, Reply))
    ensures r.0.users == s.users
  {
    var refusal := ScannerRefusal(s, x, claims, device);
    if refusal.Some? then (s, Refused(refusal.value))
    else if qr !in s.qrs || s.qrs[qr].scanHash != Sha256(scanToken) then (s, Refused(404))
    else
      var row := s.qrs[qr];
      if QrLapsed(row, x.now) then (SetQr(s, qr, QrExpired), Refused(410))
      else if row.user != claims.value.user then (s, Refused(404))
      else if !AwaitingFactor(s, row.session) || s.sessions[row.session].purpose != OFFICE then
        (SetQr(s, qr, QrRevoked), Refused(409))
      else if row.status != QrPending then (s, Refused(409))
      else
        (Log(WithQr(s, qr, row.(status := QrScanned, scannedBy := Some(device.approval))),
             Scanned(qr, row.session, device.approval)),
         Accepted)
  }

  /** `/qr-signins/decision`. */
  function DecideQr(s: State, x: Ctx, claims: Option<Claims>, device: DeviceClaim, qr: Id,
                    approve: bool): (r: (State, Reply))
    ensures r.0.users == s.users
  {
    var refusal := ScannerRefusal(s, x, claims, device);
    if refusal.Some? then (s, Refused(refusal.value))
    else if qr !in s.qrs || s.qrs[qr].user != claims.value.user then (s, Refused(404))
    else
      var row := s.qrs[qr];
      if QrLapsed(row, x.now) then (SetQr(s, qr, QrExpired), Refused(410))
      else if row.status != QrScanned || row.scannedBy != Some(device.approval) then (s, Refused(409))
      else if approve then
        (Log(SetQr(s, qr, QrApproved), Approved(qr, row.session, device.approval)), Accepted)
      else if AwaitingFactor(s, row.session) then
        (WithSession(SetQr(s, qr, QrRejected), row.session, Revoked(s.sessions[row.session])), Accepted)
      else (SetQr(s, qr, QrRejected), Accepted)
  }

  /** `/qr-signins/complete`. */
  function CompleteQr(s: State, x: Ctx, qr: Id, proof: Token): (r: (State, Reply))
    ensures r.0.users == s.users
  {
    if !HoldsBrowserProof(s, qr, proof) then (s, Refused(404))
    else
      var row := s.qrs[qr];
      var found := row.session in s.sessions && row.user in s.users;
      if QrLapsed(row, x.now) then (SetQr(s, qr, QrExpired), Refused(410))
      else if row.status == QrConsumed then
        if !found || s.sessions[row.session].status != ACTIVE || s.sessions[row.session].aal != AAL2
        then (s, Refused(409)) else (s, Accepted)
      else if row.status != QrApproved then (s, Refused(409))
      else if !found || !AwaitingFactor(s, row.session) || s.sessions[row.session].purpose != OFFICE then
        (SetQr(s, qr, QrRevoked), Refused(409))
      else if !x.active || !x.roles then
        (WithSession(SetQr(s, qr, QrRevoked), row.session, Revoked(s.sessions[row.session])), Refused(403))
      else
        (Log(WithSession(SetQr(s, qr, QrConsumed), row.session, s.sessions[row.session].(aal := AAL2)),
             Completed(qr, row.session)),
         Accepted)
  }

  /** The trusted device that a given session itself was approved on. */
  ghost predicate OwnTrustedDevice(s: State, session: Id, user: Id, device: Id) {
    && device in s.approvals && s.approvals[device].user == user && s.approvals[device].session == session
    && s.approvals[device].status == Trusted
  }

  /** `/authenticator/activation-requests`. */
  ghost function RequestActivation(
    c: Config, s: State, x: Ctx, claims: Option<Claims>, activation: Id, claimToken: Token): (r: (State, Reply))
    ensures r.0.users == s.users
  {
    var refusal := Authenticate(s, x, claims, true, {AUTHENTICATOR_ACTIVATION});
    if refusal.Some? then (s, Refused(refusal.value))
    else
      var sid, user := claims.value.session, claims.value.user;
      if !exists d :: OwnTrustedDevice(s, sid, user, d) then (s, Refused(409))
      else
        var device :| OwnTrustedDevice(s, sid, user, device);
        if TrustLapsed(s.approvals[device], x.now) then (s, Refused(409))
        else
          (WithActivation(s.(activations := CancelLive(s.activations, user, None, None)), activation,
                          Activation(user, sid, device, Sha256(claimToken), Live, x.now + c.activationTtl)),
           Accepted)
  }

  /** The session/device re-check made under lock in the claim. */
  predicate ActivationStillBound(s: State, row: Activation, now: Time) {
    && row.session in s.sessions && row.device in s.approvals
    && s.sessions[row.session].user == row.user
    && s.approvals[row.device].user == row.user
    && s.approvals[row.device].session == row.session
    && s.sessions[row.session].status == ACTIVE
    && s.sessions[row.session].aal == AAL2
    && s.sessions[row.session].purpose == AUTHENTICATOR_ACTIVATION
    && s.approvals[row.device].status == Trusted
    && !TrustLapsed(s.approvals[row.device], now)
  }

  /** `/authenticator/activation-requests/{id}/claim`. */
  function ClaimActivation(s: State, x: Ctx, activation: Id, claimToken: Token): (State, Reply) {
    if activation !in s.activations || s.activations[activation].claimHash != Sha256(claimToken) then (s, Refused(404))
    else
      var row := s.activations[activation];
      if row.status == Live && row.expiresAt <= x.now then
        (WithActivation(s, activation, row.(status := ActivationExpired)), Refused(410))
      else if row.status != Live then (s, Refused(409))
      else if !ActivationStillBound(s, row, x.now) || row.user !in s.users || !MayLogIn(x) then
        (WithActivation(s, activation, row.(status := Cancelled)), Refused(409))
      else
        (Log(WithUser(WithActivation(s, activation, row.(status := Claimed)), row.user, User(true, None)),
             FactorRotated(row.user, activation)),
         Accepted)
  }

  /** `/sessions/{id}/revoke`. */
  function RevokeSession(s: State, x: Ctx, claims: Option<Claims>, target: Id): (r: (State, Reply))
    ensures r.0.users == s.users
  {
    var refusal := Authenticate(s, x, claims, true, {OFFICE});
    if refusal.Some? then (s, Refused(refusal.value))
    else if target == claims.value.session then (s, Refused(409))
    else if target !in s.sessions || s.sessions[target].user != claims.value.user || s.sessions[target].purpose != OFFICE
    then (s, Refused(404))
    else if s.sessions[target].status == ACTIVE then (WithSession(s, target, Revoked(s.sessions[target])), Accepted)
    else (s, Accepted)
  }

  /** `/password`; `accepted` is the outcome of the password checks. */
  function ChangePassword(s: State, x: Ctx, claims: Option<Claims>, accepted: bool): (r: (State, Reply))
    ensures r.0.users == s.users
  {
    var refusal := Authenticate(s, x, claims, true, {OFFICE});
    if refusal.Some? then (s, Refused(refusal.value))
    else if !accepted then (s, Refused(400))
    else
      var user := claims.value.user;
      (s.(sessions := RevokeActive(s.sessions, user, Some(claims.value.session)),
          activations := CancelLive(s.activations, user, None, None)),
       Accepted)
  }

  /** `/recovery/password`, and the issue of a recovery link: every ACTIVE session
      ends and every unused activation with it. */
  function CloseAccount(s: State, user: Id): State {
    s.(sessions := RevokeActive(s.sessions, user, None), activations := CancelLive(s.activations, user, None, None))
  }

  function RecoverPassword(s: State, user: Id, accepted: bool): (r: (State, Reply))
    ensures r.0.users == s.users
  {
    if user !in s.users then (s, Refused(404))
    else if !accepted then (s, Refused(400))
    else (CloseAccount(s, user), Accepted)
  }

  /** `/users/{id}/recovery-link`; `permitted` stands for the delegation rules. */
  function IssueRecovery(s: State, x: Ctx, claims: Option<Claims>, user: Id, permitted: bool): (r: (State, Reply))
    ensures r.0.users == s.users
  {
    var refusal := Authenticate(s, x, claims, true, {OFFICE});
    if refusal.Some? then (s, Refused(refusal.value))
    else if user == claims.value.user then (s, Refused(409))
    else if user !in s.users then (s, Refused(404))
    else if !permitted then (s, Refused(403))
    else (CloseAccount(s, user), Accepted)
  }

  function RemoveFactor(s: State, user: Id): State {
    Log(WithUser(CloseAccount(s, user), user, User(false, None)), FactorRemoved(user))
  }

  /** `/users/{id}/mfa-reset`. */
  function ResetMfa(s: State, x: Ctx, claims: Option<Claims>, user: Id, permitted: bool): (State, Reply) {
    var refusal := Authenticate(s, x, claims, true, {OFFICE});
    if refusal.Some? then (s, Refused(refusal.value))
    else if user == claims.value.user then (s, Refused(409))
    else if user !in s.users then (s, Refused(404))
    else if !permitted then (s, Refused(403))
    else (RemoveFactor(s, user), Accepted)
  }

  /** `/founder/recovery-link`; `keyAccepted` is the break-glass key check. */
  function BreakGlass(s: State, founder: Id, keyAccepted: bool): (State, Reply) {
    if !keyAccepted then (s, Refused(403))
    else if founder !in s.users then (s, Refused(404))
    else (RemoveFactor(s, founder), Accepted)
  }

  predicate HoldsRefresh(s: State, token: Token, session: Id) {
    session in s.sessions && s.sessions[session].refreshHash == Sha256(token)
  }

  /** `/refresh`, once the row has been found by the hash of the presented token. */
  function RefreshRow(s: State, x: Ctx, id: Id, token: Token, replacement: Token): (r: (State, Reply))
    requires id in s.sessions
    ensures r.0.users == s.users
  {
    var row := s.sessions[id];
    if row.status != ACTIVE || row.expiresAt <= x.now then (s, Refused(401))
    else if row.user !in s.users || !MayLogIn(x) then (s, Refused(403))
    else
      (Log(WithSession(s, id, row.(refreshHash := Sha256(replacement))), RefreshAccepted(id, token)),
       Issued(id, replacement))
  }

  /** `/refresh`. */
  ghost function Refresh(s: State, x: Ctx, token: Token, replacement: Token): (r: (State, Reply))
    ensures r.0.users == s.users
  {
    if !exists id :: HoldsRefresh(s, token, id) then (s, Refused(401))
    else
      var id :| HoldsRefresh(s, token, id);
      RefreshRow(s, x, id, token, replacement)
  }

  /** `/sign-out`. */
  function SignOut(s: State, x: Ctx, claims: Option<Claims>): (r: (State, Reply))
    ensures r.0.users == s.users
  {
    var refusal := Authenticate(s, x, claims, false, {OFFICE, AUTHENTICATOR_ACTIVATION});
    if refusal.Some? then (s, Refused(refusal.value))
    else
      var id := claims.value.session;
      (WithSession(s.(activations := CancelLive(s.activations, claims.value.user, Some(id), None)),
                   id, Revoked(s.sessions[id])),
       Accepted)
  }

  /** After an accepted code: a known browser goes on, any other is held for the mailbox. */
  function AdmitBrowser(
    c: Config, s: State, x: Ctx, sid: Id, user: Id, counter: nat, device: DeviceClaim, mail: Mail,
    approval: Id, deviceToken: Token, ownerToken: Token): (r: (State, Reply))
    requires sid in s.sessions
    ensures sid in r.0.sessions && r.0.sessions[sid].refreshHash == s.sessions[sid].refreshHash
    ensures r.0 == s.(sessions := s.sessions[sid := r.0.sessions[sid]], approvals := r.0.approvals, log := r.0.log)
    ensures exists basis :: r.0.log == s.log + [TotpAccepted(sid, user, counter, basis)]
  {
    if !c.deviceApprovalRequired then (Log(s, TotpAccepted(sid, user, counter, ApprovalOff)), Accepted)
    else if KnownDevice(s, user, device, x.now) then
      (Log(s, TotpAccepted(sid, user, counter, Known(device.approval))), Accepted)
    else
      var marked := MarkLapsed(s, user, device, x.now);
      (Log(HoldForApproval(c, marked, x.now, sid, approval, deviceToken, ownerToken, mail), TotpAccepted(sid, user, counter, Held)),
       HeldReply(approval, mail))
  }

  /** `/mfa/verify`; `matched` is `_matching_totp_counter` on the user's current factor. */
  function VerifyMfa(
    c: Config, s: State, x: Ctx, claims: Option<Claims>, matched: Option<nat>, device: DeviceClaim, mail: Mail,
    approval: Id, deviceToken: Token, ownerToken: Token): (State, Reply)
  {
    var refusal := Authenticate(s, x, claims, false, {OFFICE});
    if refusal.Some? then (s, Refused(refusal.value))
    else
      var sid, user := claims.value.session, claims.value.user;
      var row, who := s.sessions[sid], s.users[user];
      if !who.enrolled || row.aal == AAL2 then (s, Refused(409))
      else if matched.None? then
        var counted := row.(failed := row.failed + 1);
        if counted.failed >= c.mfaMaxFailed then (WithSession(s, sid, Revoked(counted)), Refused(429))
        else (WithSession(s, sid, counted), Refused(400))
      else if who.lastCounter.Some? && matched.value <= who.lastCounter.value then (s, Refused(400))
      else
        var promoted := WithUser(WithSession(s, sid, row.(aal := AAL2, failed := 0)),
                                 user, who.(lastCounter := Some(matched.value)));
        AdmitBrowser(c, promoted, x, sid, user, matched.value, device, mail, approval, deviceToken, ownerToken)
  }

  predicate HoldsOwnerToken(s: State, approval: Id, token: Token) {
    approval in s.approvals && s.approvals[approval].ownerHash == Sha256(token)
  }

  predicate HoldsDeviceProof(s: State, approval: Id, proof: Token) {
    approval in s.approvals && s.approvals[approval].deviceHash == Sha256(proof)
  }

  /** `/device-approvals/{id}/review`. */
  function ReviewDevice(s: State, x: Ctx, approval: Id, ownerToken: Token): (r: (State, Reply))
    ensures r.0.users == s.users
  {
    if !HoldsOwnerToken(s, approval, ownerToken) then (s, Refused(404))
    else if ApprovalLapsed(s.approvals[approval], x.now) then (ExpireApproval(s, approval), Refused(410))
    else if s.approvals[approval].status != ApprovalPending && s.approvals[approval].status != ApprovalApproved
    then (s, Refused(404))
    else (s, Accepted)
  }

  /** `/device-approvals/{id}/action`. */
  function DecideDevice(s: State, x: Ctx, approval: Id, ownerToken: Token, approve: bool): (r: (State, Reply))
    ensures r.0.users == s.users
  {
    if !HoldsOwnerToken(s, approval, ownerToken) then (s, Refused(404))
    else
      var row := s.approvals[approval];
      if ApprovalLapsed(row, x.now) then (ExpireApproval(s, approval), Refused(410))
      else if row.status != ApprovalPending then (s, Refused(409))
      else if approve then
        (Log(WithApproval(s, approval, row.(status := ApprovalApproved)), MailboxApproved(approval, row.session)), Accepted)
      else (CloseHeld(WithApproval(s, approval, row.(status := ApprovalDeclined)), row.session), Accepted)
  }

  /** `/device-approvals/status`. */
  function ReadDevice(s: State, x: Ctx, approval: Id, proof: Token): (r: (State, Reply))
    ensures r.0.users == s.users
  {
    if !HoldsDeviceProof(s, approval, proof) then (s, Refused(404))
    else if ApprovalLapsed(s.approvals[approval], x.now) then (ExpireApproval(s, approval), Accepted)
    else (s, Accepted)
  }

  /** `/device-approvals/revoke`. */
  function RevokeDevice(s: State, x: Ctx, claims: Option<Claims>, approval: Id, proof: Token): (r: (State, Reply))
    ensures r.0.users == s.users
  {
    var refusal := Authenticate(s, x, claims, true, {AUTHENTICATOR_ACTIVATION});
    if refusal.Some? then (s, Refused(refusal.value))
    else if !HoldsDeviceProof(s, approval, proof) then (s, Refused(404))
    else
      var row := s.approvals[approval];
      if row.user != claims.value.user || row.session != claims.value.session || row.status != Trusted
      then (s, Refused(409))
      else
        var untrusted := WithApproval(s, approval, row.(status := ApprovalRevoked, trustedUntil := Some(x.now)));
        (WithSession(untrusted.(activations := CancelLive(s.activations, row.user, Some(row.session), Some(approval))),
                     row.session, Revoked(s.sessions[row.session])),
         Accepted)
  }

  /** The flushed state between revoking the replaced devices and promoting the new one. */
  function ReplaceDevices(s: State, user: Id, spare: Id, now: Time): State {
    s.(approvals := RevokeTrusted(s.approvals, user, Some(spare), now),
       sessions := RevokeReplacedSessions(s.approvals, s.sessions, user, Some(spare)),
       activations := CancelReplaced(s.approvals, s.activations, user, Some(spare), true))
  }

  /** `/device-approvals/complete`. */
  function CompleteDevice(c: Config, s: State, x: Ctx, approval: Id, proof: Token, refresh: Token): (r: (State, Reply))
    ensures r.0.users == s.users
  {
    if !HoldsDeviceProof(s, approval, proof) then (s, Refused(404))
    else
      var row := s.approvals[approval];
      if ApprovalLapsed(row, x.now) then (ExpireApproval(s, approval), Refused(410))
      else
        var found := row.session in s.sessions && row.user in s.users;
        if row.status == Trusted then
          if !found || s.sessions[row.session].status != ACTIVE || s.sessions[row.session].aal != AAL2
             || s.sessions[row.session].expiresAt <= x.now || TrustLapsed(row, x.now)
          then (s, Refused(409))
          else if !x.active || !x.roles then (s, Refused(403))
          else
            (WithSession(s, row.session, s.sessions[row.session].(refreshHash := Sha256(refresh))),
             Issued(row.session, refresh))
        else if row.status != ApprovalApproved then (s, Refused(409))
        else if !found || s.sessions[row.session].status != PENDING_DEVICE_APPROVAL || s.sessions[row.session].aal != AAL2
        then (s, Refused(409))
        else if !x.active || !x.roles then
          (WithSession(s, row.session, Revoked(s.sessions[row.session])), Refused(403))
        else
          var mid := ReplaceDevices(s, row.user, approval, x.now);
          (Log(WithApproval(
                 WithSession(mid, row.session, s.sessions[row.session].(status := ACTIVE, refreshHash := Sha256(refresh))),
                 approval, row.(status := Trusted, trustedUntil := Some(x.now + c.deviceTrustTtl))),
               DeviceCompleted(approval, row.session)),
           Issued(row.session, refresh))
  }
}
