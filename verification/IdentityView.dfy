/** The identity service seen from its rows: which requests are granted, and what makes each
    row of each table move, whatever the request (Backend/backend/identity_auth.py). */
module IdentityView {
  import opened IdentityModel
  import opened IdentityInvariants
  import opened IdentityProtocol

  // ----------------------------------------------------------------- callers

  /** The access token is in term and names an ACTIVE session in term, of its user and for
      its purpose; the user may log in, and a reviewer only on the phone. */
  predicate IsCaller(s: State, x: Ctx, claims: Option<Claims>) {
    && claims.Some? && x.now < claims.value.expiresAt
    && claims.value.user in s.users && claims.value.session in s.sessions
    && var row := s.sessions[claims.value.session];
    && row.user == claims.value.user && row.purpose == claims.value.purpose && row.status == ACTIVE && x.now < row.expiresAt
    && x.active && (if x.reviewer then row.purpose == AUTHENTICATOR_ACTIVATION else x.roles)
  }

  predicate IsOffice(s: State, x: Ctx, claims: Option<Claims>, aal: Assurance) {
    && IsCaller(s, x, claims) && s.sessions[claims.value.session].purpose == OFFICE
    && s.sessions[claims.value.session].aal == aal
  }

  predicate IsPhone(s: State, x: Ctx, claims: Option<Claims>) {
    && IsCaller(s, x, claims) && s.sessions[claims.value.session].purpose == AUTHENTICATOR_ACTIVATION
    && s.sessions[claims.value.session].aal == AAL2
  }

  /** The device belongs to the user, is trusted, and its trust runs on. */
  predicate IsTrusted(s: State, user: Id, device: Id, now: Time) {
    && device in s.approvals && s.approvals[device].user == user && s.approvals[device].status == Trusted
    && s.approvals[device].trustedUntil.Some? && now < s.approvals[device].trustedUntil.value
  }

  predicate IsKnown(s: State, user: Id, d: DeviceClaim, now: Time) {
    d.Device? && IsTrusted(s, user, d.approval, now) && s.approvals[d.approval].deviceHash == Sha256(d.proof)
  }

  /** A phone whose device is trusted, as scanner of codes. */
  predicate IsScanner(s: State, x: Ctx, claims: Option<Claims>, d: DeviceClaim) {
    IsPhone(s, x, claims) && IsKnown(s, claims.value.user, d, x.now)
  }

  // ------------------------------------------------------------------- codes

  /** A code of an enrolled user on an Office session at aal1. */
  predicate IsCode(s: State, e: Event) {
    && e.request.Totp? && IsOffice(s, e.ctx, e.request.claims, AAL1) && s.users[e.request.claims.value.user].enrolled
  }

  predicate IsWrongCode(s: State, e: Event, session: Id) {
    IsCode(s, e) && e.request.claims.value.session == session && e.request.matched.None?
  }

  /** It matches a step later than the last one accepted. */
  predicate IsGoodCode(s: State, e: Event, session: Id) {
    && IsCode(s, e) && e.request.claims.value.session == session && e.request.matched.Some?
    && var last := s.users[e.request.claims.value.user].lastCounter;
    && (last.None? || last.value < e.request.matched.value)
  }

  /** The browser needs no approval from the mailbox. */
  predicate GoesOn(c: Config, s: State, e: Event)
    requires e.request.Totp? && e.request.claims.Some?
  {
    !c.deviceApprovalRequired || IsKnown(s, e.request.claims.value.user, e.request.device, e.ctx.now)
  }

  // --------------------------------------------------------------- approvals

  /** Still to be decided or completed, and out of time. */
  predicate IsLate(s: State, a: Id, now: Time) {
    && a in s.approvals && s.approvals[a].expiresAt <= now
    && (s.approvals[a].status == ApprovalPending || s.approvals[a].status == ApprovalApproved)
  }

  /** The request shows the secret of the mailbox or of the device for this approval. */
  predicate Shows(s: State, e: Event, a: Id) {
    a in s.approvals &&
    match e.request
    case DeviceReview(id, proof) => id == a && s.approvals[a].ownerHash == Sha256(proof)
    case DeviceDecide(id, proof, _) => id == a && s.approvals[a].ownerHash == Sha256(proof)
    case DeviceStatusOf(id, proof) => id == a && s.approvals[a].deviceHash == Sha256(proof)
    case DeviceComplete(id, proof) => id == a && s.approvals[a].deviceHash == Sha256(proof)
    case _ => false
  }

  /** It finds the approval late, which closes it. */
  predicate FindsLate(s: State, e: Event, a: Id) { Shows(s, e, a) && IsLate(s, a, e.ctx.now) }

  predicate Decides(s: State, e: Event, a: Id, approve: bool) {
    && Shows(s, e, a) && e.request.DeviceDecide? && e.request.approve == approve
    && s.approvals[a].status == ApprovalPending && e.ctx.now < s.approvals[a].expiresAt
  }

  /** An approved and timely approval is presented for its held session. */
  predicate Presents(s: State, e: Event, a: Id) {
    && Shows(s, e, a) && e.request.DeviceComplete? && s.approvals[a].status == ApprovalApproved && e.ctx.now < s.approvals[a].expiresAt
    && s.approvals[a].user in s.users && s.approvals[a].session in s.sessions
    && s.sessions[s.approvals[a].session].status == PENDING_DEVICE_APPROVAL && s.sessions[s.approvals[a].session].aal == AAL2
  }

  predicate Completes(s: State, e: Event, a: Id) { Presents(s, e, a) && e.ctx.active && e.ctx.roles }

  /** A completed approval is presented again while it and its session stand. */
  predicate CompletesAgain(s: State, e: Event, a: Id) {
    && Shows(s, e, a) && e.request.DeviceComplete? && IsTrusted(s, s.approvals[a].user, a, e.ctx.now)
    && s.approvals[a].user in s.users && s.approvals[a].session in s.sessions
    && var row := s.sessions[s.approvals[a].session];
    && row.status == ACTIVE && row.aal == AAL2 && e.ctx.now < row.expiresAt && e.ctx.active && e.ctx.roles
  }

  /** The phone gives up its own device. */
  predicate GivesUp(s: State, e: Event, a: Id) {
    && e.request.DeviceRevoke? && e.request.approval == a && IsPhone(s, e.ctx, e.request.claims)
    && a in s.approvals && s.approvals[a].deviceHash == Sha256(e.request.proof) && s.approvals[a].status == Trusted
    && s.approvals[a].user == e.request.claims.value.user && s.approvals[a].session == e.request.claims.value.session
  }

  /** A mailbox code is accepted for a user on record. */
  predicate IsMailboxCode(s: State, e: Event) { e.request.VerifyEmailCode? && e.request.user in s.users }

  /** Another device takes the place of this trusted one. */
  predicate Replaces(s: State, e: Event, a: Id) {
    && a in s.approvals && s.approvals[a].status == Trusted
    && ((IsMailboxCode(s, e) && e.request.reviewer && s.approvals[a].user == e.request.user)
        || (e.request.DeviceComplete? && e.request.approval != a && Completes(s, e, e.request.approval)
            && s.approvals[e.request.approval].user == s.approvals[a].user))
  }

  /** A sign-in names this trusted device of its user, and finds its trust lapsed. */
  predicate FindsLapsed(c: Config, s: State, e: Event, a: Id) {
    && a in s.approvals && s.approvals[a].status == Trusted && !IsTrusted(s, s.approvals[a].user, a, e.ctx.now)
    && ((IsMailboxCode(s, e) && !e.request.reviewer && e.request.device.Device? && e.request.device.approval == a
         && e.request.user == s.approvals[a].user)
        || (e.request.Totp? && e.request.claims.Some? && IsGoodCode(s, e, e.request.claims.value.session) && c.deviceApprovalRequired
            && e.request.device.Device? && e.request.device.approval == a && e.request.claims.value.user == s.approvals[a].user))
  }

  function ApprovalAfter(c: Config, s: State, e: Event, a: Id): Approval
    requires a in s.approvals
  {
    var row, now := s.approvals[a], e.ctx.now;
    if FindsLate(s, e, a) || FindsLapsed(c, s, e, a) then row.(status := ApprovalExpired)
    else if Decides(s, e, a, true) then row.(status := ApprovalApproved)
    else if Decides(s, e, a, false) then row.(status := ApprovalDeclined)
    else if Completes(s, e, a) then row.(status := Trusted, trustedUntil := Some(now + c.deviceTrustTtl))
    else if GivesUp(s, e, a) || Replaces(s, e, a) then row.(status := ApprovalRevoked, trustedUntil := Some(now))
    else row
  }

  // ---------------------------------------------------------------- accounts

  /** The request ends the ACTIVE sessions of the user, all or all but one. */
  predicate Closes(s: State, e: Event, user: Id) {
    match e.request
    case NewPassword(claims, accepted) => accepted && IsOffice(s, e.ctx, claims, AAL2) && claims.value.user == user
    case Recover(u, accepted) => accepted && u == user && user in s.users
    case RecoveryLink(claims, u, permitted) =>
      permitted && u == user && user in s.users && IsOffice(s, e.ctx, claims, AAL2) && claims.value.user != user
    case FactorReset(claims, u, permitted) =>
      permitted && u == user && user in s.users && IsOffice(s, e.ctx, claims, AAL2) && claims.value.user != user
    case FounderRecovery(u, keyAccepted) => keyAccepted && u == user && user in s.users
    case _ => false
  }

  predicate SignsOut(s: State, e: Event, session: Id) {
    e.request.SignOutOf? && IsCaller(s, e.ctx, e.request.claims) && e.request.claims.value.session == session
  }

  /** An Office session of the caller, other than his own. */
  predicate EndsOther(s: State, e: Event, session: Id) {
    && e.request.EndSession? && e.request.target == session && IsOffice(s, e.ctx, e.request.claims, AAL2)
    && session in s.sessions && session != e.request.claims.value.session
    && s.sessions[session].user == e.request.claims.value.user && s.sessions[session].purpose == OFFICE
  }

  // ---------------------------------------------------------------- QR codes

  /** The browser session of the code still waits for its factor. */
  predicate IsWaiting(s: State, q: Id) {
    && q in s.qrs && s.qrs[q].session in s.sessions
    && var row := s.sessions[s.qrs[q].session];
    && row.status == ACTIVE && row.aal == AAL1
  }

  predicate IsOpen(row: Qr) { row.status == QrPending || row.status == QrScanned }

  predicate IsStale(s: State, q: Id, now: Time) { q in s.qrs && IsOpen(s.qrs[q]) && s.qrs[q].expiresAt <= now }

  /** The browser that shows the code, or a phone of its user that scanned it, asks about it. */
  predicate Handles(s: State, e: Event, q: Id) {
    q in s.qrs &&
    match e.request
    case QrStatusOf(id, proof) => id == q && s.qrs[q].browserHash == Sha256(proof)
    case QrCancel(id, proof) => id == q && s.qrs[q].browserHash == Sha256(proof)
    case QrComplete(id, proof) => id == q && s.qrs[q].browserHash == Sha256(proof)
    case QrScan(claims, d, id, proof) => id == q && IsScanner(s, e.ctx, claims, d) && s.qrs[q].scanHash == Sha256(proof)
    case QrDecide(claims, d, id, _) => id == q && IsScanner(s, e.ctx, claims, d) && s.qrs[q].user == claims.value.user
    case _ => false
  }

  /** The scan of the user's own code. A stale code is noticed before its user is compared. */
  predicate ScansOwn(s: State, e: Event, q: Id) {
    Handles(s, e, q) && e.request.QrScan? && s.qrs[q].user == e.request.claims.value.user && !IsStale(s, q, e.ctx.now)
  }

  predicate DecidesCode(s: State, e: Event, q: Id, approve: bool) {
    && Handles(s, e, q) && e.request.QrDecide? && e.request.approve == approve && !IsStale(s, q, e.ctx.now)
    && s.qrs[q].status == QrScanned && s.qrs[q].scannedBy == Some(e.request.device.approval)
  }

  /** The browser comes for its approved sign-in. */
  predicate ComesFor(s: State, e: Event, q: Id) { Handles(s, e, q) && e.request.QrComplete? && s.qrs[q].status == QrApproved }

  predicate IsOfficeCode(s: State, q: Id) {
    IsWaiting(s, q) && s.sessions[s.qrs[q].session].purpose == OFFICE
  }

  predicate CompletesCode(s: State, e: Event, q: Id) {
    ComesFor(s, e, q) && IsOfficeCode(s, q) && s.qrs[q].user in s.users && e.ctx.active && e.ctx.roles
  }

  /** The browser shows a new code in place of its open ones. */
  predicate ShowsCode(s: State, e: Event) {
    && e.request.StartQr? && IsOffice(s, e.ctx, e.request.claims, AAL1)
    && s.sessions[e.request.claims.value.session].user in s.users && s.users[s.sessions[e.request.claims.value.session].user].enrolled
  }

  function QrAfter(s: State, e: Event, q: Id): Qr
    requires q in s.qrs
  {
    var row := s.qrs[q];
    if Handles(s, e, q) && IsStale(s, q, e.ctx.now) && !e.request.QrCancel? then row.(status := QrExpired)
    else if Handles(s, e, q) && e.request.QrCancel? && IsOpen(row) then row.(status := QrRevoked)
    else if ShowsCode(s, e) && row.session == e.request.claims.value.session && IsOpen(row) then row.(status := QrRevoked)
    else if ScansOwn(s, e, q) && !IsOfficeCode(s, q) then row.(status := QrRevoked)
    else if ScansOwn(s, e, q) && row.status == QrPending then row.(status := QrScanned, scannedBy := Some(e.request.device.approval))
    else if DecidesCode(s, e, q, true) then row.(status := QrApproved)
    else if DecidesCode(s, e, q, false) then row.(status := QrRejected)
    else if CompletesCode(s, e, q) then row.(status := QrConsumed)
    else if ComesFor(s, e, q) then row.(status := QrRevoked)
    else row
  }

  // ---------------------------------------------------------------- sessions

  /** Everything that makes a session REVOKED. */
  predicate IsEnded(c: Config, s: State, e: Event, id: Id)
    requires id in s.sessions
  {
    var row := s.sessions[id];
    || (IsWrongCode(s, e, id) && row.failed + 1 >= c.mfaMaxFailed)
    || (IsGoodCode(s, e, id) && !GoesOn(c, s, e) && !e.request.mail.MailSent?)
    || SignsOut(s, e, id)
    || (row.status == ACTIVE && (
          || EndsOther(s, e, id)
          || (Closes(s, e, row.user) && !(e.request.NewPassword? && e.request.claims.value.session == id))
          || (e.request.DeviceComplete? && exists a | a in s.approvals :: Replaces(s, e, a) && s.approvals[a].session == id)))
    || (row.status == PENDING_DEVICE_APPROVAL &&
          exists a | a in s.approvals :: s.approvals[a].session == id && (FindsLate(s, e, a) || Decides(s, e, a, false)))
    || (exists a | a in s.approvals :: s.approvals[a].session == id &&
          (GivesUp(s, e, a) || (Presents(s, e, a) && !Completes(s, e, a))))
    || (exists q | q in s.qrs :: s.qrs[q].session == id &&
          ((DecidesCode(s, e, q, false) && IsWaiting(s, q))
           || (ComesFor(s, e, q) && IsOfficeCode(s, q) && s.qrs[q].user in s.users && !CompletesCode(s, e, q))))
  }

  predicate IsHeld(c: Config, s: State, e: Event, id: Id) {
    IsGoodCode(s, e, id) && !GoesOn(c, s, e) && e.request.mail.MailSent?
  }

  predicate IsPromoted(s: State, e: Event, id: Id) {
    e.request.DeviceComplete? && Completes(s, e, e.request.approval) && s.approvals[e.request.approval].session == id
  }

  predicate IsRaised(s: State, e: Event, id: Id) {
    IsGoodCode(s, e, id) || (e.request.QrComplete? && CompletesCode(s, e, e.request.qr) && s.qrs[e.request.qr].session == id)
  }

  /** The session's refresh token is exchanged for the one just drawn. */
  predicate IsRotated(s: State, e: Event, id: Id)
    requires id in s.sessions
  {
    || IsPromoted(s, e, id)
    || (e.request.DeviceComplete? && CompletesAgain(s, e, e.request.approval) && s.approvals[e.request.approval].session == id)
    || (e.request.RefreshWith? && s.sessions[id].refreshHash == Sha256(e.request.proof) && s.sessions[id].status == ACTIVE
        && e.ctx.now < s.sessions[id].expiresAt && s.sessions[id].user in s.users && e.ctx.active && (e.ctx.roles || e.ctx.reviewer))
  }

  function SessionAfter(c: Config, s: State, e: Event, id: Id): Session
    requires id in s.sessions
  {
    var row := s.sessions[id];
    row.(status := if IsEnded(c, s, e, id) then REVOKED
                   else if IsHeld(c, s, e, id) then PENDING_DEVICE_APPROVAL
                   else if IsPromoted(s, e, id) then ACTIVE
                   else row.status,
         aal := if IsRaised(s, e, id) then AAL2 else row.aal,
         failed := if IsWrongCode(s, e, id) then row.failed + 1 else if IsGoodCode(s, e, id) then 0 else row.failed,
         refreshHash := if IsRotated(s, e, id) then Sha256(e.mint.refresh) else row.refreshHash)
  }

  // ------------------------------------------------------------- activations

  /** A trusted phone asks for a claim of its own. */
  ghost predicate Asks(s: State, e: Event, device: Id) {
    && e.request.AskActivation? && IsPhone(s, e.ctx, e.request.claims)
    && IsTrusted(s, e.request.claims.value.user, device, e.ctx.now) && s.approvals[device].session == e.request.claims.value.session
  }

  /** The secret of a live claim is shown. */
  predicate Takes(s: State, e: Event, v: Id) {
    && e.request.Claim? && e.request.activation == v && v in s.activations
    && s.activations[v].claimHash == Sha256(e.request.proof) && s.activations[v].status == Live
  }

  /** The claim's session and device are still what they were. */
  predicate StillStands(s: State, row: Activation, now: Time) {
    && IsTrusted(s, row.user, row.device, now) && s.approvals[row.device].session == row.session
    && row.session in s.sessions && s.sessions[row.session].user == row.user && s.sessions[row.session].status == ACTIVE
    && s.sessions[row.session].aal == AAL2 && s.sessions[row.session].purpose == AUTHENTICATOR_ACTIVATION
  }

  predicate TakesUp(s: State, e: Event, v: Id) {
    && Takes(s, e, v) && e.ctx.now < s.activations[v].expiresAt && StillStands(s, s.activations[v], e.ctx.now)
    && s.activations[v].user in s.users && e.ctx.active && (e.ctx.roles || e.ctx.reviewer)
  }

  /** Everything that cancels a live activation unclaimed. */
  ghost predicate IsCancelled(s: State, e: Event, row: Activation) {
    || Closes(s, e, row.user)
    || (SignsOut(s, e, row.session) && e.request.claims.value.user == row.user)
    || (exists d :: Asks(s, e, d) && e.request.claims.value.user == row.user)
    || (GivesUp(s, e, row.device) && s.approvals[row.device].user == row.user && s.approvals[row.device].session == row.session)
    || (Replaces(s, e, row.device) && s.approvals[row.device].user == row.user
        && (e.request.DeviceComplete? ==> s.approvals[row.device].session == row.session))
  }

  ghost function ActivationAfter(s: State, e: Event, v: Id): Activation
    requires v in s.activations
  {
    var row := s.activations[v];
    if row.status != Live then row
    else if TakesUp(s, e, v) then row.(status := Claimed)
    else if Takes(s, e, v) && row.expiresAt <= e.ctx.now then row.(status := ActivationExpired)
    else if Takes(s, e, v) || IsCancelled(s, e, row) then row.(status := Cancelled)
    else row
  }

  // ------------------------------------------------------------------- users

  function UserAfter(s: State, e: Event, user: Id): User
    requires user in s.users
  {
    var row := s.users[user];
    if e.request.Claim? && TakesUp(s, e, e.request.activation) && s.activations[e.request.activation].user == user then User(true, None)
    else if (e.request.FactorReset? || e.request.FounderRecovery?) && Closes(s, e, user) then User(false, None)
    else if e.request.Totp? && e.request.claims.Some? && e.request.claims.value.user == user
      && IsGoodCode(s, e, e.request.claims.value.session)
    then row.(lastCounter := e.request.matched)
    else row
  }

  // ---------------------------------------------------------------- new rows

  /** A session begins: by password, by registration or by a mailbox code. */
  predicate Begins(s: State, e: Event) {
    || (e.request.SignInWith? && e.request.accepted && e.request.user in s.users && e.ctx.active && e.ctx.roles && !e.ctx.reviewer)
    || (e.request.RegisterAs? && e.request.user !in s.users)
    || IsMailboxCode(s, e)
  }

  function NewSession(c: Config, s: State, e: Event): Session
    requires Begins(s, e)
  {
    var user, refresh, now := e.request.user, Sha256(e.mint.refresh), e.ctx.now;
    if !e.request.VerifyEmailCode? then Session(user, refresh, ACTIVE, AAL1, OFFICE, 0, now + c.refreshTtl)
    else
      Session(user, refresh,
              if e.request.reviewer || IsKnown(s, user, e.request.device, now) then ACTIVE
              else if e.request.mail.MailSent? then PENDING_DEVICE_APPROVAL else REVOKED,
              AAL2, AUTHENTICATOR_ACTIVATION, 0, now + c.mobileRefreshTtl)
  }

  /** An approval is drawn: trusted for a reviewer, or to be asked of the mailbox. */
  predicate Draws(c: Config, s: State, e: Event) {
    || (IsMailboxCode(s, e) && (e.request.reviewer || !IsKnown(s, e.request.user, e.request.device, e.ctx.now)))
    || (e.request.Totp? && e.request.claims.Some? && IsGoodCode(s, e, e.request.claims.value.session) && !GoesOn(c, s, e))
  }

  function NewApproval(c: Config, s: State, e: Event): Approval
    requires Draws(c, s, e)
  {
    var user := if e.request.Totp? then e.request.claims.value.user else e.request.user;
    var session := if e.request.Totp? then e.request.claims.value.session else e.mint.id;
    var device, owner := Sha256(e.mint.first), Sha256(e.mint.second);
    if e.request.VerifyEmailCode? && e.request.reviewer then
      Approval(user, session, device, owner, Trusted, e.ctx.now + c.mobileRefreshTtl, Some(e.ctx.now + c.mobileRefreshTtl))
    else
      Approval(user, session, device, owner,
               match e.request.mail case MailSent => ApprovalPending case MailRejected => DeliveryFailed case MailUnknown => DeliveryUnknown,
               e.ctx.now + c.deviceApprovalTtl, None)
  }

  // ------------------------------------------------------------ the row view

  ghost predicate SessionsSay(c: Config, s: State, e: Event, t: State) {
    && (forall id :: id in t.sessions <==> id in s.sessions || (id == e.mint.id && Begins(s, e)))
    && (forall id :: id in s.sessions ==> t.sessions[id] == SessionAfter(c, s, e, id))
    && (Begins(s, e) ==> t.sessions[e.mint.id] == NewSession(c, s, e))
  }

  ghost predicate ApprovalsSay(c: Config, s: State, e: Event, t: State) {
    && (forall a :: a in t.approvals <==> a in s.approvals || (a == e.mint.approval && Draws(c, s, e)))
    && (forall a :: a in s.approvals ==> t.approvals[a] == ApprovalAfter(c, s, e, a))
    && (Draws(c, s, e) ==> t.approvals[e.mint.approval] == NewApproval(c, s, e))
  }

  ghost predicate QrsSay(c: Config, s: State, e: Event, t: State) {
    && (forall q :: q in t.qrs <==> q in s.qrs || (q == e.mint.id && ShowsCode(s, e)))
    && (forall q :: q in s.qrs ==> t.qrs[q] == QrAfter(s, e, q))
    && (ShowsCode(s, e) ==>
          t.qrs[e.mint.id] == Qr(s.sessions[e.request.claims.value.session].user, e.request.claims.value.session, Sha256(e.mint.first),
                                 Sha256(e.mint.second), QrPending, None, e.ctx.now + c.qrTtl))
  }

  ghost predicate ActivationsSay(c: Config, s: State, e: Event, t: State) {
    && (forall v :: v in t.activations <==> v in s.activations || (v == e.mint.id && exists d :: Asks(s, e, d)))
    && (forall v :: v in s.activations ==> t.activations[v] == ActivationAfter(s, e, v))
    && (forall d :: Asks(s, e, d) ==>
          t.activations[e.mint.id] == Activation(e.request.claims.value.user, e.request.claims.value.session, d, Sha256(e.mint.first),
                                                 Live, e.ctx.now + c.activationTtl))
  }

  ghost predicate UsersSay(s: State, e: Event, t: State) {
    && (forall u :: u in t.users <==> u in s.users || (e.request.RegisterAs? && u == e.request.user))
    && (forall u :: u in s.users ==> t.users[u] == UserAfter(s, e, u))
    && (e.request.RegisterAs? && e.request.user !in s.users ==> t.users[e.request.user] == User(false, None))
  }

  // ------------------------------------------------------- granted requests

  ghost predicate IsGranted(c: Config, s: State, e: Event) {
    match e.request
    case SignInWith(_, _) => Begins(s, e)
    case RegisterAs(_) => Begins(s, e)
    case VerifyEmailCode(user, reviewer, device, mail) =>
      IsMailboxCode(s, e) && (reviewer || IsKnown(s, user, device, e.ctx.now) || mail.MailSent?)
    case StartQr(_) => ShowsCode(s, e)
    case QrStatusOf(q, _) => Handles(s, e, q)
    case QrCancel(q, _) => Handles(s, e, q)
    case QrScan(_, _, q, _) => ScansOwn(s, e, q) && IsOfficeCode(s, q) && s.qrs[q].status == QrPending
    case QrDecide(_, _, q, approve) => DecidesCode(s, e, q, approve)
    case QrComplete(q, _) =>
      || CompletesCode(s, e, q)
      || (Handles(s, e, q) && s.qrs[q].status == QrConsumed && s.qrs[q].user in s.users && s.qrs[q].session in s.sessions
          && s.sessions[s.qrs[q].session].status == ACTIVE && s.sessions[s.qrs[q].session].aal == AAL2)
    case AskActivation(_) => exists d :: Asks(s, e, d)
    case Claim(v, _) => TakesUp(s, e, v)
    case EndSession(_, target) => EndsOther(s, e, target)
    case NewPassword(claims, _) => claims.Some? && Closes(s, e, claims.value.user)
    case Recover(user, _) => Closes(s, e, user)
    case RecoveryLink(_, user, _) => Closes(s, e, user)
    case FactorReset(_, user, _) => Closes(s, e, user)
    case FounderRecovery(user, _) => Closes(s, e, user)
    case RefreshWith(_) => exists id :: id in s.sessions && IsRotated(s, e, id)
    case SignOutOf(claims) => claims.Some? && SignsOut(s, e, claims.value.session)
    case Totp(claims, _, _, mail) => claims.Some? && IsGoodCode(s, e, claims.value.session) && (GoesOn(c, s, e) || mail.MailSent?)
    case DeviceReview(a, _) =>
      Shows(s, e, a) && !IsLate(s, a, e.ctx.now) && (s.approvals[a].status == ApprovalPending || s.approvals[a].status == ApprovalApproved)
    case DeviceDecide(a, _, approve) => Decides(s, e, a, approve)
    case DeviceStatusOf(a, _) => Shows(s, e, a)
    case DeviceRevoke(_, a, _) => GivesUp(s, e, a)
    case DeviceComplete(a, _) => Completes(s, e, a) || CompletesAgain(s, e, a)
  }

  /** Granted exactly then, and every table as its rows say. */
  ghost predicate Says(c: Config, s: State, e: Event, t: State, reply: Reply) {
    && (!reply.Refused? <==> IsGranted(c, s, e))
    && SessionsSay(c, s, e, t) && ApprovalsSay(c, s, e, t) && QrsSay(c, s, e, t) && ActivationsSay(c, s, e, t) && UsersSay(s, e, t)
  }
}
