/** The phone's side of a session: rotation, sign-out and lost replies
    (Authenticator/src/activation.ts), against the identity service. */
module AuthenticatorClient {
  import opened IdentityModel
  import opened IdentityInvariants
  import opened IdentityProtocol
  import opened IdentitySafety
  import opened IdentityFollow
  import opened IdentityOnce
  import opened IdentityRows

  /** What the phone keeps in secure storage for its session. */
  datatype Saved = Saved(session: Id, refresh: Token, access: Claims)

  /** What one network call came to: a thrown network error, or a reply with, where
      it carries an access token, the claims of that token. */
  datatype Answer = NoReply | Replied(reply: Reply, access: Claims)

  /** The callback that stores a refreshed session: left out, done, or failed. */
  datatype Storing = NoCallback | Stored | StoreFailed

  datatype Outcome = ServerSignedOut | AlreadyInactive | Thrown

  function Learn(p: Saved, a: Answer): Saved {
    if a.Replied? && a.reply.Issued? then p.(refresh := a.reply.refresh, access := a.access) else p
  }

  class Phone {
    var saved: Saved

    constructor (saved: Saved)
      ensures this.saved == saved
    {
      this.saved := saved;
    }

    /** `signOutAuthenticatorSession`; `asked` lists the requests in the order sent. */
    method SignOut(first: Answer, second: Answer, third: Answer, storing: Storing) returns (o: Outcome,
                                                                                            asked: seq<Request>)
      modifies this
      ensures o == SignOutOutcome(first, second, third, storing)
      ensures asked == SignOutRequests(old(saved), first, second, storing)
      ensures saved == if o != AlreadyInactive && first.Replied? && first.reply == Refused(401) && storing == Stored
                       then Learn(old(saved), second) else old(saved)
    {
      asked := [SignOutOf(Some(saved.access))];
      if first.NoReply? { return Thrown, asked; }
      if first.reply == Accepted { return ServerSignedOut, asked; }
      if first.reply != Refused(401) { return Thrown, asked; }
      asked := asked + [RefreshWith(saved.refresh)];
      if second.NoReply? { return Thrown, asked; }
      if second.reply == Refused(401) { return AlreadyInactive, asked; }
      if !second.reply.Issued? { return Thrown, asked; }
      var refreshed := Learn(saved, second);
      if storing == StoreFailed { return Thrown, asked; }
      if storing == Stored { saved := refreshed; }
      asked := asked + [SignOutOf(Some(refreshed.access))];
      if third.NoReply? || third.reply != Accepted { return Thrown, asked; }
      return ServerSignedOut, asked;
    }
  }

  predicate Got(a: Answer, r: Reply) { a.Replied? && a.reply == r }

  function SignOutOutcome(first: Answer, second: Answer, third: Answer, storing: Storing): Outcome {
    if Got(first, Accepted) then ServerSignedOut
    else if !Got(first, Refused(401)) then Thrown
    else if Got(second, Refused(401)) then AlreadyInactive
    else if second.Replied? && second.reply.Issued? && storing != StoreFailed && Got(third, Accepted) then ServerSignedOut
    else Thrown
  }

  function SignOutRequests(p: Saved, first: Answer, second: Answer, storing: Storing): seq<Request> {
    [SignOutOf(Some(p.access))]
    + (if Got(first, Refused(401)) then [RefreshWith(p.refresh)] else [])
    + (if Got(first, Refused(401)) && second.Replied? && second.reply.Issued? && storing != StoreFailed
       then [SignOutOf(Some(second.access))] else [])
  }

  /** The report, told from what was asked: signed out exactly when a sign-out that was asked
      was accepted, already inactive exactly when the refresh that was asked was answered
      401. The refresh is asked exactly after a 401, and the second sign-out, with the new
      access token, exactly after a refresh whose token was not lost in storing. */
  lemma ReportExactly(p: Saved, first: Answer, second: Answer, third: Answer, storing: Storing)
    ensures var asked, answers, o :=
              SignOutRequests(p, first, second, storing), [first, second, third], SignOutOutcome(first, second, third, storing);
            && 1 <= |asked| <= 3 && asked[0] == SignOutOf(Some(p.access))
            && (o == ServerSignedOut <==> exists m :: 0 <= m < |asked| && asked[m].SignOutOf? && Got(answers[m], Accepted))
            && (o == AlreadyInactive <==> exists m :: 0 <= m < |asked| && asked[m] == RefreshWith(p.refresh) && Got(answers[m], Refused(401)))
            && (|asked| >= 2 ==> asked[1] == RefreshWith(p.refresh)) && (|asked| >= 2 <==> Got(first, Refused(401)))
            && (|asked| == 3 ==> asked[2] == SignOutOf(Some(second.access)))
            && (|asked| == 3 <==> Got(first, Refused(401)) && second.Replied? && second.reply.Issued? && storing != StoreFailed)
  {
    var asked, answers := SignOutRequests(p, first, second, storing), [first, second, third];
    assert Got(answers[0], Accepted) <==> Got(first, Accepted);
    if |asked| >= 2 { assert asked[1] == RefreshWith(p.refresh) && answers[1] == second; }
    if |asked| == 3 { assert asked[2] == SignOutOf(Some(second.access)) && answers[2] == third; }
  }

  // ------------------------------------------------------ the current token

  predicate Current(s: State, p: Saved) {
    p.session in s.sessions && s.sessions[p.session].refreshHash == Sha256(p.refresh)
  }

  /** One step seen from the phone. Whoever presents the session's secrets is the
      phone, so a rotation is its own call, and `delivered` says whether the reply
      came back and was saved. */
  ghost predicate PhoneTurn(c: Config, w: World, e: Event, p: Saved, q: Saved, delivered: bool) {
    var reply := Step(c, w.db, e).1;
    q.session == p.session
    && q.refresh == if Rotates(w.db, e, p.session) && delivered && reply.Issued? then reply.refresh else p.refresh
  }

  /** A step changes the stored token exactly when it answers with the new one. */
  lemma RotationAnswers(c: Config, w: World, e: Event, id: Id)
    requires Once(w) && FreshMint(w, e.mint) && id in w.db.sessions && Rotates(w.db, e, id)
    ensures var (t, reply) := Step(c, w.db, e);
            && id in t.sessions
            && t.sessions[id].refreshHash == (if reply.Issued? then Sha256(reply.refresh) else w.db.sessions[id].refreshHash)
            && (reply.Issued? ==> reply.refresh == e.mint.refresh)
  {
    hide Once, Refresh, CompleteDevice, MayLogIn;
    if e.request.RefreshWith? {
      OneHolder(w, e.request.proof, id);
      RefreshOneAnswers(w.db, e.ctx, e.request.proof, e.mint.refresh, id);
    } else {
      CompletionAnswers(c, w.db, e.ctx, e.request.approval, e.request.proof, e.mint.refresh);
    }
  }

  lemma OneHolder(w: World, token: Token, id: Id)
    requires Once(w) && HoldsRefresh(w.db, token, id)
    ensures forall other :: HoldsRefresh(w.db, token, other) ==> other == id
  {
    hide CountersMatch, Rising, RotationsMatch, Gone;
  }

  lemma RefreshOneAnswers(s: State, x: Ctx, token: Token, replacement: Token, id: Id)
    requires HoldsRefresh(s, token, id) && forall other :: HoldsRefresh(s, token, other) ==> other == id
    ensures Refresh(s, x, token, replacement) == RefreshRow(s, x, id, token, replacement)
  {
    hide RefreshRow;
  }

  lemma CompletionAnswers(c: Config, s: State, x: Ctx, approval: Id, proof: Token, refresh: Token)
    requires HoldsDeviceProof(s, approval, proof) && s.approvals[approval].session in s.sessions
    ensures var (t, reply) := CompleteDevice(c, s, x, approval, proof, refresh);
            var id := s.approvals[approval].session;
            && id in t.sessions
            && t.sessions[id].refreshHash == (if reply.Issued? then Sha256(reply.refresh) else s.sessions[id].refreshHash)
            && (reply.Issued? ==> reply.refresh == refresh)
  {
    hide RevokeTrusted, RevokeReplacedSessions, CancelReplaced, TrustLapsed, ApprovalLapsed;
  }

  /** One step, whatever the phone holds: if the step rotated the session's token, the phone
      is current afterwards exactly when the reply was delivered and saved; if it did not,
      exactly when it was current before. */
  lemma CurrentUnlessLost(c: Config, w: World, e: Event, p: Saved, q: Saved, delivered: bool)
    requires Once(w) && FreshMint(w, e.mint) && PhoneTurn(c, w, e, p, q, delivered)
    requires p.session in w.db.sessions && p.refresh in w.minted
    ensures p.session in Next(c, w, e).db.sessions && q.refresh in Next(c, w, e).minted
    ensures Current(Step(c, w.db, e).0, q)
       <==> if Rotates(w.db, e, p.session) && Step(c, w.db, e).1.Issued? then delivered else Current(w.db, p)
  {
    hide Step, CountersMatch, Rising, RotationsMatch, Gone, Rotates;
    StepOnRow(c, w, e, p.session);
    if Rotates(w.db, e, p.session) {
      RotationAnswers(c, w, e, p.session);
    }
  }

  /** `phones[k]` is what the phone holds in `worlds[k]`. */
  ghost predicate PhoneRun(c: Config, worlds: seq<World>, events: seq<Event>, phones: seq<Saved>,
                           delivered: seq<bool>, from: nat) {
    && |worlds| == |events| + 1 == |phones| && |delivered| == |events|
    && forall k :: from <= k < |events| ==> PhoneTurn(c, worlds[k], events[k], phones[k], phones[k + 1], delivered[k])
  }

  /** The token of the session was rotated at step `k`: its own secret was presented and the
      server answered with a new token. */
  ghost predicate RotatedAt(c: Config, worlds: seq<World>, events: seq<Event>, k: nat, session: Id) {
    k < |events| < |worlds| && Rotates(worlds[k].db, events[k], session) && Step(c, worlds[k].db, events[k]).1.Issued?
  }

  ghost predicate IsLastRotation(c: Config, worlds: seq<World>, events: seq<Event>, k: nat, n: nat, session: Id) {
    && RotatedAt(c, worlds, events, k, session)
    && forall m :: k < m < n ==> !RotatedAt(c, worlds, events, m, session)
  }

  /** The last rotation before `n`, if there was one, reached the phone and was saved. */
  ghost predicate LastRotationSaved(
    c: Config, worlds: seq<World>, events: seq<Event>, delivered: seq<bool>, from: nat, n: nat, session: Id)
    requires n <= |delivered|
  {
    forall k :: from <= k < n && IsLastRotation(c, worlds, events, k, n, session) ==> delivered[k]
  }

  /** Over a whole run from a phone that was current: it holds the server's current token if
      and only if the last rotation was delivered and saved, or there was none, however
      many replies before that one were lost. */
  lemma {:induction false} CurrentExactly(
    c: Config, worlds: seq<World>, events: seq<Event>, phones: seq<Saved>, delivered: seq<bool>, from: nat, n: nat)
    requires IsRun(c, worlds, events) && PhoneRun(c, worlds, events, phones, delivered, from)
    requires from <= n <= |events| && Current(worlds[from].db, phones[from])
    ensures phones[n].session == phones[from].session && phones[n].session in worlds[n].db.sessions
    ensures phones[n].refresh in worlds[n].minted
    ensures Current(worlds[n].db, phones[n])
       <==> LastRotationSaved(c, worlds, events, delivered, from, n, phones[from].session)
    decreases n
  {
    hide Step, IsRun, Once, RotatedAt;
    if from == n {
      RunOnce(c, worlds, events, n);
      HeldIsMinted(worlds[n], phones[n]);
    } else {
      CurrentExactly(c, worlds, events, phones, delivered, from, n - 1);
      RunStep(c, worlds, events, n - 1);
      RunOnce(c, worlds, events, n - 1);
      CurrentUnlessLost(c, worlds[n - 1], events[n - 1], phones[n - 1], phones[n], delivered[n - 1]);
      LastRotation(c, worlds, events, delivered, from, n, phones[from].session);
      RotatedThere(c, worlds, events, n - 1, phones[from].session);
    }
  }

  lemma HeldIsMinted(w: World, p: Saved)
    requires Once(w) && Current(w.db, p)
    ensures p.session in w.db.sessions && p.refresh in w.minted
  {
    hide CountersMatch, Rising, RotationsMatch, Gone;
    assert w.db.sessions[p.session].refreshHash.token in w.minted;
  }

  lemma RotatedThere(c: Config, worlds: seq<World>, events: seq<Event>, k: nat, session: Id)
    requires k < |events| < |worlds|
    ensures RotatedAt(c, worlds, events, k, session)
       <==> Rotates(worlds[k].db, events[k], session) && Step(c, worlds[k].db, events[k]).1.Issued?
  {
    hide Step;
  }

  lemma LastRotation(
    c: Config, worlds: seq<World>, events: seq<Event>, delivered: seq<bool>, from: nat, n: nat, session: Id)
    requires from < n <= |delivered|
    ensures LastRotationSaved(c, worlds, events, delivered, from, n, session)
       <==> if RotatedAt(c, worlds, events, n - 1, session) then delivered[n - 1]
            else LastRotationSaved(c, worlds, events, delivered, from, n - 1, session)
  {
    hide RotatedAt;
  }

  /** If every reply to its rotations is delivered and saved, the phone always holds the server's current token. */
  lemma PhoneStaysCurrent(
    c: Config, worlds: seq<World>, events: seq<Event>, phones: seq<Saved>, delivered: seq<bool>, from: nat, n: nat)
    requires IsRun(c, worlds, events) && PhoneRun(c, worlds, events, phones, delivered, from)
    requires from <= n <= |events| && Current(worlds[from].db, phones[from])
    requires forall k :: from <= k < n && RotatedAt(c, worlds, events, k, phones[from].session) ==> delivered[k]
    ensures Current(worlds[n].db, phones[n]) && phones[n].session == phones[from].session
  {
    hide IsRun, RotatedAt, PhoneTurn;
    CurrentExactly(c, worlds, events, phones, delivered, from, n);
  }

  // ---------------------------------------------------------------- sign-out

  /** The server session has ended, by revocation or by its term. */
  predicate Over(w: World, id: Id) {
    id in w.db.sessions && (w.db.sessions[id].status == REVOKED || w.db.sessions[id].expiresAt <= w.clock)
  }

  predicate Established(s: State, id: Id) {
    && id in s.sessions && s.sessions[id].purpose == AUTHENTICATOR_ACTIVATION
    && s.sessions[id].status != PENDING_DEVICE_APPROVAL
  }

  /** What stays true of a session over a run: its term, its standing, and its end. */
  lemma {:induction false} SessionGoesOn(c: Config, worlds: seq<World>, events: seq<Event>, i: nat, j: nat, id: Id)
    requires IsRun(c, worlds, events) && i <= j <= |events| && |worlds| == |events| + 1
    requires id in worlds[i].db.sessions
    ensures id in worlds[j].db.sessions && worlds[i].clock <= worlds[j].clock
    ensures worlds[j].db.sessions[id].expiresAt == worlds[i].db.sessions[id].expiresAt
    ensures Established(worlds[i].db, id) ==> Established(worlds[j].db, id)
    ensures Over(worlds[i], id) ==> Over(worlds[j], id)
    decreases j
  {
    hide Step, IsRun, Rotates;
    if i < j {
      SessionGoesOn(c, worlds, events, i, j - 1, id);
      RunStep(c, worlds, events, j - 1);
      StepOnRow(c, worlds[j - 1], events[j - 1], id);
      RunEvolves(c, worlds, events, j - 1, j);
      assert SessionEvolves(worlds[j - 1].db.sessions[id], worlds[j].db.sessions[id]);
    }
  }

  /** The token is still current if nobody presented the session's secrets meanwhile. */
  lemma {:induction false} CurrentIfUnused(c: Config, worlds: seq<World>, events: seq<Event>, i: nat, j: nat, p: Saved)
    requires IsRun(c, worlds, events) && i <= j <= |events| && |worlds| == |events| + 1
    requires Current(worlds[i].db, p)
    requires forall k :: i <= k < j ==> !Rotates(worlds[k].db, events[k], p.session)
    ensures Current(worlds[j].db, p)
    decreases j
  {
    hide Step, IsRun, Rotates;
    if i < j {
      CurrentIfUnused(c, worlds, events, i, j - 1, p);
      RunStep(c, worlds, events, j - 1);
      StepOnRow(c, worlds[j - 1], events[j - 1], p.session);
    }
  }

  lemma SignOutRevokes(c: Config, s: State, e: Event)
    requires e.request.SignOutOf? && Step(c, s, e).1 == Accepted
    ensures e.request.claims.Some? && e.request.claims.value.session in Step(c, s, e).0.sessions
    ensures Step(c, s, e).0.sessions[e.request.claims.value.session].status == REVOKED
  {
    hide CancelLive, MayLogIn;
  }

  /** For the phone's own token, `/refresh` answers 401 exactly when the token is not
      current, or the session is not ACTIVE, or its term is over. */
  lemma UnauthorizedExactly(s: State, x: Ctx, p: Saved, replacement: Token)
    requires p.session in s.sessions
    requires forall other :: HoldsRefresh(s, p.refresh, other) ==> other == p.session
    ensures Refresh(s, x, p.refresh, replacement).1 == Refused(401)
       <==> (!Current(s, p) || s.sessions[p.session].status != ACTIVE || s.sessions[p.session].expiresAt <= x.now)
  {
    hide MayLogIn;
    assert Current(s, p) == HoldsRefresh(s, p.refresh, p.session);
  }

  /** A request and its answer, as served at position `k` of a run. */
  ghost predicate Exchange(c: Config, worlds: seq<World>, events: seq<Event>, k: nat, request: Request, a: Answer)
    requires |worlds| == |events| + 1
  {
    k < |events| && events[k].request == request && (a.Replied? ==> a.reply == Step(c, worlds[k].db, events[k]).1)
  }

  lemma AcceptedSignOutEnds(c: Config, worlds: seq<World>, events: seq<Event>, k: nat, n: nat, claims: Claims,
                            a: Answer)
    requires IsRun(c, worlds, events) && |worlds| == |events| + 1 && k < n <= |events|
    requires Exchange(c, worlds, events, k, SignOutOf(Some(claims)), a) && Got(a, Accepted)
    ensures Over(worlds[n], claims.session)
  {
    hide Step, IsRun;
    RunStep(c, worlds, events, k);
    SignOutRevokes(c, worlds[k].db, events[k]);
    SessionGoesOn(c, worlds, events, k + 1, n, claims.session);
  }

  lemma UnauthorizedMeansOver(c: Config, worlds: seq<World>, events: seq<Event>, k: nat, n: nat, p: Saved, a: Answer)
    requires IsRun(c, worlds, events) && |worlds| == |events| + 1 && k < n <= |events|
    requires Exchange(c, worlds, events, k, RefreshWith(p.refresh), a) && Got(a, Refused(401))
    requires Current(worlds[k].db, p) && Established(worlds[k].db, p.session)
    ensures Over(worlds[n], p.session)
  {
    hide IsRun, CountersMatch, Rising, RotationsMatch, Gone, Refresh;
    RunOnce(c, worlds, events, k);
    RunStep(c, worlds, events, k);
    var s, e := worlds[k].db, events[k];
    assert forall other :: HoldsRefresh(s, p.refresh, other) ==> other == p.session;
    UnauthorizedExactly(s, e.ctx, p, e.mint.refresh);
    hide Step;
    RunEvolves(c, worlds, events, k, k + 1);
    StepOnRow(c, worlds[k], e, p.session);
    assert SessionEvolves(s.sessions[p.session], worlds[k + 1].db.sessions[p.session]);
    SessionGoesOn(c, worlds, events, k + 1, n, p.session);
  }

  /** The requests of one sign-out were served at increasing positions `at` of the run. */
  ghost predicate Served(
    c: Config, worlds: seq<World>, events: seq<Event>, at: seq<nat>, asked: seq<Request>, answers: seq<Answer>)
    requires |worlds| == |events| + 1
  {
    && |asked| == |at| <= |answers|
    && (forall m :: 0 <= m < |at| ==> Exchange(c, worlds, events, at[m], asked[m], answers[m]))
    && (forall l, m :: 0 <= l < m < |at| ==> at[l] < at[m])
  }

  /** A sign-out reported as done, or as already inactive, is true of the server: if the
      phone held the current token when it began and nobody else presented the session's
      secrets before its refresh, the session is revoked or past its term ever after,
      whatever other requests were served in between. */
  lemma SignOutReportIsTrue(
    c: Config, worlds: seq<World>, events: seq<Event>, at: seq<nat>, n: nat, p: Saved,
    first: Answer, second: Answer, third: Answer, storing: Storing)
    requires IsRun(c, worlds, events) && |worlds| == |events| + 1
    requires Served(c, worlds, events, at, SignOutRequests(p, first, second, storing), [first, second, third])
    requires forall m :: 0 <= m < |at| ==> at[m] < n <= |events|
    requires p.access.session == p.session && (second.Replied? ==> second.access.session == p.session)
    requires |at| > 0 ==> at[0] < |worlds| && Current(worlds[at[0]].db, p) && Established(worlds[at[0]].db, p.session)
    requires |at| > 1 ==> forall k :: at[0] <= k < at[1] && k < |events| ==> !Rotates(worlds[k].db, events[k], p.session)
    ensures SignOutOutcome(first, second, third, storing) != Thrown ==> Over(worlds[n], p.session)
  {
    hide IsRun, Step, Over, Exchange, Rotates, Current, Established;
    var asked := SignOutRequests(p, first, second, storing);
    match SignOutOutcome(first, second, third, storing)
    case Thrown =>
    case AlreadyInactive =>
      assert asked[1] == RefreshWith(p.refresh);
      CurrentIfUnused(c, worlds, events, at[0], at[1], p);
      EstablishedLater(c, worlds, events, at[0], at[1], p.session);
      UnauthorizedMeansOver(c, worlds, events, at[1], n, p, second);
    case ServerSignedOut =>
      if Got(first, Accepted) {
        assert asked[0] == SignOutOf(Some(p.access));
        AcceptedSignOutEnds(c, worlds, events, at[0], n, p.access, first);
      } else {
        assert asked[2] == SignOutOf(Some(second.access));
        AcceptedSignOutEnds(c, worlds, events, at[2], n, second.access, third);
      }
  }

  lemma EstablishedLater(c: Config, worlds: seq<World>, events: seq<Event>, i: nat, j: nat, id: Id)
    requires IsRun(c, worlds, events) && |worlds| == |events| + 1 && i <= j <= |events| && Established(worlds[i].db, id)
    ensures Established(worlds[j].db, id)
  {
    hide IsRun, Step;
    SessionGoesOn(c, worlds, events, i, j, id);
  }

  /** Losing the reply to one refresh is enough to make a live session look inactive:
      the next refresh is answered 401 while the session is ACTIVE and in term. */
  lemma LostReplyLooksInactive(s: State, x: Ctx, y: Ctx, p: Saved, replacement: Token, another: Token)
    requires HoldsRefresh(s, p.refresh, p.session)
    requires forall other :: HoldsRefresh(s, p.refresh, other) ==> other == p.session
    requires Refresh(s, x, p.refresh, replacement).1.Issued? && replacement != p.refresh
    requires y.now < s.sessions[p.session].expiresAt
    ensures var t := Refresh(s, x, p.refresh, replacement).0;
            && p.session in t.sessions
            && t.sessions[p.session].status == ACTIVE && y.now < t.sessions[p.session].expiresAt
            && SignOutOutcome(Replied(Refused(401), p.access), Replied(Refresh(t, y, p.refresh, another).1, p.access), NoReply, Stored)
               == AlreadyInactive
  {
    hide MayLogIn;
    RefreshOneAnswers(s, x, p.refresh, replacement, p.session);
    var t := Refresh(s, x, p.refresh, replacement).0;
    assert forall id :: HoldsRefresh(t, p.refresh, id) ==> HoldsRefresh(s, p.refresh, id) && id != p.session;
    assert !exists id :: HoldsRefresh(t, p.refresh, id);
  }

  // ------------------------------------------------- a run with a lost reply

  const SETTINGS := Config(5, true, 3600, 2592000, 600, 86400, 60, 300)
  const ACCESS := Claims("u", "ss", AUTHENTICATOR_ACTIVATION, 2)
  const REVIEWED := Session("u", Sha256("rr"), ACTIVE, AAL2, AUTHENTICATOR_ACTIVATION, 0, 2592001)

  function At(now: Time, id: Id, refresh: Token, first: Token, second: Token, request: Request): Event {
    Event(Ctx(now, true, true, false), Mint(id, id, refresh, first, second), request)
  }

  /** Registration, then the email-code sign-in of a Play reviewer, whose phone so gets its
      session and token. */
  lemma ReviewerRun() returns (worlds: seq<World>, events: seq<Event>)
    ensures IsRun(SETTINGS, worlds, events) && |events| == 2 && |worlds| == 3
    ensures Step(SETTINGS, worlds[1].db, events[1]).1 == Issued("ss", "rr") && worlds[2].clock == 1
    ensures worlds[2].db.sessions.Keys == {"s", "ss"} && worlds[2].db.sessions["ss"] == REVIEWED
    ensures worlds[2].db.sessions["s"].refreshHash == Sha256("r") && "u" in worlds[2].db.users
    ensures worlds[2].minted == {"r", "x", "y", "rr", "xx", "yy"}
    ensures worlds[2].db.qrs == map[] && worlds[2].db.activations == map[] && worlds[2].db.approvals.Keys == {"ss"}
    ensures worlds[2].db.sessions["s"] == Session("u", Sha256("r"), ACTIVE, AAL1, OFFICE, 0, 3600)
    ensures worlds[2].db.approvals["ss"] == Approval("u", "ss", Sha256("xx"), Sha256("yy"), Trusted, 2592001, Some(2592001))
    ensures worlds[2].db.users == map["u" := User(false, None)]
  {
    var e0 := At(0, "s", "r", "x", "y", RegisterAs("u"));
    var e1 := At(1, "ss", "rr", "xx", "yy", VerifyEmailCode("u", true, NoDevice, MailSent));
    DistinctTokens();
    var w1 := Next(SETTINGS, EMPTY, e0);
    var w2 := Next(SETTINGS, w1, e1);
    worlds, events := [EMPTY, w1, w2], [e0, e1];
  }

  lemma DistinctTokens()
    ensures "r" != "x" && "r" != "y" && "x" != "y" && "rr" != "xx" && "rr" != "yy" && "xx" != "yy"
  {
    assert "r"[0] != "x"[0] && "r"[0] != "y"[0] && "x"[0] != "y"[0];
    assert "rr"[0] != "xx"[0] && "rr"[0] != "yy"[0] && "xx"[0] != "yy"[0];
  }

  /** The presented token is rotated, and its reply is lost on the way to the phone. */
  lemma LostRotation(w: World) returns (e: Event)
    requires w.clock == 1 && w.db.sessions.Keys == {"s", "ss"} && w.db.sessions["ss"] == REVIEWED && "u" in w.db.users
    requires w.db.sessions["s"].refreshHash == Sha256("r") && w.minted == {"r", "x", "y", "rr", "xx", "yy"}
    requires w.db.qrs == map[] && w.db.activations == map[] && w.db.approvals.Keys == {"ss"}
    ensures e.request == RefreshWith("rr") && e.ctx.now == 1 && Possible(w, e)
    ensures Step(SETTINGS, w.db, e).1 == Issued("ss", "rrr")
    ensures Step(SETTINGS, w.db, e).0.sessions == w.db.sessions["ss" := REVIEWED.(refreshHash := Sha256("rrr"))]
    ensures Step(SETTINGS, w.db, e).0.(sessions := w.db.sessions, log := w.db.log) == w.db
    ensures e.mint == Mint("sss", "sss", "rrr", "xxx", "yyy")
  {
    hide Refresh, RefreshRow;
    e := At(1, "sss", "rrr", "xxx", "yyy", RefreshWith("rr"));
    FreshByLength(w, e, 3);
    RotatedRow(w.db, e, "ss");
    assert forall other :: HoldsRefresh(w.db, "rr", other) ==> other == "ss";
    RefreshOneAnswers(w.db, e.ctx, "rr", "rrr", "ss");
  }

  lemma RotatedRow(s: State, e: Event, id: Id)
    requires id in s.sessions && s.sessions[id].status == ACTIVE && e.ctx.now < s.sessions[id].expiresAt
    requires s.sessions[id].user in s.users && MayLogIn(e.ctx)
    requires e.request.RefreshWith?
    ensures RefreshRow(s, e.ctx, id, e.request.proof, e.mint.refresh)
         == (Log(WithSession(s, id, s.sessions[id].(refreshHash := Sha256(e.mint.refresh))), RefreshAccepted(id, e.request.proof)),
             Issued(id, e.mint.refresh))
  {
  }

  lemma UnknownTokenIsRefused(s: State, e: Event)
    requires e.request.RefreshWith? && forall id :: !HoldsRefresh(s, e.request.proof, id)
    ensures Step(SETTINGS, s, e) == (s, Refused(401))
  {
  }

  lemma ExpiredAccessIsRefused(s: State, e: Event, access: Claims)
    requires e.request == SignOutOf(Some(access)) && access.expiresAt <= e.ctx.now
    ensures Step(SETTINGS, s, e) == (s, Refused(401))
  {
  }

  /** The reviewer's run, and then the rotation whose reply is lost. */
  lemma LostRun() returns (worlds: seq<World>, events: seq<Event>)
    ensures IsRun(SETTINGS, worlds, events) && |events| == 3 && |worlds| == 4 && worlds[3].clock == 1
    ensures Step(SETTINGS, worlds[1].db, events[1]).1 == Issued("ss", "rr")
    ensures RotatedAt(SETTINGS, worlds, events, 2, "ss") && ShortNames(worlds[3], 4)
    ensures "ss" in worlds[3].db.sessions && worlds[3].db.sessions["ss"] == REVIEWED.(refreshHash := Sha256("rrr"))
    ensures forall id :: !HoldsRefresh(worlds[3].db, "rr", id)
  {
    hide IsRun, Step;
    worlds, events := ReviewerRun();
    var lost := LostRotation(worlds[2]);
    LongerRun(SETTINGS, worlds, events, lost);
    worlds, events := worlds + [Next(SETTINGS, worlds[2], lost)], events + [lost];
    assert HoldsRefresh(worlds[2].db, "rr", "ss");
  }

  /** A refused request leaves the tables alone and the run goes on. */
  lemma RefusedStep(
    worlds: seq<World>, events: seq<Event>, e: Event, n: nat) returns (later: seq<World>, more: seq<Event>)
    requires IsRun(SETTINGS, worlds, events) && |worlds| == |events| + 1
    requires worlds[|events|].clock <= e.ctx.now && ShortNames(worlds[|events|], n) && LongMint(e.mint, n)
    requires Step(SETTINGS, worlds[|events|].db, e) == (worlds[|events|].db, Refused(401))
    ensures more == events + [e] && |later| == |worlds| + 1 && worlds <= later && IsRun(SETTINGS, later, more)
    ensures later[|more|].db == worlds[|events|].db && later[|more|].clock == e.ctx.now && ShortNames(later[|more|], n + 1)
  {
    hide IsRun, Step;
    FreshByLength(worlds[|events|], e, n);
    LongerRun(SETTINGS, worlds, events, e);
    later, more := worlds + [Next(SETTINGS, worlds[|events|], e)], events + [e];
  }

  /** A run in which a phone is told that its session is already inactive while it is not:
      the reply to one refresh is lost, the access token expires, and the sign-out that
      follows is answered 401 twice. */
  lemma LostReplyWitness() returns (worlds: seq<World>, events: seq<Event>, p: Saved, first: Answer, second: Answer)
    ensures IsRun(SETTINGS, worlds, events) && |events| == 5 && |worlds| == 6
    ensures Step(SETTINGS, worlds[1].db, events[1]).1 == Issued(p.session, p.refresh)
    ensures RotatedAt(SETTINGS, worlds, events, 2, p.session)
    ensures forall k :: 2 <= k < 5 ==> PhoneTurn(SETTINGS, worlds[k], events[k], p, p, false)
    ensures Served(SETTINGS, worlds, events, [3, 4], SignOutRequests(p, first, second, Stored), [first, second, NoReply])
    ensures SignOutOutcome(first, second, NoReply, Stored) == AlreadyInactive
    ensures p.session in worlds[5].db.sessions && worlds[5].db.sessions[p.session].status == ACTIVE && !Over(worlds[5], p.session)
  {
    hide IsRun, Step, HoldsRefresh, ShortNames, Rotates;
    p := Saved("ss", "rr", ACCESS);
    worlds, events := LostRun();
    var leave := At(3, "ssss", "rrrr", "xxxx", "yyyy", SignOutOf(Some(ACCESS)));
    ExpiredAccessIsRefused(worlds[3].db, leave, ACCESS);
    worlds, events := RefusedStep(worlds, events, leave, 4);
    var again := At(3, "sssss", "rrrrr", "xxxxx", "yyyyy", RefreshWith("rr"));
    UnknownTokenIsRefused(worlds[4].db, again);
    worlds, events := RefusedStep(worlds, events, again, 5);
    first, second := Replied(Refused(401), ACCESS), Replied(Refused(401), ACCESS);
  }

  ghost predicate ShortNames(w: World, n: nat) {
    && (forall t :: t in w.minted ==> |t| < n)
    && (forall i :: i in w.db.sessions || i in w.db.qrs || i in w.db.activations || i in w.db.approvals ==> |i| < n)
  }

  predicate LongMint(m: Mint, n: nat) {
    && |m.id| == |m.approval| == |m.refresh| == |m.first| == |m.second| == n > 0
    && m.refresh[0] == 'r' && m.first[0] == 'x' && m.second[0] == 'y'
  }

  /** Drawn tokens and identifiers longer than all before are new. */
  lemma FreshByLength(w: World, e: Event, n: nat)
    requires w.clock <= e.ctx.now && LongMint(e.mint, n) && ShortNames(w, n)
    ensures Possible(w, e)
  {
  }
}
