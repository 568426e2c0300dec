/** The row view of device approvals and of the codes that lead to them. */
module IdentityViewDevices {
  import opened IdentityModel
  import opened IdentityInvariants
  import opened IdentityProtocol
  import opened IdentityView
  import opened IdentityViewAccounts
  import opened IdentityViewCodes

  // --------------------------------------------------------------- approvals

  predicate IsOnApproval(r: Request) { r.DeviceReview? || r.DeviceDecide? || r.DeviceStatusOf? || r.DeviceRevoke? }

  lemma OtherApproval(c: Config, s: State, e: Event, a: Id)
    requires IsOnApproval(e.request) && a in s.approvals && a != e.request.approval
    ensures ApprovalAfter(c, s, e, a) == s.approvals[a]
  {
    hide IsPhone, IsCaller, IsTrusted;
  }

  predicate OneApproval(c: Config, s: State, e: Event, t: State)
    requires IsOnApproval(e.request)
  {
    var a := e.request.approval;
    t.approvals == if a in s.approvals then s.approvals[a := ApprovalAfter(c, s, e, a)] else s.approvals
  }

  lemma OneApprovalSays(c: Config, s: State, e: Event, t: State)
    requires IsOnApproval(e.request) && OneApproval(c, s, e, t)
    ensures ApprovalsSay(c, s, e, t)
  {
    hide ApprovalAfter;
    forall a | a in s.approvals && a != e.request.approval ensures ApprovalAfter(c, s, e, a) == s.approvals[a] {
      OtherApproval(c, s, e, a);
    }
  }

  /** What the mailbox or the device does to the approval it asks about. */
  lemma AskedApproval(c: Config, s: State, e: Event)
    requires IsOnApproval(e.request) && e.request.approval in s.approvals
    ensures var a, row := e.request.approval, s.approvals[e.request.approval];
            ApprovalAfter(c, s, e, a)
            == if FindsLate(s, e, a) then row.(status := ApprovalExpired)
               else if Decides(s, e, a, true) then row.(status := ApprovalApproved)
               else if Decides(s, e, a, false) then row.(status := ApprovalDeclined)
               else if GivesUp(s, e, a) then row.(status := ApprovalRevoked, trustedUntil := Some(e.ctx.now))
               else row
  {
    hide IsPhone, IsCaller, IsTrusted;
  }

  /** And to the session it holds, or was made on. */
  function DeviceSession(s: State, e: Event, id: Id): Session
    requires id in s.sessions && IsOnApproval(e.request)
  {
    var a, row := e.request.approval, s.sessions[id];
    if a !in s.approvals || s.approvals[a].session != id then row
    else if GivesUp(s, e, a) then Revoked(row)
    else if row.status == PENDING_DEVICE_APPROVAL && (FindsLate(s, e, a) || Decides(s, e, a, false)) then Revoked(row)
    else row
  }

  lemma DeviceMovesSession(c: Config, s: State, e: Event, id: Id)
    requires id in s.sessions && IsOnApproval(e.request)
    ensures SessionAfter(c, s, e, id) == DeviceSession(s, e, id)
  {
    hide IsPhone, IsCaller, IsTrusted, IsLate;
    forall a | a in s.approvals && a != e.request.approval
      ensures !FindsLate(s, e, a) && !Decides(s, e, a, false) && !GivesUp(s, e, a) && !Presents(s, e, a) {}
  }

  lemma DeviceSessionsSay(c: Config, s: State, e: Event, t: State)
    requires IsOnApproval(e.request) && t.sessions.Keys == s.sessions.Keys
    requires forall id :: id in s.sessions ==> t.sessions[id] == DeviceSession(s, e, id)
    ensures SessionsSay(c, s, e, t)
  {
    hide SessionAfter, DeviceSession;
    forall id | id in s.sessions ensures t.sessions[id] == SessionAfter(c, s, e, id) { DeviceMovesSession(c, s, e, id); }
  }

  /** The ways a review, a decision or a status check ends. */
  lemma AskedCases(s: State, e: Event, t: State, reply: Reply)
    requires (e.request.DeviceReview? && (t, reply) == ReviewDevice(s, e.ctx, e.request.approval, e.request.proof))
          || (e.request.DeviceDecide? && (t, reply) == DecideDevice(s, e.ctx, e.request.approval, e.request.proof, e.request.approve))
          || (e.request.DeviceStatusOf? && (t, reply) == ReadDevice(s, e.ctx, e.request.approval, e.request.proof))
    ensures var a := e.request.approval;
            && (if FindsLate(s, e, a) then t == ExpireApproval(s, a)
                else if Decides(s, e, a, true) then t == WithApproval(s, a, s.approvals[a].(status := ApprovalApproved)).(log := t.log)
                else if Decides(s, e, a, false) then
                  t == CloseHeld(WithApproval(s, a, s.approvals[a].(status := ApprovalDeclined)), s.approvals[a].session)
                else t == s)
            && (!reply.Refused? <==>
                  match e.request
                  case DeviceReview(_, _) =>
                    Shows(s, e, a) && !IsLate(s, a, e.ctx.now)
                    && (s.approvals[a].status == ApprovalPending || s.approvals[a].status == ApprovalApproved)
                  case DeviceDecide(_, _, approve) => Decides(s, e, a, approve)
                  case _ => Shows(s, e, a))
  {
    hide ExpireApproval, CloseHeld;
  }

  lemma AskedRows(c: Config, s: State, e: Event, t: State)
    requires e.request.DeviceReview? || e.request.DeviceDecide? || e.request.DeviceStatusOf?
    requires var a := e.request.approval;
             if FindsLate(s, e, a) then t == ExpireApproval(s, a)
             else if Decides(s, e, a, true) then t == WithApproval(s, a, s.approvals[a].(status := ApprovalApproved)).(log := t.log)
             else if Decides(s, e, a, false) then
               t == CloseHeld(WithApproval(s, a, s.approvals[a].(status := ApprovalDeclined)), s.approvals[a].session)
             else t == s
    ensures t == s.(sessions := t.sessions, approvals := t.approvals, log := t.log) && OneApproval(c, s, e, t)
  {
    hide ApprovalAfter, ExpireApproval, CloseHeld;
    AskedThere(s, e, e.request.approval);
    if e.request.approval in s.approvals {
      AskedApproval(c, s, e);
      NotGivenUp(s, e, e.request.approval);
      ExpiredTables(s, e.request.approval);
    }
    hide GivesUp, FindsLate, Decides;
  }

  lemma NotGivenUp(s: State, e: Event, a: Id)
    requires !e.request.DeviceRevoke?
    ensures !GivesUp(s, e, a)
  {
  }

  lemma AskedSessions(s: State, e: Event, t: State)
    requires e.request.DeviceReview? || e.request.DeviceDecide? || e.request.DeviceStatusOf?
    requires var a := e.request.approval;
             if FindsLate(s, e, a) then t == ExpireApproval(s, a)
             else if Decides(s, e, a, true) then t == WithApproval(s, a, s.approvals[a].(status := ApprovalApproved)).(log := t.log)
             else if Decides(s, e, a, false) then
               t == CloseHeld(WithApproval(s, a, s.approvals[a].(status := ApprovalDeclined)), s.approvals[a].session)
             else t == s
    ensures t.sessions.Keys == s.sessions.Keys && forall id :: id in s.sessions ==> t.sessions[id] == DeviceSession(s, e, id)
  {
    NotGivenUp(s, e, e.request.approval);
    AskedThere(s, e, e.request.approval);
    hide GivesUp, FindsLate, Decides;
  }

  lemma AskedThere(s: State, e: Event, a: Id)
    ensures FindsLate(s, e, a) || Decides(s, e, a, true) || Decides(s, e, a, false) ==> a in s.approvals
    ensures !(Decides(s, e, a, true) && Decides(s, e, a, false)) && !(FindsLate(s, e, a) && Decides(s, e, a, true))
  {
  }

  lemma AskedSays(c: Config, s: State, e: Event, t: State, reply: Reply)
    requires (e.request.DeviceReview? && (t, reply) == ReviewDevice(s, e.ctx, e.request.approval, e.request.proof))
          || (e.request.DeviceDecide? && (t, reply) == DecideDevice(s, e.ctx, e.request.approval, e.request.proof, e.request.approve))
          || (e.request.DeviceStatusOf? && (t, reply) == ReadDevice(s, e.ctx, e.request.approval, e.request.proof))
    ensures Says(c, s, e, t, reply)
  {
    hide SessionsSay, ApprovalsSay, QrsSay, ActivationsSay, UsersSay, ReviewDevice, DecideDevice, ReadDevice;
    hide ExpireApproval, CloseHeld, ApprovalAfter, DeviceSession, FindsLate, Decides, Shows, IsLate;
    AskedCases(s, e, t, reply);
    AskedRows(c, s, e, t);
    AskedSessions(s, e, t);
    OneApprovalSays(c, s, e, t);
    DeviceSessionsSay(c, s, e, t);
    QrsSame(c, s, e, t);
    ActivationsSame(c, s, e, t);
    UsersSame(s, e, t);
  }

  /** Giving up the own device. */
  lemma GiveUpRows(c: Config, s: State, e: Event, t: State, reply: Reply)
    requires e.request.DeviceRevoke? && (t, reply) == RevokeDevice(s, e.ctx, e.request.claims, e.request.approval, e.request.proof)
    ensures !reply.Refused? <==> GivesUp(s, e, e.request.approval)
    ensures !GivesUp(s, e, e.request.approval) ==> t == s
    ensures GivesUp(s, e, e.request.approval) ==>
              var a, row := e.request.approval, s.approvals[e.request.approval];
              && row.session in s.sessions
              && t == s.(approvals := s.approvals[a := row.(status := ApprovalRevoked, trustedUntil := Some(e.ctx.now))],
                         sessions := s.sessions[row.session := Revoked(s.sessions[row.session])],
                         activations := CancelLive(s.activations, row.user, Some(row.session), Some(a)))
  {
    AdmitsExactly(s, e.ctx, e.request.claims, true, {AUTHENTICATOR_ACTIVATION});
    hide Authenticate, CancelLive;
  }

  lemma GivenUpActivation(s: State, e: Event, v: Id)
    requires v in s.activations && e.request.DeviceRevoke?
    ensures var a, row := e.request.approval, s.activations[v];
            ActivationAfter(s, e, v)
            == if GivesUp(s, e, a) && row.status == Live && row.device == a && s.approvals[a].user == row.user && s.approvals[a].session == row.session
               then row.(status := Cancelled) else row
  {
    hide IsPhone, IsCaller;
  }

  lemma GiveUpSays(c: Config, s: State, e: Event, t: State, reply: Reply)
    requires e.request.DeviceRevoke? && (t, reply) == RevokeDevice(s, e.ctx, e.request.claims, e.request.approval, e.request.proof)
    ensures Says(c, s, e, t, reply)
  {
    hide SessionsSay, ApprovalsSay, QrsSay, ActivationsSay, UsersSay;
    GiveUpRows(c, s, e, t, reply);
    hide RevokeDevice;
    GivenUpTables(c, s, e, t);
    QrsSame(c, s, e, t);
    UsersSame(s, e, t);
    hide GivesUp, CancelLive;
  }

  lemma GivenUpTables(c: Config, s: State, e: Event, t: State)
    requires e.request.DeviceRevoke?
    requires !GivesUp(s, e, e.request.approval) ==> t == s
    requires GivesUp(s, e, e.request.approval) ==>
               var a, row := e.request.approval, s.approvals[e.request.approval];
               && row.session in s.sessions
               && t == s.(approvals := s.approvals[a := row.(status := ApprovalRevoked, trustedUntil := Some(e.ctx.now))],
                          sessions := s.sessions[row.session := Revoked(s.sessions[row.session])],
                          activations := CancelLive(s.activations, row.user, Some(row.session), Some(a)))
    ensures SessionsSay(c, s, e, t) && ApprovalsSay(c, s, e, t) && ActivationsSay(c, s, e, t)
  {
    GivenUpSessions(c, s, e, t);
    GivenUpApproval(c, s, e, t);
    GivenUpActivations(c, s, e, t);
    hide SessionsSay, ApprovalsSay, ActivationsSay;
  }

  lemma GivenUpSessions(c: Config, s: State, e: Event, t: State)
    requires e.request.DeviceRevoke?
    requires !GivesUp(s, e, e.request.approval) ==> t == s
    requires GivesUp(s, e, e.request.approval) ==>
               var a, row := e.request.approval, s.approvals[e.request.approval];
               && row.session in s.sessions
               && t == s.(approvals := s.approvals[a := row.(status := ApprovalRevoked, trustedUntil := Some(e.ctx.now))],
                          sessions := s.sessions[row.session := Revoked(s.sessions[row.session])],
                          activations := CancelLive(s.activations, row.user, Some(row.session), Some(a)))
    ensures SessionsSay(c, s, e, t)
  {
    hide DeviceSession, CancelLive;
    GivenUpThere(s, e);
    forall id | id in s.sessions ensures t.sessions[id] == DeviceSession(s, e, id) {
      GivenUpSession(s, e, id);
      hide GivesUp;
    }
    hide GivesUp;
    DeviceSessionsSay(c, s, e, t);
  }

  lemma GivenUpThere(s: State, e: Event)
    requires e.request.DeviceRevoke?
    ensures GivesUp(s, e, e.request.approval) ==> e.request.approval in s.approvals
  {
  }

  lemma GivenUpApproval(c: Config, s: State, e: Event, t: State)
    requires e.request.DeviceRevoke?
    requires !GivesUp(s, e, e.request.approval) ==> t == s
    requires GivesUp(s, e, e.request.approval) ==>
               var a, row := e.request.approval, s.approvals[e.request.approval];
               && row.session in s.sessions
               && t == s.(approvals := s.approvals[a := row.(status := ApprovalRevoked, trustedUntil := Some(e.ctx.now))],
                          sessions := s.sessions[row.session := Revoked(s.sessions[row.session])],
                          activations := CancelLive(s.activations, row.user, Some(row.session), Some(a)))
    ensures ApprovalsSay(c, s, e, t)
  {
    hide ApprovalAfter, CancelLive;
    GivenUpThere(s, e);
    NotAsked(s, e);
    if e.request.approval in s.approvals { AskedApproval(c, s, e); }
    hide GivesUp, FindsLate, Decides;
    OneApprovalSays(c, s, e, t);
  }

  lemma GivenUpActivations(c: Config, s: State, e: Event, t: State)
    requires e.request.DeviceRevoke?
    requires !GivesUp(s, e, e.request.approval) ==> t == s
    requires GivesUp(s, e, e.request.approval) ==>
               var a, row := e.request.approval, s.approvals[e.request.approval];
               && row.session in s.sessions
               && t == s.(approvals := s.approvals[a := row.(status := ApprovalRevoked, trustedUntil := Some(e.ctx.now))],
                          sessions := s.sessions[row.session := Revoked(s.sessions[row.session])],
                          activations := CancelLive(s.activations, row.user, Some(row.session), Some(a)))
    ensures ActivationsSay(c, s, e, t)
  {
    hide ActivationAfter;
    GivenUpThere(s, e);
    NobodyAsks(s, e);
    forall v | v in s.activations ensures t.activations[v] == ActivationAfter(s, e, v) {
      GivenUpActivation(s, e, v);
      hide GivesUp;
    }
    hide Asks, GivesUp;
  }

  lemma GivenUpSession(s: State, e: Event, id: Id)
    requires e.request.DeviceRevoke? && id in s.sessions
    ensures DeviceSession(s, e, id)
         == if GivesUp(s, e, e.request.approval) && s.approvals[e.request.approval].session == id then Revoked(s.sessions[id]) else s.sessions[id]
  {
  }

  lemma NotAsked(s: State, e: Event)
    requires e.request.DeviceRevoke?
    ensures forall a :: !FindsLate(s, e, a) && !Decides(s, e, a, true) && !Decides(s, e, a, false)
  {
  }

  // --------------------------------------------------- completing a device

  /** The tables after an approved device is made the trusted one. */
  function Promoted(c: Config, s: State, e: Event): State
    requires e.request.DeviceComplete? && e.request.approval in s.approvals && s.approvals[e.request.approval].session in s.sessions
  {
    var a, row, now := e.request.approval, s.approvals[e.request.approval], e.ctx.now;
    var mid := ReplaceDevices(s, row.user, a, now);
    WithApproval(
      WithSession(mid, row.session, s.sessions[row.session].(status := ACTIVE, refreshHash := Sha256(e.mint.refresh))),
      a, row.(status := Trusted, trustedUntil := Some(now + c.deviceTrustTtl)))
  }

  /** The session was made on a device that `a` takes the place of. */
  predicate LosesDevice(s: State, a: Id, id: Id) {
    a in s.approvals
    && exists b | b in s.approvals :: IsReplaced(s.approvals, s.approvals[a].user, Some(a), b) && s.approvals[b].session == id
  }

  lemma PromotedTables(c: Config, s: State, e: Event)
    requires e.request.DeviceComplete? && e.request.approval in s.approvals && s.approvals[e.request.approval].session in s.sessions
    ensures var a, row, t := e.request.approval, s.approvals[e.request.approval], Promoted(c, s, e);
            && t.approvals.Keys == s.approvals.Keys && t.sessions.Keys == s.sessions.Keys
            && t == s.(sessions := t.sessions, approvals := t.approvals, activations := t.activations)
            && t.activations == CancelReplaced(s.approvals, s.activations, row.user, Some(a), true)
            && (forall b :: b in s.approvals ==>
                  t.approvals[b] == if b == a then row.(status := Trusted, trustedUntil := Some(e.ctx.now + c.deviceTrustTtl))
                                    else if IsReplaced(s.approvals, row.user, Some(a), b)
                                    then s.approvals[b].(status := ApprovalRevoked, trustedUntil := Some(e.ctx.now))
                                    else s.approvals[b])
            && (forall id :: id in s.sessions ==>
                  t.sessions[id] == if id == row.session then s.sessions[id].(status := ACTIVE, refreshHash := Sha256(e.mint.refresh))
                                    else if s.sessions[id].status == ACTIVE && LosesDevice(s, a, id) then Revoked(s.sessions[id])
                                    else s.sessions[id])
  {
    hide IsReplaced, CancelReplaced;
  }

  lemma CompleteCases(c: Config, s: State, e: Event, t: State, reply: Reply)
    requires e.request.DeviceComplete?
    requires (t, reply) == CompleteDevice(c, s, e.ctx, e.request.approval, e.request.proof, e.mint.refresh)
    ensures var a := e.request.approval;
            if FindsLate(s, e, a) then reply.Refused? && t == ExpireApproval(s, a)
            else if Completes(s, e, a) then !reply.Refused? && t == Promoted(c, s, e).(log := t.log)
            else if CompletesAgain(s, e, a) then
              && !reply.Refused?
              && t == WithSession(s, s.approvals[a].session, s.sessions[s.approvals[a].session].(refreshHash := Sha256(e.mint.refresh)))
            else if Presents(s, e, a) then
              reply.Refused? && t == WithSession(s, s.approvals[a].session, Revoked(s.sessions[s.approvals[a].session]))
            else reply.Refused? && t == s
  {
    hide ExpireApproval, ReplaceDevices;
  }

  /** What cannot be at once, for the approval that is presented. */
  lemma CompleteApart(s: State, e: Event, a: Id)
    ensures FindsLate(s, e, a) || Completes(s, e, a) || CompletesAgain(s, e, a) || Presents(s, e, a) ==> a in s.approvals
    ensures Completes(s, e, a) || CompletesAgain(s, e, a) || Presents(s, e, a) ==> s.approvals[a].session in s.sessions
    ensures Completes(s, e, a) ==> Presents(s, e, a)
    ensures !(FindsLate(s, e, a) && Presents(s, e, a)) && !(CompletesAgain(s, e, a) && (FindsLate(s, e, a) || Presents(s, e, a)))
    ensures Presents(s, e, a) ==> s.sessions[s.approvals[a].session].status == PENDING_DEVICE_APPROVAL
  {
  }

  lemma CompleteApproval(c: Config, s: State, e: Event, b: Id)
    requires e.request.DeviceComplete? && b in s.approvals
    ensures ApprovalAfter(c, s, e, b) == ApprovalServed(c, s, e, b)
  {
    hide IsPhone, IsCaller, IsTrusted;
  }

  /** The row of an approval after the presented one was served. */
  function ApprovalServed(c: Config, s: State, e: Event, b: Id): Approval
    requires e.request.DeviceComplete? && b in s.approvals
  {
    var a, row := e.request.approval, s.approvals[b];
    if b == a && FindsLate(s, e, a) then row.(status := ApprovalExpired)
    else if b == a && Completes(s, e, a) then row.(status := Trusted, trustedUntil := Some(e.ctx.now + c.deviceTrustTtl))
    else if Completes(s, e, a) && IsReplaced(s.approvals, s.approvals[a].user, Some(a), b)
    then row.(status := ApprovalRevoked, trustedUntil := Some(e.ctx.now))
    else row
  }

  lemma ExpiredTables(s: State, a: Id)
    requires a in s.approvals
    ensures var row, t := s.approvals[a], ExpireApproval(s, a);
            && t.approvals == s.approvals[a := row.(status := ApprovalExpired)] && t.sessions.Keys == s.sessions.Keys
            && forall id :: id in s.sessions ==>
                 t.sessions[id] == if id == row.session && s.sessions[id].status == PENDING_DEVICE_APPROVAL then Revoked(s.sessions[id])
                                   else s.sessions[id]
  {
  }

  lemma CompleteTable(c: Config, s: State, e: Event, t: State, reply: Reply)
    requires e.request.DeviceComplete?
    requires (t, reply) == CompleteDevice(c, s, e.ctx, e.request.approval, e.request.proof, e.mint.refresh)
    ensures t.approvals.Keys == s.approvals.Keys && forall b :: b in s.approvals ==> t.approvals[b] == ApprovalServed(c, s, e, b)
  {
    CompleteCases(c, s, e, t, reply);
    CompleteApart(s, e, e.request.approval);
    if Completes(s, e, e.request.approval) { PromotedTables(c, s, e); }
    if e.request.approval in s.approvals { ExpiredTables(s, e.request.approval); }
    hide ExpireApproval, CompleteDevice, FindsLate, Completes, CompletesAgain, Presents, Promoted, IsReplaced;
  }

  lemma CompleteApprovals(c: Config, s: State, e: Event, t: State, reply: Reply)
    requires e.request.DeviceComplete?
    requires (t, reply) == CompleteDevice(c, s, e.ctx, e.request.approval, e.request.proof, e.mint.refresh)
    ensures ApprovalsSay(c, s, e, t)
  {
    CompleteTable(c, s, e, t, reply);
    hide CompleteDevice, ApprovalAfter, ApprovalServed;
    forall b | b in s.approvals ensures t.approvals[b] == ApprovalAfter(c, s, e, b) { CompleteApproval(c, s, e, b); }
  }

  function CompleteSession(s: State, e: Event, id: Id): Session
    requires id in s.sessions && e.request.DeviceComplete?
  {
    var a, row := e.request.approval, s.sessions[id];
    if a !in s.approvals then row
    else if s.approvals[a].session == id then
      if Completes(s, e, a) then row.(status := ACTIVE, refreshHash := Sha256(e.mint.refresh))
      else if Presents(s, e, a) then Revoked(row)
      else if CompletesAgain(s, e, a) then row.(refreshHash := Sha256(e.mint.refresh))
      else if FindsLate(s, e, a) && row.status == PENDING_DEVICE_APPROVAL then Revoked(row)
      else row
    else if Completes(s, e, a) && row.status == ACTIVE && LosesDevice(s, a, id) then Revoked(row) else row
  }

  lemma CompleteMovesSession(c: Config, s: State, e: Event, id: Id)
    requires id in s.sessions && e.request.DeviceComplete?
    ensures SessionAfter(c, s, e, id) == CompleteSession(s, e, id)
  {
    var a := e.request.approval;
    CompleteApart(s, e, a);
    forall b | b in s.approvals
      ensures (b != a ==> !FindsLate(s, e, b) && !Presents(s, e, b)) && !GivesUp(s, e, b) && !Decides(s, e, b, false)
      ensures Replaces(s, e, b) <==> Completes(s, e, a) && IsReplaced(s.approvals, s.approvals[a].user, Some(a), b)
    {
      CompleteElsewhere(s, e, b);
    }
    hide FindsLate, Presents, Completes, CompletesAgain, GivesUp, Decides, Replaces, IsReplaced, IsCaller, IsTrusted;
  }

  lemma CompleteElsewhere(s: State, e: Event, b: Id)
    requires e.request.DeviceComplete?
    ensures b != e.request.approval ==> !FindsLate(s, e, b) && !Presents(s, e, b)
    ensures !GivesUp(s, e, b) && !Decides(s, e, b, false)
    ensures Replaces(s, e, b)
       <==> Completes(s, e, e.request.approval) && IsReplaced(s.approvals, s.approvals[e.request.approval].user, Some(e.request.approval), b)
  {
  }

  lemma CompleteSessions(c: Config, s: State, e: Event, t: State, reply: Reply)
    requires e.request.DeviceComplete?
    requires (t, reply) == CompleteDevice(c, s, e.ctx, e.request.approval, e.request.proof, e.mint.refresh)
    ensures SessionsSay(c, s, e, t)
  {
    hide CompleteDevice, SessionAfter, CompleteSession;
    CompleteRowsOfSessions(c, s, e, t, reply);
    forall id | id in s.sessions ensures t.sessions[id] == SessionAfter(c, s, e, id) { CompleteMovesSession(c, s, e, id); }
  }

  lemma CompleteRowsOfSessions(c: Config, s: State, e: Event, t: State, reply: Reply)
    requires e.request.DeviceComplete?
    requires (t, reply) == CompleteDevice(c, s, e.ctx, e.request.approval, e.request.proof, e.mint.refresh)
    ensures t.sessions.Keys == s.sessions.Keys
    ensures forall id :: id in s.sessions ==> t.sessions[id] == CompleteSession(s, e, id)
  {
    CompleteCases(c, s, e, t, reply);
    CompleteApart(s, e, e.request.approval);
    hide CompleteDevice, FindsLate, Completes, CompletesAgain, Presents, Promoted, ExpireApproval, CompleteSession;
    if Completes(s, e, e.request.approval) {
      CompletedSessions(c, s, e);
    } else {
      OtherSessions(s, e, t);
    }
  }

  lemma CompletedSessions(c: Config, s: State, e: Event)
    requires e.request.DeviceComplete? && e.request.approval in s.approvals && s.approvals[e.request.approval].session in s.sessions
    requires Completes(s, e, e.request.approval)
    ensures var t := Promoted(c, s, e);
            t.sessions.Keys == s.sessions.Keys && forall id :: id in s.sessions ==> t.sessions[id] == CompleteSession(s, e, id)
  {
    PromotedTables(c, s, e);
    hide Promoted, Completes, LosesDevice;
  }

  lemma OtherSessions(s: State, e: Event, t: State)
    requires e.request.DeviceComplete? && !Completes(s, e, e.request.approval)
    requires var a := e.request.approval;
             if FindsLate(s, e, a) then t == ExpireApproval(s, a)
             else if CompletesAgain(s, e, a) then
               t == WithSession(s, s.approvals[a].session, s.sessions[s.approvals[a].session].(refreshHash := Sha256(e.mint.refresh)))
             else if Presents(s, e, a) then
               t == WithSession(s, s.approvals[a].session, Revoked(s.sessions[s.approvals[a].session]))
             else t == s
    ensures t.sessions.Keys == s.sessions.Keys && forall id :: id in s.sessions ==> t.sessions[id] == CompleteSession(s, e, id)
  {
    CompleteApart(s, e, e.request.approval);
    if e.request.approval in s.approvals { ExpiredTables(s, e.request.approval); }
    hide ExpireApproval, FindsLate, Completes, CompletesAgain, Presents, LosesDevice;
  }

  lemma CompleteActivations(c: Config, s: State, e: Event, t: State, reply: Reply)
    requires e.request.DeviceComplete?
    requires (t, reply) == CompleteDevice(c, s, e.ctx, e.request.approval, e.request.proof, e.mint.refresh)
    ensures ActivationsSay(c, s, e, t)
  {
    CompleteCases(c, s, e, t, reply);
    CompleteApart(s, e, e.request.approval);
    if Completes(s, e, e.request.approval) { PromotedTables(c, s, e); }
    hide CompleteDevice, FindsLate, Completes, CompletesAgain, Presents, Promoted, ActivationsSay, CancelReplaced;
    CancelledSay(c, s, e, t);
  }

  lemma CancelledSay(c: Config, s: State, e: Event, t: State)
    requires e.request.DeviceComplete? && (Completes(s, e, e.request.approval) ==> e.request.approval in s.approvals)
    requires t.activations == if Completes(s, e, e.request.approval)
      then CancelReplaced(s.approvals, s.activations, s.approvals[e.request.approval].user, Some(e.request.approval), true)
      else s.activations
    ensures ActivationsSay(c, s, e, t)
  {
    NobodyAsks(s, e);
    hide ActivationAfter, Completes, Asks, IsReplaced;
    forall v | v in s.activations ensures t.activations[v] == ActivationAfter(s, e, v) { CompleteActivation(s, e, v); }
  }

  lemma CompleteActivation(s: State, e: Event, v: Id)
    requires v in s.activations && e.request.DeviceComplete?
    ensures var a, row := e.request.approval, s.activations[v];
            ActivationAfter(s, e, v)
            == if Completes(s, e, a) && row.user == s.approvals[a].user && row.status == Live
                  && IsReplaced(s.approvals, s.approvals[a].user, Some(a), row.device) && s.approvals[row.device].session == row.session
               then row.(status := Cancelled) else row
  {
    hide Completes, IsPhone, IsCaller, IsTrusted;
    NotGivenUp(s, e, s.activations[v].device);
    hide GivesUp;
  }

  lemma CompleteSays(c: Config, s: State, e: Event, t: State, reply: Reply)
    requires e.request.DeviceComplete?
    requires (t, reply) == CompleteDevice(c, s, e.ctx, e.request.approval, e.request.proof, e.mint.refresh)
    ensures Says(c, s, e, t, reply)
  {
    hide SessionsSay, ApprovalsSay, QrsSay, ActivationsSay, UsersSay, ExpireApproval, CompleteDevice;
    hide FindsLate, Completes, CompletesAgain, Presents, Promoted, CancelReplaced, IsReplaced;
    CompleteCases(c, s, e, t, reply);
    CompleteApart(s, e, e.request.approval);
    CompleteApprovals(c, s, e, t, reply);
    CompleteSessions(c, s, e, t, reply);
    CompleteActivations(c, s, e, t, reply);
    if Completes(s, e, e.request.approval) { PromotedTables(c, s, e); }
    if e.request.approval in s.approvals { ExpiredTables(s, e.request.approval); }
    QrsSame(c, s, e, t);
    UsersSame(s, e, t);
  }

  // ----------------------------------------------------------- mailbox codes

  lemma MailboxCases(c: Config, w: World, e: Event, t: State, reply: Reply)
    requires FreshMint(w, e.mint) && e.request.VerifyEmailCode?
    requires (t, reply) == VerifyEmailOtp(c, w.db, e.ctx, e.request.user, e.request.reviewer, e.request.device, e.request.mail,
                                          e.mint.id, e.mint.refresh, e.mint.approval, e.mint.first, e.mint.second)
    ensures var s, user, now := w.db, e.request.user, e.ctx.now;
            if !IsMailboxCode(s, e) then reply.Refused? && t == s
            else
              && (reply.Refused? <==> !e.request.reviewer && !IsKnown(s, user, e.request.device, now) && !e.request.mail.MailSent?)
              && t == s.(sessions := s.sessions[e.mint.id := NewSession(c, s, e)], approvals := t.approvals, activations := t.activations,
                         log := t.log)
              && t.activations == (if e.request.reviewer then CancelReplaced(s.approvals, s.activations, user, None, false) else s.activations)
              && t.approvals == (if e.request.reviewer then RevokeTrusted(s.approvals, user, None, now)[e.mint.approval := NewApproval(c, s, e)]
                                 else if IsKnown(s, user, e.request.device, now) then s.approvals
                                 else MarkLapsed(s, user, e.request.device, now).approvals[e.mint.approval := NewApproval(c, s, e)])
  {
    KnownExactly(w.db, e.request.user, e.request.device, e.ctx.now);
    hide KnownDevice, RevokeTrusted, CancelReplaced;
    if IsMailboxCode(w.db, e) {
      HeldTwice(w.db.sessions, e.mint.id, Session(e.request.user, Sha256(e.mint.refresh), ACTIVE, AAL2, AUTHENTICATOR_ACTIVATION, 0,
                                                  e.ctx.now + c.mobileRefreshTtl), NewSession(c, w.db, e));
    }
  }

  lemma HeldTwice(sessions: Sessions, id: Id, row: Session, last: Session)
    ensures sessions[id := row][id := last] == sessions[id := last]
  {
  }

  lemma LapsedExactly(s: State, user: Id, d: DeviceClaim, now: Time, a: Id)
    requires a in s.approvals
    ensures var later := MarkLapsed(s, user, d, now).approvals;
            && later.Keys == s.approvals.Keys
            && later[a] == if d.Device? && d.approval == a && s.approvals[a].user == user && s.approvals[a].status == Trusted
                              && !IsTrusted(s, user, a, now)
                           then s.approvals[a].(status := ApprovalExpired) else s.approvals[a]
  {
  }

  lemma MailboxApproval(c: Config, s: State, e: Event, a: Id)
    requires e.request.VerifyEmailCode? && a in s.approvals
    ensures ApprovalAfter(c, s, e, a)
         == if !IsMailboxCode(s, e) then s.approvals[a]
            else if e.request.reviewer then
              (if IsReplaced(s.approvals, e.request.user, None, a)
               then s.approvals[a].(status := ApprovalRevoked, trustedUntil := Some(e.ctx.now)) else s.approvals[a])
            else MarkLapsed(s, e.request.user, e.request.device, e.ctx.now).approvals[a]
  {
    LapsedExactly(s, e.request.user, e.request.device, e.ctx.now, a);
    hide MarkLapsed, IsTrusted, IsPhone, IsCaller;
  }

  /** The approvals a mailbox code leaves of those there were. */
  function MailboxLeaves(s: State, e: Event): map<Id, Approval>
    requires e.request.VerifyEmailCode?
  {
    if !IsMailboxCode(s, e) then s.approvals
    else if e.request.reviewer then RevokeTrusted(s.approvals, e.request.user, None, e.ctx.now)
    else MarkLapsed(s, e.request.user, e.request.device, e.ctx.now).approvals
  }

  lemma MailboxTable(c: Config, w: World, e: Event, t: State)
    requires FreshMint(w, e.mint) && e.request.VerifyEmailCode?
    requires t.approvals == (if Draws(c, w.db, e) then MailboxLeaves(w.db, e)[e.mint.approval := NewApproval(c, w.db, e)]
                             else MailboxLeaves(w.db, e))
    ensures ApprovalsSay(c, w.db, e, t)
  {
    var s := w.db;
    hide ApprovalAfter, Draws, NewApproval;
    forall a | a in s.approvals ensures a in MailboxLeaves(s, e) && MailboxLeaves(s, e)[a] == ApprovalAfter(c, s, e, a) {
      MailboxApproval(c, s, e, a);
      MarkKnown(s, e);
    }
    assert MailboxLeaves(s, e).Keys == s.approvals.Keys by { MarkKnown(s, e); }
    hide MailboxLeaves;
  }

  lemma MailboxApprovals(c: Config, w: World, e: Event, t: State, reply: Reply)
    requires FreshMint(w, e.mint) && e.request.VerifyEmailCode?
    requires (t, reply) == VerifyEmailOtp(c, w.db, e.ctx, e.request.user, e.request.reviewer, e.request.device, e.request.mail,
                                          e.mint.id, e.mint.refresh, e.mint.approval, e.mint.first, e.mint.second)
    ensures ApprovalsSay(c, w.db, e, t)
  {
    MailboxCases(c, w, e, t, reply);
    MarkKnown(w.db, e);
    hide VerifyEmailOtp, MarkLapsed, NewSession, CancelReplaced, RevokeTrusted, NewApproval, IsKnown, ApprovalsSay;
    MailboxTable(c, w, e, t);
  }

  /** A known device's trust is not lapsed, and marking keeps the rows there are. */
  lemma MarkKnown(s: State, e: Event)
    requires e.request.VerifyEmailCode?
    ensures MarkLapsed(s, e.request.user, e.request.device, e.ctx.now).approvals.Keys == s.approvals.Keys
    ensures IsKnown(s, e.request.user, e.request.device, e.ctx.now) ==>
              MarkLapsed(s, e.request.user, e.request.device, e.ctx.now).approvals == s.approvals
  {
  }

  lemma MailboxActivation(s: State, e: Event, v: Id)
    requires e.request.VerifyEmailCode? && v in s.activations
    ensures ActivationAfter(s, e, v)
         == if IsMailboxCode(s, e) && e.request.reviewer && s.activations[v].user == e.request.user && s.activations[v].status == Live
               && IsReplaced(s.approvals, e.request.user, None, s.activations[v].device)
            then s.activations[v].(status := Cancelled) else s.activations[v]
  {
    hide IsPhone, IsCaller, IsTrusted;
    NotGivenUp(s, e, s.activations[v].device);
    hide GivesUp;
  }

  lemma MailboxSays(c: Config, w: World, e: Event, t: State, reply: Reply)
    requires FreshMint(w, e.mint) && e.request.VerifyEmailCode?
    requires (t, reply) == VerifyEmailOtp(c, w.db, e.ctx, e.request.user, e.request.reviewer, e.request.device, e.request.mail,
                                          e.mint.id, e.mint.refresh, e.mint.approval, e.mint.first, e.mint.second)
    ensures Says(c, w.db, e, t, reply)
  {
    hide SessionsSay, ApprovalsSay, QrsSay, ActivationsSay, UsersSay, VerifyEmailOtp;
    hide NewSession, NewApproval, RevokeTrusted, MarkLapsed, IsKnown, CancelReplaced;
    var s := w.db;
    MailboxCases(c, w, e, t, reply);
    MailboxApprovals(c, w, e, t, reply);
    MailboxRest(c, w, e, t);
    QrsSame(c, s, e, t);
    UsersSame(s, e, t);
  }

  lemma MailboxRest(c: Config, w: World, e: Event, t: State)
    requires FreshMint(w, e.mint) && e.request.VerifyEmailCode?
    requires var s := w.db;
             && t.sessions == (if IsMailboxCode(s, e) then s.sessions[e.mint.id := NewSession(c, s, e)] else s.sessions)
             && t.activations == (if IsMailboxCode(s, e) && e.request.reviewer
                                  then CancelReplaced(s.approvals, s.activations, e.request.user, None, false) else s.activations)
    ensures SessionsSay(c, w.db, e, t) && ActivationsSay(c, w.db, e, t)
  {
    var s := w.db;
    NobodyAsks(s, e);
    hide SessionAfter, ActivationAfter, NewSession;
    forall id | id in s.sessions ensures SessionAfter(c, s, e, id) == s.sessions[id] { MailboxSession(c, s, e, id); }
    forall v | v in s.activations ensures t.activations[v] == ActivationAfter(s, e, v) { MailboxActivation(s, e, v); }
    hide Asks;
  }

  lemma MailboxSession(c: Config, s: State, e: Event, id: Id)
    requires e.request.VerifyEmailCode? && id in s.sessions
    ensures SessionAfter(c, s, e, id) == s.sessions[id]
  {
    PlainSession(c, s, e, id);
    hide SessionAfter;
  }

  // ----------------------------------------------------- authenticator codes

  lemma CodeCases(c: Config, w: World, e: Event, t: State, reply: Reply)
    requires FreshMint(w, e.mint) && e.request.Totp?
    requires (t, reply) == VerifyMfa(c, w.db, e.ctx, e.request.claims, e.request.matched, e.request.device, e.request.mail,
                                     e.mint.approval, e.mint.first, e.mint.second)
    ensures var s := w.db;
            if !IsCode(s, e) || (e.request.matched.Some? && !IsGoodCode(s, e, e.request.claims.value.session)) then reply.Refused? && t == s
            else
              var sid, user := e.request.claims.value.session, e.request.claims.value.user;
              var row := s.sessions[sid];
              if e.request.matched.None? then
                && reply.Refused?
                && t == s.(sessions := s.sessions[sid := row.(failed := row.failed + 1,
                                                              status := if row.failed + 1 >= c.mfaMaxFailed then REVOKED else row.status)])
              else
                && t.users == s.users[user := s.users[user].(lastCounter := e.request.matched)]
                && t == s.(sessions := t.sessions, approvals := t.approvals, users := t.users, log := t.log)
                && (!reply.Refused? <==> GoesOn(c, s, e) || e.request.mail.MailSent?)
                && t.sessions == s.sessions[sid := row.(aal := AAL2, failed := 0,
                                                        status := if GoesOn(c, s, e) then row.status
                                                                  else if e.request.mail.MailSent? then PENDING_DEVICE_APPROVAL else REVOKED)]
                && t.approvals == (if GoesOn(c, s, e) then s.approvals
                                   else MarkLapsed(s, user, e.request.device, e.ctx.now).approvals[e.mint.approval := NewApproval(c, s, e)])
  {
    AdmitsExactly(w.db, e.ctx, e.request.claims, false, {OFFICE});
    hide Authenticate, AdmitBrowser;
    if IsCode(w.db, e) && e.request.matched.Some? && IsGoodCode(w.db, e, e.request.claims.value.session) {
      AdmittedCase(c, w, e, t, reply);
    }
  }

  lemma AdmittedCase(c: Config, w: World, e: Event, t: State, reply: Reply)
    requires FreshMint(w, e.mint) && e.request.Totp? && e.request.claims.Some? && e.request.claims.value.session in w.db.sessions
    requires e.request.claims.value.user in w.db.users && IsGoodCode(w.db, e, e.request.claims.value.session)
    requires var s, sid, user := w.db, e.request.claims.value.session, e.request.claims.value.user;
             var promoted := WithUser(WithSession(s, sid, s.sessions[sid].(aal := AAL2, failed := 0)),
                                      user, s.users[user].(lastCounter := Some(e.request.matched.value)));
             (t, reply) == AdmitBrowser(c, promoted, e.ctx, sid, user, e.request.matched.value, e.request.device, e.request.mail,
                                        e.mint.approval, e.mint.first, e.mint.second)
    ensures var s, sid, user := w.db, e.request.claims.value.session, e.request.claims.value.user;
            var row := s.sessions[sid];
            && t.users == s.users[user := s.users[user].(lastCounter := e.request.matched)]
            && t == s.(sessions := t.sessions, approvals := t.approvals, users := t.users, log := t.log)
            && (!reply.Refused? <==> GoesOn(c, s, e) || e.request.mail.MailSent?)
            && t.sessions == s.sessions[sid := row.(aal := AAL2, failed := 0,
                                                    status := if GoesOn(c, s, e) then row.status
                                                              else if e.request.mail.MailSent? then PENDING_DEVICE_APPROVAL else REVOKED)]
            && t.approvals == (if GoesOn(c, s, e) then s.approvals
                               else MarkLapsed(s, user, e.request.device, e.ctx.now).approvals[e.mint.approval := NewApproval(c, s, e)])
  {
    var s, sid, user := w.db, e.request.claims.value.session, e.request.claims.value.user;
    var raised := s.sessions[sid].(aal := AAL2, failed := 0);
    var promoted := WithUser(WithSession(s, sid, raised), user, s.users[user].(lastCounter := Some(e.request.matched.value)));
    KnownExactly(promoted, user, e.request.device, e.ctx.now);
    SameTrust(s, promoted, user, e.request.device, e.ctx.now);
    hide KnownDevice, IsKnown, MarkLapsed, IsGoodCode;
    HeldTwice(s.sessions, sid, raised, t.sessions[sid]);
  }

  lemma SameTrust(s: State, t: State, user: Id, d: DeviceClaim, now: Time)
    requires t.approvals == s.approvals
    ensures IsKnown(t, user, d, now) == IsKnown(s, user, d, now)
    ensures MarkLapsed(t, user, d, now).approvals == MarkLapsed(s, user, d, now).approvals
  {
  }

  /** A session after a code. */
  function CodedSession(c: Config, s: State, e: Event, id: Id): Session
    requires e.request.Totp? && id in s.sessions
  {
    var row := s.sessions[id];
    if IsWrongCode(s, e, id) then
      row.(failed := row.failed + 1, status := if row.failed + 1 >= c.mfaMaxFailed then REVOKED else row.status)
    else if IsGoodCode(s, e, id) then
      row.(aal := AAL2, failed := 0,
           status := if GoesOn(c, s, e) then row.status else if e.request.mail.MailSent? then PENDING_DEVICE_APPROVAL else REVOKED)
    else row
  }

  lemma CodeMoves(c: Config, s: State, e: Event, id: Id)
    requires e.request.Totp? && id in s.sessions
    ensures SessionAfter(c, s, e, id) == CodedSession(c, s, e, id)
  {
    hide IsPhone, IsCaller, IsTrusted, IsKnown;
  }

  /** A code moves the session it is given for alone. */
  lemma CodedSessionsSay(c: Config, s: State, e: Event, t: State)
    requires e.request.Totp?
    requires t.sessions == if IsCode(s, e)
      then s.sessions[e.request.claims.value.session := CodedSession(c, s, e, e.request.claims.value.session)] else s.sessions
    ensures SessionsSay(c, s, e, t)
  {
    hide SessionAfter;
    forall id | id in s.sessions ensures SessionAfter(c, s, e, id) == if IsCode(s, e) && e.request.claims.value.session == id
      then CodedSession(c, s, e, id) else s.sessions[id]
    {
      CodeMoves(c, s, e, id);
      hide IsOffice, GoesOn;
    }
    hide IsCode, CodedSession;
  }

  /** What becomes of the session a code is given for. */
  lemma CodedIs(c: Config, s: State, e: Event)
    requires e.request.Totp? && IsCode(s, e)
    ensures var sid := e.request.claims.value.session;
            CodedSession(c, s, e, sid)
            == var row := s.sessions[sid];
               if e.request.matched.None? then
                 row.(failed := row.failed + 1, status := if row.failed + 1 >= c.mfaMaxFailed then REVOKED else row.status)
               else if IsGoodCode(s, e, sid) then
                 row.(aal := AAL2, failed := 0,
                      status := if GoesOn(c, s, e) then row.status else if e.request.mail.MailSent? then PENDING_DEVICE_APPROVAL else REVOKED)
               else row
  {
    hide GoesOn, IsCaller;
  }

  lemma CodeSessions(c: Config, w: World, e: Event, t: State, reply: Reply)
    requires FreshMint(w, e.mint) && e.request.Totp?
    requires (t, reply) == VerifyMfa(c, w.db, e.ctx, e.request.claims, e.request.matched, e.request.device, e.request.mail,
                                     e.mint.approval, e.mint.first, e.mint.second)
    ensures SessionsSay(c, w.db, e, t)
  {
    hide VerifyMfa, MarkLapsed, NewApproval, GoesOn, IsCaller, SessionsSay;
    CodeCases(c, w, e, t, reply);
    CodeIsFor(w.db, e);
    if IsCode(w.db, e) {
      CodedIs(c, w.db, e);
      var sid := e.request.claims.value.session;
      assert w.db.sessions == w.db.sessions[sid := w.db.sessions[sid]];
    }
    hide IsGoodCode, IsCode, CodedSession;
    CodedSessionsSay(c, w.db, e, t);
  }

  lemma CodeApproval(c: Config, s: State, e: Event, a: Id)
    requires e.request.Totp? && a in s.approvals
    ensures ApprovalAfter(c, s, e, a)
         == if e.request.claims.Some? && IsGoodCode(s, e, e.request.claims.value.session) && c.deviceApprovalRequired
            then MarkLapsed(s, e.request.claims.value.user, e.request.device, e.ctx.now).approvals[a] else s.approvals[a]
  {
    if e.request.claims.Some? { LapsedExactly(s, e.request.claims.value.user, e.request.device, e.ctx.now, a); }
    hide MarkLapsed, IsTrusted, IsPhone, IsGoodCode;
  }

  /** The approvals a code leaves of those there were. */
  function CodeLeaves(c: Config, s: State, e: Event): map<Id, Approval>
    requires e.request.Totp?
  {
    if e.request.claims.Some? && IsGoodCode(s, e, e.request.claims.value.session) && c.deviceApprovalRequired
    then MarkLapsed(s, e.request.claims.value.user, e.request.device, e.ctx.now).approvals else s.approvals
  }

  lemma CodeTable(c: Config, w: World, e: Event, t: State)
    requires FreshMint(w, e.mint) && e.request.Totp?
    requires t.approvals == (if Draws(c, w.db, e) then CodeLeaves(c, w.db, e)[e.mint.approval := NewApproval(c, w.db, e)]
                             else CodeLeaves(c, w.db, e))
    ensures ApprovalsSay(c, w.db, e, t)
  {
    var s := w.db;
    if e.request.claims.Some? { KnownUnmarked(s, e.request.claims.value.user, e.request.device, e.ctx.now); }
    hide ApprovalAfter, Draws, NewApproval, MarkLapsed, IsKnown, IsGoodCode;
    forall a | a in s.approvals ensures a in CodeLeaves(c, s, e) && CodeLeaves(c, s, e)[a] == ApprovalAfter(c, s, e, a) {
      CodeApproval(c, s, e, a);
    }
    assert CodeLeaves(c, s, e).Keys == s.approvals.Keys;
    hide CodeLeaves;
  }

  lemma CodeApprovals(c: Config, w: World, e: Event, t: State, reply: Reply)
    requires FreshMint(w, e.mint) && e.request.Totp?
    requires (t, reply) == VerifyMfa(c, w.db, e.ctx, e.request.claims, e.request.matched, e.request.device, e.request.mail,
                                     e.mint.approval, e.mint.first, e.mint.second)
    ensures ApprovalsSay(c, w.db, e, t)
  {
    hide VerifyMfa, MarkLapsed, NewApproval, IsGoodCode, IsKnown, IsCode, ApprovalsSay;
    var s := w.db;
    CodeCases(c, w, e, t, reply);
    CodeIsFor(s, e);
    if e.request.claims.Some? { KnownUnmarked(s, e.request.claims.value.user, e.request.device, e.ctx.now); }
    CodeTable(c, w, e, t);
  }

  lemma CodeIsFor(s: State, e: Event)
    requires e.request.Totp?
    ensures IsCode(s, e) ==> e.request.claims.Some? && e.request.claims.value.session in s.sessions
    ensures e.request.claims.Some? && IsGoodCode(s, e, e.request.claims.value.session) ==> IsCode(s, e) && e.request.matched.Some?
  {
  }

  lemma KnownUnmarked(s: State, user: Id, d: DeviceClaim, now: Time)
    ensures MarkLapsed(s, user, d, now).approvals.Keys == s.approvals.Keys
    ensures IsKnown(s, user, d, now) ==> MarkLapsed(s, user, d, now).approvals == s.approvals
  {
  }

  lemma CodeUsers(c: Config, w: World, e: Event, t: State, reply: Reply)
    requires FreshMint(w, e.mint) && e.request.Totp?
    requires (t, reply) == VerifyMfa(c, w.db, e.ctx, e.request.claims, e.request.matched, e.request.device, e.request.mail,
                                     e.mint.approval, e.mint.first, e.mint.second)
    ensures UsersSay(w.db, e, t)
  {
    CodeCases(c, w, e, t, reply);
    hide VerifyMfa, MarkLapsed, NewApproval, GoesOn;
  }

  lemma CodeSaid(c: Config, w: World, e: Event, t: State, reply: Reply)
    requires FreshMint(w, e.mint) && e.request.Totp?
    requires (t, reply) == VerifyMfa(c, w.db, e.ctx, e.request.claims, e.request.matched, e.request.device, e.request.mail,
                                     e.mint.approval, e.mint.first, e.mint.second)
    ensures Says(c, w.db, e, t, reply)
  {
    hide SessionsSay, ApprovalsSay, QrsSay, ActivationsSay, UsersSay;
    hide VerifyMfa, MarkLapsed, NewApproval, GoesOn, IsGoodCode, IsCode;
    var s := w.db;
    CodeCases(c, w, e, t, reply);
    CodeIsFor(s, e);
    CodeSessions(c, w, e, t, reply);
    CodeApprovals(c, w, e, t, reply);
    CodeUsers(c, w, e, t, reply);
    QrsSame(c, s, e, t);
    ActivationsSame(c, s, e, t);
  }
}
