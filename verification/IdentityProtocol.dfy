/** Requests as one datatype, worlds and runs. */
module IdentityProtocol {
  import opened IdentityModel

  datatype Request =
    | SignInWith(user: Id, accepted: bool)
    | RegisterAs(user: Id)
    | VerifyEmailCode(user: Id, reviewer: bool, device: DeviceClaim, mail: Mail)
    | StartQr(claims: Option<Claims>)
    | QrStatusOf(qr: Id, proof: Token)
    | QrCancel(qr: Id, proof: Token)
    | QrScan(claims: Option<Claims>, device: DeviceClaim, qr: Id, proof: Token)
    | QrDecide(claims: Option<Claims>, device: DeviceClaim, qr: Id, approve: bool)
    | QrComplete(qr: Id, proof: Token)
    | AskActivation(claims: Option<Claims>)
    | Claim(activation: Id, proof: Token)
    | EndSession(claims: Option<Claims>, target: Id)
    | NewPassword(claims: Option<Claims>, accepted: bool)
    | Recover(user: Id, accepted: bool)
    | RecoveryLink(claims: Option<Claims>, user: Id, permitted: bool)
    | FactorReset(claims: Option<Claims>, user: Id, permitted: bool)
    | FounderRecovery(user: Id, keyAccepted: bool)
    | RefreshWith(proof: Token)
    | SignOutOf(claims: Option<Claims>)
    | Totp(claims: Option<Claims>, matched: Option<nat>, device: DeviceClaim, mail: Mail)
    | DeviceReview(approval: Id, proof: Token)
    | DeviceDecide(approval: Id, proof: Token, approve: bool)
    | DeviceStatusOf(approval: Id, proof: Token)
    | DeviceRevoke(claims: Option<Claims>, approval: Id, proof: Token)
    | DeviceComplete(approval: Id, proof: Token)

  /** The identifiers and tokens a request may draw from `uuid` and `secrets`. */
  datatype Mint = Mint(id: Id, approval: Id, refresh: Token, first: Token, second: Token)

  datatype Event = Event(ctx: Ctx, mint: Mint, request: Request)

  /** One request against the tables. */
  ghost function Step(c: Config, s: State, e: Event): (State, Reply) {
    var Event(x, m, request) := e;
    match request
    case SignInWith(user, accepted) => SignIn(c, s, x, user, accepted, m.id, m.refresh)
    case RegisterAs(user) => Register(c, s, x, user, m.id, m.refresh)
    case VerifyEmailCode(user, reviewer, device, mail) =>
      VerifyEmailOtp(c, s, x, user, reviewer, device, mail, m.id, m.refresh, m.approval, m.first, m.second)
    case StartQr(claims) => CreateQr(c, s, x, claims, m.id, m.first, m.second)
    case QrStatusOf(qr, proof) => ReadQr(s, x, qr, proof)
    case QrCancel(qr, proof) => CancelQr(s, qr, proof)
    case QrScan(claims, device, qr, proof) => ScanQr(s, x, claims, device, qr, proof)
    case QrDecide(claims, device, qr, approve) => DecideQr(s, x, claims, device, qr, approve)
    case QrComplete(qr, proof) => CompleteQr(s, x, qr, proof)
    case AskActivation(claims) => RequestActivation(c, s, x, claims, m.id, m.first)
    case Claim(activation, proof) => ClaimActivation(s, x, activation, proof)
    case EndSession(claims, target) => RevokeSession(s, x, claims, target)
    case NewPassword(claims, accepted) => ChangePassword(s, x, claims, accepted)
    case Recover(user, accepted) => RecoverPassword(s, user, accepted)
    case RecoveryLink(claims, user, permitted) => IssueRecovery(s, x, claims, user, permitted)
    case FactorReset(claims, user, permitted) => ResetMfa(s, x, claims, user, permitted)
    case FounderRecovery(user, keyAccepted) => BreakGlass(s, user, keyAccepted)
    case RefreshWith(proof) => Refresh(s, x, proof, m.refresh)
    case SignOutOf(claims) => SignOut(s, x, claims)
    case Totp(claims, matched, device, mail) =>
      VerifyMfa(c, s, x, claims, matched, device, mail, m.approval, m.first, m.second)
    case DeviceReview(approval, proof) => ReviewDevice(s, x, approval, proof)
    case DeviceDecide(approval, proof, approve) => DecideDevice(s, x, approval, proof, approve)
    case DeviceStatusOf(approval, proof) => ReadDevice(s, x, approval, proof)
    case DeviceRevoke(claims, approval, proof) => RevokeDevice(s, x, claims, approval, proof)
    case DeviceComplete(approval, proof) => CompleteDevice(c, s, x, approval, proof, m.refresh)
  }

  /** The tables, the clock, and every token drawn so far. */
  datatype World = World(db: State, clock: Time, minted: set<Token>)

  const EMPTY := World(State(map[], map[], map[], map[], map[], []), 0, {})

  /** Drawn identifiers are new to every table and drawn tokens are new altogether. */
  predicate FreshMint(w: World, m: Mint) {
    && m.id !in w.db.sessions && m.id !in w.db.qrs && m.id !in w.db.activations
    && m.approval !in w.db.approvals
    && m.refresh !in w.minted && m.first !in w.minted && m.second !in w.minted
    && m.refresh != m.first && m.refresh != m.second && m.first != m.second
  }

  /** The clock does not run backwards. */
  predicate Possible(w: World, e: Event) {
    w.clock <= e.ctx.now && FreshMint(w, e.mint)
  }

  ghost function Next(c: Config, w: World, e: Event): World {
    World(Step(c, w.db, e).0, e.ctx.now, w.minted + {e.mint.refresh, e.mint.first, e.mint.second})
  }

  /** A run from empty tables: `worlds[i + 1]` follows `worlds[i]` by `events[i]`. */
  ghost predicate IsRun(c: Config, worlds: seq<World>, events: seq<Event>) {
    && ValidConfig(c)
    && |worlds| == |events| + 1
    && worlds[0] == EMPTY
    && forall i :: 0 <= i < |events| ==> Possible(worlds[i], events[i]) && worlds[i + 1] == Next(c, worlds[i], events[i])
  }
}
