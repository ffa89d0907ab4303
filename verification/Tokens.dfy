/** Rotating refresh tokens and one-time tokens: a read, then a conditional update, then an insert,
    interleaved across callers, with a clock that moves on in between. */
module Tokens {
  import opened Common

  type UserId = nat
  type TokenId = nat
  type Secret = nat

  /** What a raw token carries: an id and the secret whose HMAC is stored.  `None` stands for a
      string that `parseOpaqueToken` rejects; distinct secrets have distinct HMACs. */
  datatype Raw = Raw(token: TokenId, secret: Secret)

  datatype Refresh = Refresh(user: UserId, secret: Secret, expires: int, revoked: Option<int>)

  datatype Kind = Verification | PasswordReset

  datatype OneTime = OneTime(kind: Kind, user: UserId, secret: Secret, expires: int, used: Option<int>)

  datatype RotatePhase =
    | Validated(token: TokenId)
    | Claimed(token: TokenId)
    | Rotated(token: TokenId, next: TokenId)
    | RotateFailed

  datatype SignInPhase = Cleared | SignedIn(token: TokenId) | SignInFailed

  datatype SignIn = SignIn(user: UserId, phase: SignInPhase)

  datatype ConsumePhase = Checked(token: TokenId) | Consumed(token: TokenId) | ConsumeFailed

  /** Tables are append-only, so an id is a position. */
  datatype State = State(
    now: int,
    refresh: seq<Refresh>,
    oneTime: seq<OneTime>,
    rotations: seq<RotatePhase>,
    signIns: seq<SignIn>,
    consumes: seq<ConsumePhase>)

  datatype Event =
    | Tick(millis: nat)
    | RotateValidate(raw: Option<Raw>)
    | RotateClaim(r: nat)
    | RotateInsert(r: nat, secret: Secret)
    | RotateFails(r: nat)
    | SignInRevoke(user: UserId)
    | SignInInsert(k: nat, secret: Secret)
    | SignInFails(k: nat)
    | RevokeAll(user: UserId)
    | Revoke(token: TokenId)
    | IssueOneTime(kind: Kind, user: UserId, secret: Secret)
    | ConsumeCheck(kind: Kind, raw: Option<Raw>)
    | ConsumeMark(c: nat)

  const REFRESH_TTL := 604_800_000      // 7d
  const VERIFICATION_TTL := 86_400_000  // 24h
  const RESET_TTL := 3_600_000          // 1h

  function TtlOf(kind: Kind): int {
    if kind == Verification then VERIFICATION_TTL else RESET_TTL
  }

  /** The `isActive` getter. */
  predicate Active(t: Refresh, now: int) {
    t.revoked.None? && t.expires > now
  }

  /** The `isUsable` getter. */
  predicate Usable(t: OneTime, now: int) {
    t.used.None? && t.expires > now
  }

  predicate ValidRefresh(s: State, raw: Option<Raw>) {
    raw.Some? && raw.value.token < |s.refresh| && Active(s.refresh[raw.value.token], s.now)
    && s.refresh[raw.value.token].secret == raw.value.secret
  }

  predicate ValidOneTime(s: State, kind: Kind, raw: Option<Raw>) {
    raw.Some? && raw.value.token < |s.oneTime| && s.oneTime[raw.value.token].kind == kind
    && Usable(s.oneTime[raw.value.token], s.now) && s.oneTime[raw.value.token].secret == raw.value.secret
  }

  /** `UPDATE ... SET revoked_at WHERE user_id = :userId AND revoked_at IS NULL` */
  function AllRevoked(refresh: seq<Refresh>, user: UserId, now: int): (r: seq<Refresh>)
    ensures |r| == |refresh|
  {
    seq(|refresh|, i requires 0 <= i < |refresh| =>
      if refresh[i].user == user && refresh[i].revoked.None? then refresh[i].(revoked := Some(now)) else refresh[i])
  }

  function DoRotateValidate(s: State, raw: Option<Raw>): State {
    s.(rotations := s.rotations + [if ValidRefresh(s, raw) then Validated(raw.value.token) else RotateFailed])
  }

  /** `UPDATE ... SET revoked_at WHERE id = :id AND revoked_at IS NULL`, and a look at `affected`. */
  function DoRotateClaim(s: State, r: nat): State {
    if !(r < |s.rotations| && s.rotations[r].Validated? && s.rotations[r].token < |s.refresh|) then s
    else
      var t := s.rotations[r].token;
      if s.refresh[t].revoked.Some? then s.(rotations := s.rotations[r := RotateFailed])
      else
        s.(rotations := s.rotations[r := Claimed(t)],
           refresh := s.refresh[t := s.refresh[t].(revoked := Some(s.now))])
  }

  function DoRotateInsert(s: State, r: nat, secret: Secret): State {
    if !(r < |s.rotations| && s.rotations[r].Claimed? && s.rotations[r].token < |s.refresh|) then s
    else
      var t := s.rotations[r].token;
      s.(rotations := s.rotations[r := Rotated(t, |s.refresh|)],
         refresh := s.refresh + [Refresh(s.refresh[t].user, secret, s.now + REFRESH_TTL, None)])
  }

  function DoRotateFails(s: State, r: nat): State {
    if !(r < |s.rotations| && (s.rotations[r].Validated? || s.rotations[r].Claimed?)) then s
    else s.(rotations := s.rotations[r := RotateFailed])
  }

  function DoSignInRevoke(s: State, user: UserId): State {
    s.(refresh := AllRevoked(s.refresh, user, s.now), signIns := s.signIns + [SignIn(user, Cleared)])
  }

  function DoSignInInsert(s: State, k: nat, secret: Secret): State {
    if !(k < |s.signIns| && s.signIns[k].phase.Cleared?) then s
    else
      s.(signIns := s.signIns[k := s.signIns[k].(phase := SignedIn(|s.refresh|))],
         refresh := s.refresh + [Refresh(s.signIns[k].user, secret, s.now + REFRESH_TTL, None)])
  }

  function DoSignInFails(s: State, k: nat): State {
    if !(k < |s.signIns| && s.signIns[k].phase.Cleared?) then s
    else s.(signIns := s.signIns[k := s.signIns[k].(phase := SignInFailed)])
  }

  /** `update(tokenId, { revokedAt })`: unconditional, and a no-op for an unknown id. */
  function DoRevoke(s: State, t: TokenId): State {
    if t >= |s.refresh| then s else s.(refresh := s.refresh[t := s.refresh[t].(revoked := Some(s.now))])
  }

  function DoConsumeCheck(s: State, kind: Kind, raw: Option<Raw>): State {
    s.(consumes := s.consumes + [if ValidOneTime(s, kind, raw) then Checked(raw.value.token) else ConsumeFailed])
  }

  /** The verification update also asks for `expires_at > NOW()`, the password reset does not. */
  predicate Markable(t: OneTime, now: int) {
    t.used.None? && (t.kind == Verification ==> t.expires > now)
  }

  function DoConsumeMark(s: State, c: nat): State {
    if !(c < |s.consumes| && s.consumes[c].Checked? && s.consumes[c].token < |s.oneTime|) then s
    else
      var t := s.consumes[c].token;
      if !Markable(s.oneTime[t], s.now) then s.(consumes := s.consumes[c := ConsumeFailed])
      else
        s.(consumes := s.consumes[c := Consumed(t)],
           oneTime := s.oneTime[t := s.oneTime[t].(used := Some(s.now))])
  }

  function Step(s: State, e: Event): State {
    match e
    case Tick(millis) => s.(now := s.now + millis)
    case RotateValidate(raw) => DoRotateValidate(s, raw)
    case RotateClaim(r) => DoRotateClaim(s, r)
    case RotateInsert(r, secret) => DoRotateInsert(s, r, secret)
    case RotateFails(r) => DoRotateFails(s, r)
    case SignInRevoke(user) => DoSignInRevoke(s, user)
    case SignInInsert(k, secret) => DoSignInInsert(s, k, secret)
    case SignInFails(k) => DoSignInFails(s, k)
    case RevokeAll(user) => s.(refresh := AllRevoked(s.refresh, user, s.now))
    case Revoke(t) => DoRevoke(s, t)
    case IssueOneTime(kind, user, secret) =>
      s.(oneTime := s.oneTime + [OneTime(kind, user, secret, s.now + TtlOf(kind), None)])
    case ConsumeCheck(kind, raw) => DoConsumeCheck(s, kind, raw)
    case ConsumeMark(c) => DoConsumeMark(s, c)
  }

  function Run(s: State, es: seq<Event>): State
    decreases |es|
  {
    if es == [] then s else Run(Step(s, es[0]), es[1..])
  }

  predicate Initial(s: State) {
    s.refresh == [] && s.oneTime == [] && s.rotations == [] && s.signIns == [] && s.consumes == []
  }

  // ---- What every step keeps

  /** The rotation has claimed token t: nobody else can. */
  predicate Holds(r: RotatePhase, t: TokenId) {
    (r.Claimed? || r.Rotated?) && r.token == t
  }

  predicate RotationsOk(s: State) {
    && (forall r :: 0 <= r < |s.rotations| && !s.rotations[r].RotateFailed? ==> s.rotations[r].token < |s.refresh|)
    && (forall r :: 0 <= r < |s.rotations| && (s.rotations[r].Claimed? || s.rotations[r].Rotated?) ==>
          s.refresh[s.rotations[r].token].revoked.Some?)
    && (forall q, r :: 0 <= q < r < |s.rotations| && (s.rotations[q].Claimed? || s.rotations[q].Rotated?) ==>
          !Holds(s.rotations[r], s.rotations[q].token))
    && (forall r :: 0 <= r < |s.rotations| && s.rotations[r].Rotated? ==>
          && s.rotations[r].next < |s.refresh|
          && s.refresh[s.rotations[r].next].user == s.refresh[s.rotations[r].token].user)
    && (forall q, r :: 0 <= q < r < |s.rotations| && s.rotations[q].Rotated? && s.rotations[r].Rotated? ==>
          s.rotations[q].next != s.rotations[r].next)
  }

  predicate ConsumesOk(s: State) {
    && (forall c :: 0 <= c < |s.consumes| && !s.consumes[c].ConsumeFailed? ==> s.consumes[c].token < |s.oneTime|)
    && (forall c :: 0 <= c < |s.consumes| && s.consumes[c].Consumed? ==> s.oneTime[s.consumes[c].token].used.Some?)
    && (forall b, c :: 0 <= b < c < |s.consumes| && s.consumes[b].Consumed? && s.consumes[c].Consumed? ==>
          s.consumes[b].token != s.consumes[c].token)
    && (forall t :: 0 <= t < |s.oneTime| && s.oneTime[t].used.Some? ==>
          exists c :: 0 <= c < |s.consumes| && s.consumes[c] == Consumed(t))
  }

  predicate Inv(s: State) {
    RotationsOk(s) && ConsumesOk(s)
  }

  lemma RotateClaimKeeps(s: State, r: nat)
    requires RotationsOk(s)
    ensures RotationsOk(DoRotateClaim(s, r))
  {
  }

  lemma RotateInsertKeeps(s: State, r: nat, secret: Secret)
    requires RotationsOk(s)
    ensures RotationsOk(DoRotateInsert(s, r, secret))
  {
  }

  /** Refresh tokens are only added and revoked. */
  predicate OnlyRevoked(refresh: seq<Refresh>, later: seq<Refresh>) {
    && |refresh| <= |later|
    && (forall t :: 0 <= t < |refresh| ==> later[t].user == refresh[t].user)
    && (forall t :: 0 <= t < |refresh| && refresh[t].revoked.Some? ==> later[t].revoked.Some?)
  }

  lemma OtherStepsOnlyRevoke(s: State, e: Event)
    requires !e.RotateValidate? && !e.RotateClaim? && !e.RotateInsert? && !e.RotateFails?
    ensures Step(s, e).rotations == s.rotations && OnlyRevoked(s.refresh, Step(s, e).refresh)
  {
  }

  lemma OnlyRevokedKeeps(s: State, s': State)
    requires RotationsOk(s) && s'.rotations == s.rotations && OnlyRevoked(s.refresh, s'.refresh)
    ensures RotationsOk(s')
  {
  }

  lemma StepKeepsRotations(s: State, e: Event)
    requires RotationsOk(s)
    ensures RotationsOk(Step(s, e))
  {
    hide OnlyRevoked, DoRotateClaim, DoRotateInsert, DoConsumeCheck, DoConsumeMark, ValidRefresh, Holds;
    match e
    case RotateClaim(r) => RotateClaimKeeps(s, r);
    case RotateInsert(r, secret) => RotateInsertKeeps(s, r, secret);
    case RotateValidate(raw) => RotateValidateKeeps(s, raw);
    case RotateFails(r) => RotateFailsKeeps(s, r);
    case _ =>
      OtherStepsOnlyRevoke(s, e);
      OnlyRevokedKeeps(s, Step(s, e));
  }

  lemma RotateValidateKeeps(s: State, raw: Option<Raw>)
    requires RotationsOk(s)
    ensures RotationsOk(DoRotateValidate(s, raw))
  {
  }

  lemma RotateFailsKeeps(s: State, r: nat)
    requires RotationsOk(s)
    ensures RotationsOk(DoRotateFails(s, r))
  {
  }

  lemma ConsumeMarkKeeps(s: State, c: nat)
    requires ConsumesOk(s)
    ensures ConsumesOk(DoConsumeMark(s, c))
  {
    var s' := DoConsumeMark(s, c);
    forall t | 0 <= t < |s'.oneTime| && s'.oneTime[t].used.Some?
      ensures exists d :: 0 <= d < |s'.consumes| && s'.consumes[d] == Consumed(t)
    {
      if s.oneTime[t].used.Some? {
        var d :| 0 <= d < |s.consumes| && s.consumes[d] == Consumed(t);
        assert s'.consumes[d] == Consumed(t);
      } else {
        assert s'.consumes[c] == Consumed(t);
      }
    }
  }

  lemma ConsumeCheckKeeps(s: State, kind: Kind, raw: Option<Raw>)
    requires ConsumesOk(s)
    ensures ConsumesOk(DoConsumeCheck(s, kind, raw))
  {
    var s' := DoConsumeCheck(s, kind, raw);
    forall t | 0 <= t < |s'.oneTime| && s'.oneTime[t].used.Some?
      ensures exists d :: 0 <= d < |s'.consumes| && s'.consumes[d] == Consumed(t)
    {
      var d :| 0 <= d < |s.consumes| && s.consumes[d] == Consumed(t);
      assert s'.consumes[d] == Consumed(t);
    }
  }

  lemma StepKeepsConsumes(s: State, e: Event)
    requires ConsumesOk(s)
    ensures ConsumesOk(Step(s, e))
  {
    match e
    case ConsumeMark(c) => ConsumeMarkKeeps(s, c);
    case ConsumeCheck(kind, raw) => ConsumeCheckKeeps(s, kind, raw);
    case IssueOneTime(kind, user, secret) =>
      assert forall t :: 0 <= t < |s.oneTime| ==> Step(s, e).oneTime[t] == s.oneTime[t];
    case _ =>
  }

  lemma {:induction false} RunKeepsInv(s: State, es: seq<Event>)
    requires Inv(s)
    ensures Inv(Run(s, es))
    decreases |es|
  {
    if es != [] {
      hide RotationsOk, ConsumesOk, Step;
      StepKeepsRotations(s, es[0]);
      StepKeepsConsumes(s, es[0]);
      RunKeepsInv(Step(s, es[0]), es[1..]);
    }
  }

  /** Any interleaving: two rotations of one token never both succeed, no two rotations issue the
      same token, and a successor belongs to the same user. */
  lemma AtMostOneSuccessor(s0: State, es: seq<Event>, q: nat, r: nat)
    requires Initial(s0)
    requires var s := Run(s0, es); q < r < |s.rotations| && s.rotations[q].Rotated? && s.rotations[r].Rotated?
    ensures var s := Run(s0, es);
            && s.rotations[q].token != s.rotations[r].token && s.rotations[q].next != s.rotations[r].next
            && s.rotations[q].token < |s.refresh| && s.rotations[q].next < |s.refresh|
            && s.refresh[s.rotations[q].next].user == s.refresh[s.rotations[q].token].user
  {
    hide Run;
    RunKeepsInv(s0, es);
    assert !Holds(Run(s0, es).rotations[r], Run(s0, es).rotations[q].token);
  }

  /** Any interleaving: a one-time token is marked used exactly when one call consumed it, and at
      most one call did. */
  lemma ConsumedOnce(s0: State, es: seq<Event>, t: TokenId)
    requires Initial(s0) && t < |Run(s0, es).oneTime|
    ensures var s := Run(s0, es);
            && (s.oneTime[t].used.Some? <==> exists c :: 0 <= c < |s.consumes| && s.consumes[c] == Consumed(t))
            && (forall b, c ::
                  (0 <= b < |s.consumes| && 0 <= c < |s.consumes| && s.consumes[b] == s.consumes[c] == Consumed(t)) ==>
                    b == c)
  {
    hide Run;
    RunKeepsInv(s0, es);
  }

  /** Every used verification token was used before it expired. */
  predicate UsedInTime(oneTime: seq<OneTime>) {
    forall t :: 0 <= t < |oneTime| && oneTime[t].kind == Verification && oneTime[t].used.Some? ==>
      oneTime[t].used.value < oneTime[t].expires
  }

  lemma {:induction false} VerifiedInTime(s: State, es: seq<Event>)
    requires UsedInTime(s.oneTime)
    ensures UsedInTime(Run(s, es).oneTime)
    decreases |es|
  {
    hide Run;
    if es == [] {
      RunNothing(s);
    } else {
      StepInTime(s, es[0]);
      hide UsedInTime, Step;
      VerifiedInTime(Step(s, es[0]), es[1..]);
      RunUnfolds(s, es);
    }
  }

  lemma StepInTime(s: State, e: Event)
    requires UsedInTime(s.oneTime)
    ensures UsedInTime(Step(s, e).oneTime)
  {
  }

  lemma RunNothing(s: State)
    ensures Run(s, []) == s
  {
    hide Step;
  }

  /** The same for both kinds. */
  predicate AllInTime(oneTime: seq<OneTime>) {
    forall t :: 0 <= t < |oneTime| && oneTime[t].used.Some? ==> oneTime[t].used.value < oneTime[t].expires
  }

  /** The event does not mark a password reset token that has expired since it was checked. */
  predicate Timely(s: State, e: Event) {
    e.ConsumeMark? && e.c < |s.consumes| && s.consumes[e.c].Checked? && s.consumes[e.c].token < |s.oneTime| ==>
      var token := s.oneTime[s.consumes[e.c].token];
      token.kind == PasswordReset && token.used.None? ==> s.now < token.expires
  }

  lemma MarkInTimeIff(s: State, c: nat)
    requires AllInTime(s.oneTime) && c < |s.consumes| && s.consumes[c].Checked?
    requires s.consumes[c].token < |s.oneTime| && s.oneTime[s.consumes[c].token].used.None?
    ensures var token := s.oneTime[s.consumes[c].token];
            AllInTime(DoConsumeMark(s, c).oneTime) <==> token.kind == Verification || s.now < token.expires
  {
    var t := s.consumes[c].token;
    var later := DoConsumeMark(s, c).oneTime;
    assert later[t].used.Some? ==> later[t].used.value == s.now && later[t].expires == s.oneTime[t].expires;
  }

  lemma StepInTimeIff(s: State, e: Event)
    requires AllInTime(s.oneTime)
    ensures AllInTime(Step(s, e).oneTime) <==> Timely(s, e)
  {
    if e.ConsumeMark? && e.c < |s.consumes| && s.consumes[e.c].Checked? && s.consumes[e.c].token < |s.oneTime| {
      if s.oneTime[s.consumes[e.c].token].used.None? {
        MarkInTimeIff(s, e.c);
      }
    }
  }

  /** For every interleaving: every token is used before it expires exactly when no password reset
      token expires between its check and its update. */
  lemma UsedInTimeIff(s: State, es: seq<Event>)
    requires AllInTime(s.oneTime)
    ensures (forall k :: 0 <= k <= |es| ==> AllInTime(After(s, es, k).oneTime)) <==>
            (forall k :: 0 <= k < |es| ==> Timely(After(s, es, k), es[k]))
  {
    hide AllInTime, Timely, After, Step;
    if forall k :: 0 <= k <= |es| ==> AllInTime(After(s, es, k).oneTime) {
      forall k | 0 <= k < |es| ensures Timely(After(s, es, k), es[k]) {
        AfterNext(s, es, k);
        assert AllInTime(After(s, es, k).oneTime) && AllInTime(After(s, es, k + 1).oneTime);
        StepInTimeIff(After(s, es, k), es[k]);
      }
    }
    if forall k :: 0 <= k < |es| ==> Timely(After(s, es, k), es[k]) {
      AfterNothing(s, es);
      for k := 0 to |es|
        invariant forall j :: 0 <= j <= k ==> AllInTime(After(s, es, j).oneTime)
      {
        AfterNext(s, es, k);
        StepInTimeIff(After(s, es, k), es[k]);
      }
    }
  }

  /** A password reset token has no such condition in its update: a call that validated it in time
      can mark it used at any later moment. */
  lemma ResetUsedLate(now: int, user: UserId, delay: nat)
    ensures var es := [IssueOneTime(PasswordReset, user, 1), ConsumeCheck(PasswordReset, Some(Raw(0, 1)))];
            var s := Run(Run(State(now, [], [], [], [], []), es), [Tick(delay), ConsumeMark(0)]);
            && s.consumes == [Consumed(0)]
            && s.oneTime == [OneTime(PasswordReset, user, 1, now + RESET_TTL, Some(now + delay))]
  {
    var s0 := State(now, [], [], [], [], []);
    var es := [IssueOneTime(PasswordReset, user, 1), ConsumeCheck(PasswordReset, Some(Raw(0, 1)))];
    var s2 := Step(Step(s0, es[0]), es[1]);
    assert s2.consumes == [Checked(0)];
    var s4 := Step(Step(s2, Tick(delay)), ConsumeMark(0));
    assert s4.consumes == [Consumed(0)];
    assert s4.oneTime == [OneTime(PasswordReset, user, 1, now + RESET_TTL, Some(now + delay))];
    hide Step, Run;
    RunTwo(s0, es[0], es[1]);
    RunTwo(s2, Tick(delay), ConsumeMark(0));
  }

  // ---- Spent tokens stay spent

  predicate NotActive(s: State, t: TokenId) {
    t < |s.refresh| && !Active(s.refresh[t], s.now)
  }

  predicate NotUsable(s: State, t: TokenId) {
    t < |s.oneTime| && !Usable(s.oneTime[t], s.now)
  }

  lemma {:induction false} SpentStaysSpent(s: State, es: seq<Event>, t: TokenId)
    ensures NotActive(s, t) ==> NotActive(Run(s, es), t)
    ensures NotUsable(s, t) ==> NotUsable(Run(s, es), t)
    decreases |es|
  {
    if es != [] {
      hide Run;
      StepKeepsSpent(s, es[0], t);
      hide NotActive, NotUsable, Step;
      SpentStaysSpent(Step(s, es[0]), es[1..], t);
      RunUnfolds(s, es);
    }
  }

  lemma RunUnfolds(s: State, es: seq<Event>)
    requires es != []
    ensures Run(s, es) == Run(Step(s, es[0]), es[1..])
  {
    hide Step;
  }

  lemma StepKeepsSpent(s: State, e: Event, t: TokenId)
    ensures NotActive(s, t) ==> NotActive(Step(s, e), t)
    ensures NotUsable(s, t) ==> NotUsable(Step(s, e), t)
  {
  }

  /** A revoked or expired refresh token, and a used or expired one-time token, never validates
      again, whatever happens in between. */
  lemma SpentNeverValidates(s: State, es: seq<Event>, t: TokenId, secret: Secret, kind: Kind)
    ensures NotActive(s, t) ==> !ValidRefresh(Run(s, es), Some(Raw(t, secret)))
    ensures NotUsable(s, t) ==> !ValidOneTime(Run(s, es), kind, Some(Raw(t, secret)))
  {
    hide Run;
    SpentStaysSpent(s, es, t);
  }

  // ---- Which rows a revocation reaches

  /** Signing a user out everywhere, row by row: rows of others and rows that are revoked already stay as
      they are, and every live row of the user is revoked now. */
  lemma RevokeAllRows(s: State, user: UserId, t: TokenId)
    requires t < |s.refresh|
    ensures var u := Step(s, RevokeAll(user));
            && |u.refresh| == |s.refresh| && u.oneTime == s.oneTime && u.now == s.now
            && (s.refresh[t].user != user ==> u.refresh[t] == s.refresh[t])
            && (s.refresh[t].revoked.Some? ==> u.refresh[t] == s.refresh[t])
            && (s.refresh[t].user == user && s.refresh[t].revoked.None? ==>
                  u.refresh[t] == Refresh(user, s.refresh[t].secret, s.refresh[t].expires, Some(s.now)))
  {
  }

  /** A whole sign-in does the same to the rows that it finds, and adds one. */
  lemma SignInRows(s: State, user: UserId, secret: Secret, t: TokenId)
    requires t < |s.refresh|
    ensures var u := Run(s, Events(s, SignsIn(user, secret)));
            && |u.refresh| == |s.refresh| + 1 && u.oneTime == s.oneTime && u.now == s.now
            && u.refresh[|s.refresh|] == Refresh(user, secret, s.now + 604_800_000, None)
            && u.signIns == s.signIns + [SignIn(user, SignedIn(|s.refresh|))]
            && (s.refresh[t].user != user || s.refresh[t].revoked.Some? ==> u.refresh[t] == s.refresh[t])
            && (s.refresh[t].user == user && s.refresh[t].revoked.None? ==>
                  u.refresh[t] == s.refresh[t].(revoked := Some(s.now)))
  {
    hide Run, Events;
    WholeSignIn(s, user, secret);
    RevokeAllRows(s, user, t);
  }

  /** A rotation goes on, and a one-time token is accepted, exactly for the stored secret of a row that is
      neither spent nor expired; the kinds of one-time tokens are not interchangeable. */
  lemma ChecksAskForSecret(s: State, kind: Kind, raw: Raw)
    ensures var rotations := Step(s, RotateValidate(Some(raw))).rotations;
            && |rotations| == |s.rotations| + 1
            && (rotations[|s.rotations|] == Validated(raw.token) <==>
                && raw.token < |s.refresh| && s.refresh[raw.token].secret == raw.secret
                && s.refresh[raw.token].revoked.None? && s.now < s.refresh[raw.token].expires)
            && (rotations[|s.rotations|] == Validated(raw.token) || rotations[|s.rotations|] == RotateFailed)
    ensures var consumes := Step(s, ConsumeCheck(kind, Some(raw))).consumes;
            && |consumes| == |s.consumes| + 1
            && (consumes[|s.consumes|] == Checked(raw.token) <==>
                && raw.token < |s.oneTime| && s.oneTime[raw.token].secret == raw.secret
                && s.oneTime[raw.token].kind == kind
                && s.oneTime[raw.token].used.None? && s.now < s.oneTime[raw.token].expires)
            && (consumes[|s.consumes|] == Checked(raw.token) || consumes[|s.consumes|] == ConsumeFailed)
  {
  }

  /** The events that revoke token t: those of its own user, those that name it, and the claim of a
      rotation that has validated it. */
  predicate Revokes(s: State, e: Event, t: TokenId)
    requires t < |s.refresh|
  {
    match e
    case RevokeAll(user) => s.refresh[t].user == user
    case SignInRevoke(user) => s.refresh[t].user == user
    case Revoke(token) => token == t
    case RotateClaim(r) => r < |s.rotations| && s.rotations[r] == Validated(t)
    case _ => false
  }

  lemma StepRevokesIff(s: State, e: Event, t: TokenId)
    requires t < |s.refresh| && s.refresh[t].revoked.None?
    ensures t < |Step(s, e).refresh|
    ensures Step(s, e).refresh[t] == if Revokes(s, e, t) then s.refresh[t].(revoked := Some(s.now)) else s.refresh[t]
  {
  }

  lemma StepKeepsRevoked(s: State, e: Event, t: TokenId)
    requires t < |s.refresh| && s.refresh[t].revoked.Some?
    ensures t < |Step(s, e).refresh| && Step(s, e).refresh[t].revoked.Some?
    ensures Step(s, e).refresh[t].user == s.refresh[t].user
  {
  }

  lemma {:induction false} RefreshGrows(s: State, es: seq<Event>, k: nat)
    requires k <= |es|
    ensures |s.refresh| <= |After(s, es, k).refresh|
  {
    hide After, Step;
    if k == 0 {
      AfterNothing(s, es);
    } else {
      RefreshGrows(s, es, k - 1);
      AfterNext(s, es, k - 1);
      StepOnlyAdds(After(s, es, k - 1), es[k - 1]);
    }
  }

  lemma StepOnlyAdds(s: State, e: Event)
    ensures |s.refresh| <= |Step(s, e).refresh|
  {
  }

  ghost predicate RevokedBy(s: State, es: seq<Event>, k: nat, t: TokenId)
    requires t < |s.refresh|
  {
    k < |es| && t < |After(s, es, k).refresh| && Revokes(After(s, es, k), es[k], t)
  }

  /** For every interleaving: a token that was live is revoked exactly when an event of its own user, of
      its own id or of its own rotation came by; until then its row is unchanged. */
  lemma RevokedOnlyByOwn(s: State, es: seq<Event>, t: TokenId)
    requires t < |s.refresh| && s.refresh[t].revoked.None?
    ensures t < |Run(s, es).refresh|
    ensures Run(s, es).refresh[t].revoked.Some? <==> exists k: nat :: RevokedBy(s, es, k, t)
    ensures Run(s, es).refresh[t].revoked.None? ==> Run(s, es).refresh[t] == s.refresh[t]
  {
    hide Step, Revokes, Run, After;
    AfterNothing(s, es);
    for j := 0 to |es|
      invariant t < |After(s, es, j).refresh|
      invariant if exists k: nat :: k < j && RevokedBy(s, es, k, t)
                then After(s, es, j).refresh[t].revoked.Some? else After(s, es, j).refresh[t] == s.refresh[t]
    {
      var u := After(s, es, j);
      AfterNext(s, es, j);
      if u.refresh[t].revoked.Some? {
        StepKeepsRevoked(u, es[j], t);
      } else {
        StepRevokesIff(u, es[j], t);
        assert RevokedBy(s, es, j, t) <==> Revokes(u, es[j], t);
      }
    }
    WholeRun(s, es);
  }

  lemma WholeRun(s: State, es: seq<Event>)
    ensures After(s, es, |es|) == Run(s, es)
  {
    hide Run;
    assert es[..|es|] == es;
  }

  // ---- Whole calls

  /** A call of the token service that nothing interrupts, as the events it consists of. */
  datatype Call =
    | Wait(millis: nat)
    | Rotate(raw: Option<Raw>, secret: Secret)
    | SignsIn(user: UserId, secret: Secret)
    | ChangePassword(user: UserId)
    | Logout(token: TokenId)
    | Issue(kind: Kind, user: UserId, secret: Secret)
    | Consume(kind: Kind, raw: Option<Raw>)

  function Events(s: State, c: Call): seq<Event> {
    match c
    case Wait(millis) => [Tick(millis)]
    case Rotate(raw, secret) =>
      [RotateValidate(raw), RotateClaim(|s.rotations|), RotateInsert(|s.rotations|, secret)]
    case SignsIn(user, secret) => [SignInRevoke(user), SignInInsert(|s.signIns|, secret)]
    case ChangePassword(user) => [RevokeAll(user)]
    case Logout(t) => [Revoke(t)]
    case Issue(kind, user, secret) => [IssueOneTime(kind, user, secret)]
    case Consume(kind, raw) => [ConsumeCheck(kind, raw), ConsumeMark(|s.consumes|)]
  }

  function RunCalls(s: State, calls: seq<Call>): State
    decreases |calls|
  {
    if calls == [] then s else RunCalls(Run(s, Events(s, calls[0])), calls[1..])
  }

  /** At most one refresh token of each user is not revoked. */
  predicate SingleSession(refresh: seq<Refresh>) {
    forall i, j :: 0 <= i < j < |refresh| && refresh[i].user == refresh[j].user ==>
      refresh[i].revoked.Some? || refresh[j].revoked.Some?
  }

  lemma RunOne(s: State, e: Event)
    ensures Run(s, [e]) == Step(s, e)
  {
    assert [e][1..] == [];
  }

  lemma RunTwo(s: State, e: Event, f: Event)
    ensures Run(s, [e, f]) == Step(Step(s, e), f)
  {
    hide Step;
    assert [e, f][1..] == [f];
    RunOne(Step(s, e), f);
  }

  lemma RunThree(s: State, e: Event, f: Event, g: Event)
    ensures Run(s, [e, f, g]) == Step(Step(Step(s, e), f), g)
  {
    hide Step;
    assert [e, f, g][1..] == [f, g];
    RunTwo(Step(s, e), f, g);
  }

  lemma RotationSteps(s: State, raw: Option<Raw>, secret: Secret)
    ensures var r := |s.rotations|;
            Run(s, Events(s, Rotate(raw, secret)))
              == DoRotateInsert(DoRotateClaim(DoRotateValidate(s, raw), r), r, secret)
  {
    hide Run, AllRevoked, DoRotateValidate, DoRotateClaim, DoRotateInsert, DoRotateFails, DoSignInRevoke,
         DoSignInInsert, DoSignInFails, DoRevoke, DoConsumeCheck, DoConsumeMark;
    var r := |s.rotations|;
    RunThree(s, RotateValidate(raw), RotateClaim(r), RotateInsert(r, secret));
  }

  /** What an uninterrupted rotation does. */
  lemma WholeRotation(s: State, raw: Option<Raw>, secret: Secret)
    ensures Run(s, Events(s, Rotate(raw, secret))) ==
            if ValidRefresh(s, raw) then
              var stored := s.refresh[raw.value.token];
              s.(refresh := s.refresh[raw.value.token := stored.(revoked := Some(s.now))]
                            + [Refresh(stored.user, secret, s.now + REFRESH_TTL, None)],
                 rotations := s.rotations + [Rotated(raw.value.token, |s.refresh|)])
            else s.(rotations := s.rotations + [RotateFailed])
  {
    hide Run, Events;
    var r := |s.rotations|;
    RotationSteps(s, raw, secret);
    if ValidRefresh(s, raw) {
      var t, validated := raw.value.token, DoRotateValidate(s, raw);
      assert validated.rotations[r := Claimed(t)] == s.rotations + [Claimed(t)];
      assert (s.rotations + [Claimed(t)])[r := Rotated(t, |s.refresh|)] == s.rotations + [Rotated(t, |s.refresh|)];
    }
  }

  lemma WholeSignIn(s: State, user: UserId, secret: Secret)
    ensures Run(s, Events(s, SignsIn(user, secret))) ==
            s.(refresh := AllRevoked(s.refresh, user, s.now) + [Refresh(user, secret, s.now + REFRESH_TTL, None)],
               signIns := s.signIns + [SignIn(user, SignedIn(|s.refresh|))])
  {
    hide Run, AllRevoked, DoRotateValidate, DoRotateClaim, DoRotateInsert, DoRotateFails, DoSignInFails, DoRevoke,
         DoConsumeCheck, DoConsumeMark;
    RunTwo(s, SignInRevoke(user), SignInInsert(|s.signIns|, secret));
  }

  lemma CallKeepsSingleSession(s: State, c: Call)
    requires SingleSession(s.refresh)
    ensures SingleSession(Run(s, Events(s, c)).refresh)
  {
    hide Run;
    match c
    case Wait(millis) => RunOne(s, Tick(millis));
    case Rotate(raw, secret) => WholeRotation(s, raw, secret);
    case SignsIn(user, secret) => WholeSignIn(s, user, secret);
    case ChangePassword(user) => RunOne(s, RevokeAll(user));
    case Logout(t) => RunOne(s, Revoke(t));
    case Issue(kind, user, secret) => RunOne(s, IssueOneTime(kind, user, secret));
    case Consume(kind, raw) => RunTwo(s, ConsumeCheck(kind, raw), ConsumeMark(|s.consumes|));
  }

  /** When calls do not overlap, a user has at most one refresh token that is not revoked. */
  lemma {:induction false} CallsKeepSingleSession(s: State, calls: seq<Call>)
    requires SingleSession(s.refresh)
    ensures SingleSession(RunCalls(s, calls).refresh)
    decreases |calls|
  {
    hide SingleSession, Run, Events;
    if calls != [] {
      CallKeepsSingleSession(s, calls[0]);
      CallsKeepSingleSession(Run(s, Events(s, calls[0])), calls[1..]);
    }
  }

  // ---- Exactly when a user keeps a single session, and stays signed out

  predicate SignedOut(refresh: seq<Refresh>, user: UserId) {
    forall t :: 0 <= t < |refresh| && refresh[t].user == user ==> refresh[t].revoked.Some?
  }

  /** The user for whom the event inserts a refresh token, if it inserts one. */
  function InsertsFor(s: State, e: Event): Option<UserId> {
    match e
    case SignInInsert(k, _) =>
      if k < |s.signIns| && s.signIns[k].phase.Cleared? then Some(s.signIns[k].user) else None
    case RotateInsert(r, _) =>
      if r < |s.rotations| && s.rotations[r].Claimed? && s.rotations[r].token < |s.refresh|
      then Some(s.refresh[s.rotations[r].token].user) else None
    case _ => None
  }

  /** An insert finds no live token of its user. */
  predicate FindsNone(s: State, e: Event) {
    InsertsFor(s, e).Some? ==> SignedOut(s.refresh, InsertsFor(s, e).value)
  }

  lemma AppendSingleIff(refresh: seq<Refresh>, user: UserId, secret: Secret, expires: int)
    requires SingleSession(refresh)
    ensures SingleSession(refresh + [Refresh(user, secret, expires, None)]) <==> SignedOut(refresh, user)
  {
    var later := refresh + [Refresh(user, secret, expires, None)];
    if SingleSession(later) {
      forall t | 0 <= t < |refresh| && refresh[t].user == user ensures refresh[t].revoked.Some? {
        assert later[t] == refresh[t] && later[|refresh|].user == user;
      }
    }
  }

  /** Both failing writes: the insert of a sign-in and the insert of a rotation. */
  lemma InsertSingleIff(s: State, e: Event)
    requires SingleSession(s.refresh) && InsertsFor(s, e).Some?
    ensures SingleSession(Step(s, e).refresh) <==> SignedOut(s.refresh, InsertsFor(s, e).value)
  {
    hide SingleSession, SignedOut;
    var inserted := Step(s, e).refresh[|s.refresh|];
    AppendSingleIff(s.refresh, InsertsFor(s, e).value, inserted.secret, inserted.expires);
  }

  /** Events that insert nothing only revoke. */
  lemma OthersInsertNothing(s: State, e: Event)
    requires InsertsFor(s, e).None?
    ensures OnlyRevoked(s.refresh, Step(s, e).refresh) && |Step(s, e).refresh| == |s.refresh|
  {
  }

  lemma StepSingleIff(s: State, e: Event)
    requires SingleSession(s.refresh)
    ensures SingleSession(Step(s, e).refresh) <==> FindsNone(s, e)
  {
    hide Step, InsertsFor, SignedOut;
    if InsertsFor(s, e).Some? {
      InsertSingleIff(s, e);
    } else {
      OthersInsertNothing(s, e);
    }
  }

  lemma {:induction false} RunSnoc(s: State, es: seq<Event>, e: Event)
    ensures Run(s, es + [e]) == Step(Run(s, es), e)
    decreases |es|
  {
    hide Step;
    if es == [] {
      RunOne(s, e);
      assert es + [e] == [e];
    } else {
      assert (es + [e])[1..] == es[1..] + [e];
      RunSnoc(Step(s, es[0]), es[1..], e);
    }
  }

  /** The state after the first k events of a run, and the next one. */
  function After(s: State, es: seq<Event>, k: nat): State
    requires k <= |es|
  {
    Run(s, es[..k])
  }

  lemma AfterNext(s: State, es: seq<Event>, k: nat)
    requires k < |es|
    ensures After(s, es, k + 1) == Step(After(s, es, k), es[k])
  {
    hide Step, Run;
    assert es[..k + 1] == es[..k] + [es[k]];
    RunSnoc(s, es[..k], es[k]);
  }

  /** For every interleaving: a user has at most one refresh token that is not revoked, at every moment
      of the run, exactly when every insert of a sign-in or a rotation finds no live token of its user. */
  lemma SingleSessionIff(s: State, es: seq<Event>)
    requires SingleSession(s.refresh)
    ensures (forall k :: 0 <= k <= |es| ==> SingleSession(After(s, es, k).refresh)) <==>
            (forall k :: 0 <= k < |es| ==> FindsNone(After(s, es, k), es[k]))
  {
    hide SingleSession, FindsNone, After, Step;
    if forall k :: 0 <= k <= |es| ==> SingleSession(After(s, es, k).refresh) {
      forall k | 0 <= k < |es| ensures FindsNone(After(s, es, k), es[k]) {
        AfterNext(s, es, k);
        assert SingleSession(After(s, es, k).refresh) && SingleSession(After(s, es, k + 1).refresh);
        StepSingleIff(After(s, es, k), es[k]);
      }
    }
    if forall k :: 0 <= k < |es| ==> FindsNone(After(s, es, k), es[k]) {
      AfterNothing(s, es);
      for k := 0 to |es|
        invariant forall j :: 0 <= j <= k ==> SingleSession(After(s, es, j).refresh)
      {
        AfterNext(s, es, k);
        StepSingleIff(After(s, es, k), es[k]);
      }
    }
  }

  lemma AfterNothing(s: State, es: seq<Event>)
    ensures After(s, es, 0) == s
  {
    hide Step;
    assert es[..0] == [];
  }

  lemma StepSignedOutIff(s: State, e: Event, user: UserId)
    requires SignedOut(s.refresh, user)
    ensures SignedOut(Step(s, e).refresh, user) <==> InsertsFor(s, e) != Some(user)
  {
    if InsertsFor(s, e).Some? {
      var later := Step(s, e).refresh;
      assert later[|s.refresh|].user == InsertsFor(s, e).value && later[|s.refresh|].revoked.None?;
    } else {
      OthersInsertNothing(s, e);
      hide Step, InsertsFor;
    }
  }

  /** From the moment all tokens of a user are revoked, the user stays signed out exactly as long as
      no sign-in and no rotation that was claimed before inserts a token. */
  lemma SignedOutIff(s: State, es: seq<Event>, user: UserId)
    requires SignedOut(s.refresh, user)
    ensures (forall k :: 0 <= k <= |es| ==> SignedOut(After(s, es, k).refresh, user)) <==>
            (forall k :: 0 <= k < |es| ==> InsertsFor(After(s, es, k), es[k]) != Some(user))
  {
    hide SignedOut, InsertsFor, After, Step;
    if forall k :: 0 <= k <= |es| ==> SignedOut(After(s, es, k).refresh, user) {
      forall k | 0 <= k < |es| ensures InsertsFor(After(s, es, k), es[k]) != Some(user) {
        AfterNext(s, es, k);
        assert SignedOut(After(s, es, k).refresh, user) && SignedOut(After(s, es, k + 1).refresh, user);
        StepSignedOutIff(After(s, es, k), es[k], user);
      }
    }
    if forall k :: 0 <= k < |es| ==> InsertsFor(After(s, es, k), es[k]) != Some(user) {
      AfterNothing(s, es);
      for k := 0 to |es|
        invariant forall j :: 0 <= j <= k ==> SignedOut(After(s, es, j).refresh, user)
      {
        AfterNext(s, es, k);
        StepSignedOutIff(After(s, es, k), es[k], user);
      }
    }
  }

  /** A password change between the claim and the insert of a rotation revokes every token there is,
      and the rotation then leaves a live one. */
  lemma RotationOutlivesPasswordChange(now: int, user: UserId)
    ensures var s1 := Run(State(now, [], [], [], [], []), [SignInRevoke(user), SignInInsert(0, 1)]);
            var s3 := Run(s1, [RotateValidate(Some(Raw(0, 1))), RotateClaim(0), RevokeAll(user)]);
            var s4 := Run(s3, [RotateInsert(0, 2)]);
            && SignedOut(s3.refresh, user) && !SignedOut(s4.refresh, user)
            && |s4.refresh| == 2 && Active(s4.refresh[1], s4.now) && s4.refresh[1].user == user
  {
    var s0 := State(now, [], [], [], [], []);
    var first := Refresh(user, 1, now + REFRESH_TTL, None);
    var s1 := Step(Step(s0, SignInRevoke(user)), SignInInsert(0, 1));
    assert s1.refresh == [first];
    var s2 := Step(Step(s1, RotateValidate(Some(Raw(0, 1)))), RotateClaim(0));
    assert s2.rotations == [Claimed(0)] && s2.refresh == [first.(revoked := Some(now))];
    var s3 := Step(s2, RevokeAll(user));
    assert s3.refresh == s2.refresh && s3.rotations == [Claimed(0)];
    var s4 := Step(s3, RotateInsert(0, 2));
    assert s4.refresh[1] == Refresh(user, 2, now + REFRESH_TTL, None);
    hide Step, Run;
    RunTwo(s0, SignInRevoke(user), SignInInsert(0, 1));
    RunThree(s1, RotateValidate(Some(Raw(0, 1))), RotateClaim(0), RevokeAll(user));
    RunOne(s3, RotateInsert(0, 2));
  }

  /** Overlapping sign-ins of one user leave two. */
  lemma OverlappingSignIns(now: int, user: UserId)
    ensures var s := Run(State(now, [], [], [], [], []),
                         [SignInRevoke(user), SignInRevoke(user), SignInInsert(0, 1), SignInInsert(1, 2)]);
            |s.refresh| == 2 && Active(s.refresh[0], s.now) && Active(s.refresh[1], s.now) && !SingleSession(s.refresh)
  {
    var s0 := State(now, [], [], [], [], []);
    var es := [SignInRevoke(user), SignInRevoke(user), SignInInsert(0, 1), SignInInsert(1, 2)];
    var s1 := Step(s0, es[0]);
    var s2 := Step(s1, es[1]);
    assert s2.signIns == [SignIn(user, Cleared), SignIn(user, Cleared)] && s2.refresh == [];
    var s4 := Step(Step(s2, es[2]), es[3]);
    hide Step;
    assert es[1..] == [es[1], es[2], es[3]];
    RunUnfolds(s0, es);
    RunThree(s1, es[1], es[2], es[3]);
    assert s4.refresh[0].user == s4.refresh[1].user;
  }

  // ---- The service

  class TokenService {
    var now: int
    var refresh: seq<Refresh>
    var oneTime: seq<OneTime>
    ghost var rotations: seq<RotatePhase>
    ghost var signIns: seq<SignIn>
    ghost var consumes: seq<ConsumePhase>

    ghost function Now(): State
      reads this
    {
      State(now, refresh, oneTime, rotations, signIns, consumes)
    }

    constructor (now: int)
      ensures Initial(Now()) && this.now == now
    {
      this.now, refresh, oneTime := now, [], [];
      rotations, signIns, consumes := [], [], [];
    }

    method ValidateRefreshToken(raw: Option<Raw>) returns (r: Option<TokenId>)
      ensures r == if ValidRefresh(Now(), raw) then Some(raw.value.token) else None
      ensures r.Some? <==>
              && raw.Some? && raw.value.token < |refresh| && refresh[raw.value.token].secret == raw.value.secret
              && refresh[raw.value.token].revoked.None? && now < refresh[raw.value.token].expires
    {
      if raw.None? {
        return None;
      }
      var t := raw.value.token;
      if t >= |refresh| {
        return None;
      }
      if !(refresh[t].revoked.None? && refresh[t].expires > now) {
        return None;
      }
      if refresh[t].secret != raw.value.secret {
        return None;
      }
      r := Some(t);
    }

    method CreateRefreshToken(user: UserId, secret: Secret) returns (t: TokenId)
      modifies this`refresh
      ensures t == |old(refresh)| && refresh == old(refresh) + [Refresh(user, secret, now + REFRESH_TTL, None)]
    {
      t := |refresh|;
      refresh := refresh + [Refresh(user, secret, now + REFRESH_TTL, None)];
    }

    /** `None` stands for an UnauthorizedException. */
    method RotateRefreshToken(raw: Option<Raw>, secret: Secret) returns (r: Option<TokenId>)
      modifies this`refresh, this`rotations
      ensures Now() == Run(old(Now()), Events(old(Now()), Rotate(raw, secret)))
      ensures r.Some? <==>
              && raw.Some? && raw.value.token < |old(refresh)| && old(refresh)[raw.value.token].revoked.None?
              && old(refresh)[raw.value.token].secret == raw.value.secret
              && now < old(refresh)[raw.value.token].expires
      ensures r.None? ==> refresh == old(refresh)
      ensures r.Some? ==>
                var stored := old(refresh)[raw.value.token];
                && r.value == |old(refresh)|
                && refresh == old(refresh)[raw.value.token := stored.(revoked := Some(now))]
                              + [Refresh(stored.user, secret, now + 604_800_000, None)]
    {
      hide Run, Events;
      WholeRotation(Now(), raw, secret);
      var stored := ValidateRefreshToken(raw);
      if stored.None? {
        rotations := rotations + [RotateFailed];
        return None;
      }
      var t := stored.value;
      if refresh[t].revoked.Some? {
        assert false;
        return None;
      }
      refresh := refresh[t := refresh[t].(revoked := Some(now))];
      var next := CreateRefreshToken(refresh[t].user, secret);
      rotations := rotations + [Rotated(t, next)];
      r := Some(next);
    }

    method RevokeAllUserTokens(user: UserId)
      modifies this`refresh
      ensures Now() == Step(old(Now()), RevokeAll(user))
      ensures |refresh| == |old(refresh)|
      ensures forall t :: 0 <= t < |refresh| ==>
                refresh[t] == if old(refresh)[t].user == user && old(refresh)[t].revoked.None?
                              then old(refresh)[t].(revoked := Some(now)) else old(refresh)[t]
    {
      refresh := AllRevoked(refresh, user, now);
    }

    method RevokeRefreshToken(t: TokenId)
      modifies this`refresh
      ensures Now() == Step(old(Now()), Revoke(t))
      ensures |refresh| == |old(refresh)|
      ensures forall i :: 0 <= i < |refresh| ==>
                refresh[i] == if i == t then old(refresh)[i].(revoked := Some(now)) else old(refresh)[i]
    {
      if t < |refresh| {
        refresh := refresh[t := refresh[t].(revoked := Some(now))];
      }
    }

    method IssueRefreshToken(user: UserId, secret: Secret) returns (t: TokenId)
      modifies this`refresh, this`signIns
      ensures Now() == Run(old(Now()), Events(old(Now()), SignsIn(user, secret)))
      ensures t == |old(refresh)| && |refresh| == t + 1
      ensures refresh[t] == Refresh(user, secret, now + 604_800_000, None)
      ensures forall i :: 0 <= i < t ==>
                refresh[i] == if old(refresh)[i].user == user && old(refresh)[i].revoked.None?
                              then old(refresh)[i].(revoked := Some(now)) else old(refresh)[i]
    {
      hide Run, Events, AllRevoked;
      WholeSignIn(Now(), user, secret);
      RevokeAllUserTokens(user);
      t := CreateRefreshToken(user, secret);
      signIns := signIns + [SignIn(user, SignedIn(t))];
    }

    method IssueOneTimeToken(kind: Kind, user: UserId, secret: Secret) returns (t: TokenId)
      modifies this`oneTime
      ensures Now() == Step(old(Now()), IssueOneTime(kind, user, secret)) && t == |old(oneTime)|
      ensures var lifetime := match kind case Verification => 86_400_000 case PasswordReset => 3_600_000;
              oneTime == old(oneTime) + [OneTime(kind, user, secret, now + lifetime, None)]
    {
      t := |oneTime|;
      oneTime := oneTime + [OneTime(kind, user, secret, now + TtlOf(kind), None)];
    }

    /** Both `consume...` methods: the owner's id, or `None` for a BadRequestException. */
    method ConsumeOneTimeToken(kind: Kind, raw: Option<Raw>) returns (r: Option<UserId>)
      modifies this`oneTime, this`consumes
      ensures Now() == Run(old(Now()), Events(old(Now()), Consume(kind, raw)))
      ensures r.Some? <==>
              && raw.Some? && raw.value.token < |old(oneTime)| && old(oneTime)[raw.value.token].kind == kind
              && old(oneTime)[raw.value.token].secret == raw.value.secret
              && old(oneTime)[raw.value.token].used.None? && now < old(oneTime)[raw.value.token].expires
      ensures r.None? ==> oneTime == old(oneTime)
      ensures r.Some? ==>
                var stored := old(oneTime)[raw.value.token];
                r.value == stored.user && oneTime == old(oneTime)[raw.value.token := stored.(used := Some(now))]
    {
      hide Run;
      ghost var c := |consumes|;
      RunTwo(Now(), ConsumeCheck(kind, raw), ConsumeMark(c));
      if raw.None? || raw.value.token >= |oneTime| || oneTime[raw.value.token].kind != kind
         || !(oneTime[raw.value.token].used.None? && oneTime[raw.value.token].expires > now)
         || oneTime[raw.value.token].secret != raw.value.secret
      {
        consumes := consumes + [ConsumeFailed];
        return None;
      }
      var t := raw.value.token;
      oneTime := oneTime[t := oneTime[t].(used := Some(now))];
      consumes := consumes + [Consumed(t)];
      assert (old(consumes) + [Checked(t)])[c := Consumed(t)] == consumes;
      r := Some(oneTime[t].user);
    }
  }
}
