/** How long a refresh token lives, and what presenting it is answered: over every later run,
    from the moment it was issued. */
module TokenLifetimes {
  import opened Wrappers
  import opened RefreshTokens

  /** The token of that identifier, family and user. */
  predicate Known(t: Table, c: Claims) {
    c.jti in t && t[c.jti].family == c.family && t[c.jti].user == c.user
  }

  /** A rotated token presented in time. */
  predicate Replayed(t: Table, c: Claims, at: Readings) {
    Known(t, c) && t[c.jti].revokedAt.None? && at.expiry <= t[c.jti].expiresAt && t[c.jti].rotatedAt.Some?
  }

  /** Each refusal has its own cause, and only an exchange or a detected reuse writes. */
  lemma EveryRefusalHasItsCause(s: Settings, t: Table, c: Claims, userExists: bool, jtiHint: nat, at: Readings)
    ensures var (t', o) := RotateSpec(s, t, c, userExists, jtiHint, at);
            && (o == Rejected(Unknown) <==> !Known(t, c))
            && (o == Rejected(Revoked) <==> Known(t, c) && t[c.jti].revokedAt.Some?)
            && (o == Rejected(Expired) <==> Known(t, c) && t[c.jti].revokedAt.None? && t[c.jti].expiresAt < at.expiry)
            && (o == Rejected(Superseded) <==> Replayed(t, c, at) && at.grace <= t[c.jti].rotatedAt.value + s.grace)
            && (o == Rejected(ReuseDetected) <==> Replayed(t, c, at) && at.grace > t[c.jti].rotatedAt.value + s.grace)
            && (o == Rejected(UserMissing) ==> !userExists)
            && (o.Rejected? && o != Rejected(ReuseDetected) ==> t' == t)
  {
  }

  /** What an exchange writes: the old token is dated, the new one takes its user and family,
      and no other token changes. */
  lemma ExchangeReads(s: Settings, t: Table, c: Claims, userExists: bool, jtiHint: nat, at: Readings)
    ensures var (t', o) := RotateSpec(s, t, c, userExists, jtiHint, at);
            o.Issued? ==>
              && o.jti !in t && t'.Keys == t.Keys + {o.jti} && c.jti in t
              && t'[o.jti] == Token(c.user, c.family, Some(c.jti), at.issue + s.ttl, None, None)
              && t'[c.jti] == t[c.jti].(rotatedAt := Some(at.rotate))
              && forall j :: j in t && j != c.jti ==> t'[j] == t[j]
  {
  }

  /** A login opens a family of its own with one token of the user, and changes no other. */
  lemma LoginReads(s: Settings, t: Table, user: Uuid, jtiHint: nat, familyHint: nat, now: Time)
    ensures var (t', o) := LoginSpec(s, t, user, jtiHint, familyHint, now);
            && o.Issued? && o.jti !in t && t'.Keys == t.Keys + {o.jti} && (forall j :: j in t ==> t'[j] == t[j])
            && t'[o.jti] == Token(user, t'[o.jti].family, None, now + s.ttl, None, None)
            && forall j :: j in t ==> t[j].family != t'[o.jti].family
  {
    forall j | j in t ensures t[j].family in Families(t) { }
  }

  /** A logout dates every token of the family, those already dated too, and changes no other. */
  lemma LogoutReads(s: Settings, t: Table, family: Uuid, now: Time)
    ensures var t' := Step(s, t, Logout(family, now)).0;
            t'.Keys == t.Keys
            && forall j :: j in t ==> t'[j] == if t[j].family == family then t[j].(revokedAt := Some(now)) else t[j]
  {
  }

  /** When a request that issues a token reads the clock for it. */
  function IssuedAt(r: Request): Time
    requires r.Login? || r.Rotate?
  {
    if r.Login? then r.now else r.at.issue
  }

  lemma StepKeepsTokens(s: Settings, t: Table, r: Request, j: Uuid)
    requires j in t
    ensures var t' := Step(s, t, r).0;
            && j in t' && t'[j] == t[j].(rotatedAt := t'[j].rotatedAt, revokedAt := t'[j].revokedAt)
            && (t[j].rotatedAt.Some? ==> t'[j].rotatedAt == t[j].rotatedAt)
            && (t[j].revokedAt.Some? ==> t'[j].revokedAt.Some?)
  {
  }

  lemma {:induction false} RunKeepsTokens(s: Settings, t: Table, rs: seq<Request>, j: Uuid)
    requires j in t
    ensures var t' := Run(s, t, rs);
            && j in t' && t'[j] == t[j].(rotatedAt := t'[j].rotatedAt, revokedAt := t'[j].revokedAt)
            && (t[j].rotatedAt.Some? ==> t'[j].rotatedAt == t[j].rotatedAt)
            && (t[j].revokedAt.Some? ==> t'[j].revokedAt.Some?)
    decreases |rs|
  {
    hide Step;
    if rs != [] {
      StepKeepsTokens(s, t, rs[0], j);
      RunKeepsTokens(s, Step(s, t, rs[0]).0, rs[1..], j);
    }
  }

  /** Whatever happens in between, a token is exchanged until `ttl` after it was issued and no
      longer: presented by its own user, it is if it was neither exchanged nor revoked. */
  lemma {:induction false} AcceptedForItsLifetime(s: Settings, t: Table, r: Request, rs: seq<Request>, c: Claims, userExists: bool,
                                                  jtiHint: nat, at: Readings)
    requires (r.Login? || r.Rotate?) && Step(s, t, r).1 == Issued(c.jti)
    requires Known(Step(s, t, r).0, c)
    ensures var t' := Run(s, Step(s, t, r).0, rs);
            var o := RotateSpec(s, t', c, userExists, jtiHint, at).1;
            && Known(t', c)
            && (o.Issued? <==> t'[c.jti].rotatedAt.None? && t'[c.jti].revokedAt.None? && userExists
                               && at.expiry <= IssuedAt(r) + s.ttl)
            && (o == Rejected(Expired) <==> t'[c.jti].revokedAt.None? && at.expiry > IssuedAt(r) + s.ttl)
  {
    var t1 := Step(s, t, r).0;
    assert t1[c.jti].expiresAt == IssuedAt(r) + s.ttl && t1[c.jti].rotatedAt.None?;
    hide Step, Run;
    RunKeepsTokens(s, t1, rs, c.jti);
  }

  /** The grace for a replay counts from the exchange, whatever happens in between: within it
      nothing is burnt, after it the family is. */
  lemma {:induction false} GraceCountsFromTheExchange(s: Settings, t: Table, c: Claims, hint: nat, at: Readings, rs: seq<Request>,
                                                      userExists: bool, jtiHint: nat, again: Readings)
    requires RotateSpec(s, t, c, true, hint, at).1.Issued?
    ensures var t' := Run(s, RotateSpec(s, t, c, true, hint, at).0, rs);
            Known(t', c) && (t'[c.jti].revokedAt.None? && again.expiry <= t'[c.jti].expiresAt ==>
              RotateSpec(s, t', c, userExists, jtiHint, again).1
              == Rejected(if again.grace <= at.rotate + s.grace then Superseded else ReuseDetected))
  {
    var t1 := RotateSpec(s, t, c, true, hint, at).0;
    ExchangeReads(s, t, c, true, hint, at);
    assert Known(t, c) by { EveryRefusalHasItsCause(s, t, c, true, hint, at); }
    hide Run;
    RunKeepsTokens(s, t1, rs, c.jti);
    EveryRefusalHasItsCause(s, Run(s, t1, rs), c, userExists, jtiHint, again);
    hide RotateSpec;
  }
}
