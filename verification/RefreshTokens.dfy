/** Refresh-token rotation with reuse detection: `adapters/auth.py`.

    A family is what descends from one login. The table is the `refresh_tokens`
    table; signatures and JWT encoding are outside, so a presented token is the
    triple of claims its (valid) signature covers. */
module RefreshTokens {
  import opened Wrappers

  type Uuid = nat
  type Time = int

  datatype Token = Token(
    user: Uuid,
    family: Uuid,
    parent: Option<Uuid>,
    expiresAt: Time,
    rotatedAt: Option<Time>,
    revokedAt: Option<Time>)

  type Table = map<Uuid, Token>

  datatype Claims = Claims(jti: Uuid, family: Uuid, user: Uuid)

  datatype Settings = Settings(ttl: nat, grace: nat)

  datatype AuthError = Unknown | Revoked | Expired | Superseded | ReuseDetected | UserMissing

  datatype Outcome = Issued(jti: Uuid) | Rejected(error: AuthError) | LoggedOut

  /** Every clock reading `rotate_refresh` takes, in the order it takes them. */
  datatype Readings = Readings(expiry: Time, grace: Time, burn: Time, issue: Time, rotate: Time)

  datatype Request =
    | Login(user: Uuid, jtiHint: nat, familyHint: nat, now: Time)
    | Rotate(claims: Claims, userExists: bool, jtiHint: nat, at: Readings)
    | Logout(family: Uuid, now: Time)

  function Families(t: Table): set<Uuid> {
    set j | j in t :: t[j].family
  }

  function RevokeAll(t: Table, family: Uuid, now: Time): Table {
    map j | j in t :: if t[j].family == family then t[j].(revokedAt := Some(now)) else t[j]
  }

  function LoginSpec(s: Settings, t: Table, user: Uuid, jtiHint: nat, familyHint: nat, now: Time): (Table, Outcome) {
    var family := NewId(Families(t), familyHint);
    var jti := NewId(t.Keys, jtiHint);
    (t[jti := Token(user, family, None, now + s.ttl, None, None)], Issued(jti))
  }

  function RotateSpec(s: Settings, t: Table, c: Claims, userExists: bool, jtiHint: nat, at: Readings): (Table, Outcome) {
    if c.jti !in t || t[c.jti].family != c.family || t[c.jti].user != c.user then (t, Rejected(Unknown))
    else
      var row := t[c.jti];
      if row.revokedAt.Some? then (t, Rejected(Revoked))
      else if row.expiresAt < at.expiry then (t, Rejected(Expired))
      else if row.rotatedAt.Some? then
        if at.grace - row.rotatedAt.value <= s.grace then (t, Rejected(Superseded))
        else (RevokeAll(t, c.family, at.burn), Rejected(ReuseDetected))
      else if !userExists then (t, Rejected(UserMissing))
      else
        var jti := NewId(t.Keys, jtiHint);
        var successor := Token(c.user, c.family, Some(c.jti), at.issue + s.ttl, None, None);
        (t[c.jti := row.(rotatedAt := Some(at.rotate))][jti := successor], Issued(jti))
  }

  function Step(s: Settings, t: Table, r: Request): (Table, Outcome) {
    match r
    case Login(user, jtiHint, familyHint, now) => LoginSpec(s, t, user, jtiHint, familyHint, now)
    case Rotate(claims, userExists, jtiHint, at) => RotateSpec(s, t, claims, userExists, jtiHint, at)
    case Logout(family, now) => (RevokeAll(t, family, now), LoggedOut)
  }

  function Run(s: Settings, t: Table, rs: seq<Request>): Table
    decreases |rs|
  {
    if rs == [] then t else Run(s, Step(s, t, rs[0]).0, rs[1..])
  }

  /** `c` is the whole family, oldest first: linked by `parent`, all but the
      newest rotated, revoked together or not at all, one user. */
  ghost predicate IsChain(t: Table, family: Uuid, c: seq<Uuid>) {
    && c != []
    && (forall i, j :: 0 <= i < j < |c| ==> c[i] != c[j])
    && (forall j :: j in c <==> j in t && t[j].family == family)
    && t[c[0]].parent == None
    && (forall i :: 0 < i < |c| ==> t[c[i]].parent == Some(c[i - 1]))
    && (forall i :: 0 <= i < |c| ==> (t[c[i]].rotatedAt.Some? <==> i < |c| - 1))
    && (forall i :: 0 <= i < |c| ==> (t[c[i]].revokedAt.Some? <==> t[c[0]].revokedAt.Some?))
    && (forall i :: 0 <= i < |c| ==> t[c[i]].user == t[c[0]].user)
  }

  ghost predicate Chained(t: Table) {
    forall f :: f in Families(t) ==> exists c :: IsChain(t, f, c)
  }

  ghost predicate FamilyRevoked(t: Table, family: Uuid) {
    forall j :: j in t && t[j].family == family ==> t[j].revokedAt.Some?
  }

  function Members(t: Table, family: Uuid): set<Uuid> {
    set j | j in t && t[j].family == family
  }

  // A chain survives a step that leaves its family's rows alone.
  lemma {:induction false} ChainFrame(t: Table, t': Table, family: Uuid, c: seq<Uuid>)
    requires IsChain(t, family, c)
    requires forall j :: j in t && t[j].family == family ==> j in t' && t'[j] == t[j]
    requires forall j :: j in t' && t'[j].family == family ==> j in t && t[j] == t'[j]
    ensures IsChain(t', family, c)
  {
  }

  lemma RevocationKeepsChains(t: Table, family: Uuid, now: Time)
    requires Chained(t)
    ensures Chained(RevokeAll(t, family, now))
  {
    var t' := RevokeAll(t, family, now);
    forall f | f in Families(t') ensures exists c :: IsChain(t', f, c) {
      assert f in Families(t);
      var c :| IsChain(t, f, c);
      assert IsChain(t', f, c);
    }
  }

  lemma LoginKeepsChains(s: Settings, t: Table, user: Uuid, jtiHint: nat, familyHint: nat, now: Time)
    requires Chained(t)
    ensures Chained(LoginSpec(s, t, user, jtiHint, familyHint, now).0)
  {
    var family := NewId(Families(t), familyHint);
    var jti := NewId(t.Keys, jtiHint);
    var t' := LoginSpec(s, t, user, jtiHint, familyHint, now).0;
    forall f | f in Families(t') ensures exists c :: IsChain(t', f, c) {
      if f == family {
        forall j | j in t ensures t[j].family != family { }
        assert IsChain(t', f, [jti]);
      } else {
        assert f in Families(t);
        var c :| IsChain(t, f, c);
        ChainFrame(t, t', f, c);
      }
    }
  }

  // The chain grows by one at its newest end.
  lemma {:induction false} SuccessorExtendsChain(t: Table, family: Uuid, chain: seq<Uuid>, jti: Uuid, rotated: Token,
                                                 successor: Token)
    requires IsChain(t, family, chain) && jti !in t
    requires rotated == t[chain[|chain| - 1]].(rotatedAt := rotated.rotatedAt) && rotated.rotatedAt.Some?
    requires rotated.revokedAt.None?
    requires successor == Token(rotated.user, family, Some(chain[|chain| - 1]), successor.expiresAt, None, None)
    ensures IsChain(t[chain[|chain| - 1] := rotated][jti := successor], family, chain + [jti])
  {
    var last := chain[|chain| - 1];
    var t' := t[last := rotated][jti := successor];
    var longer := chain + [jti];
    forall j ensures j in longer <==> j in t' && t'[j].family == family {
      assert last in chain;
      assert j in longer <==> j in chain || j == jti;
    }
    forall i | 0 <= i < |chain| ensures chain[i] != jti && t'[longer[i]] == if i == |chain| - 1 then rotated else t[chain[i]] {
      assert longer[i] == chain[i] && chain[i] in chain;
    }
    assert longer[|chain|] == jti;
  }

  lemma {:induction false} RotationExtendsChain(s: Settings, t: Table, c: Claims, userExists: bool, jtiHint: nat,
                                                at: Readings, chain: seq<Uuid>)
    requires RotateSpec(s, t, c, userExists, jtiHint, at).1.Issued?
    requires IsChain(t, c.family, chain)
    ensures chain[|chain| - 1] == c.jti
    ensures IsChain(RotateSpec(s, t, c, userExists, jtiHint, at).0, c.family, chain + [NewId(t.Keys, jtiHint)])
  {
    assert c.jti in chain;
    var k :| 0 <= k < |chain| && chain[k] == c.jti;
    assert t[chain[k]].rotatedAt.None?;
    SuccessorExtendsChain(t, c.family, chain, NewId(t.Keys, jtiHint), t[c.jti].(rotatedAt := Some(at.rotate)),
                          Token(c.user, c.family, Some(c.jti), at.issue + s.ttl, None, None));
  }

  lemma RotationKeepsChain(s: Settings, t: Table, c: Claims, userExists: bool, jtiHint: nat, at: Readings, f: Uuid)
    requires Chained(t) && RotateSpec(s, t, c, userExists, jtiHint, at).1.Issued?
    requires f in Families(t)
    ensures exists d :: IsChain(RotateSpec(s, t, c, userExists, jtiHint, at).0, f, d)
  {
    var d :| IsChain(t, f, d);
    if f == c.family {
      RotationExtendsChain(s, t, c, userExists, jtiHint, at, d);
    } else {
      ChainFrame(t, RotateSpec(s, t, c, userExists, jtiHint, at).0, f, d);
    }
  }

  lemma RotateKeepsChains(s: Settings, t: Table, c: Claims, userExists: bool, jtiHint: nat, at: Readings)
    requires Chained(t)
    ensures Chained(RotateSpec(s, t, c, userExists, jtiHint, at).0)
  {
    var (t', o) := RotateSpec(s, t, c, userExists, jtiHint, at);
    if o == Rejected(ReuseDetected) {
      RevocationKeepsChains(t, c.family, at.burn);
    } else if o.Issued? {
      forall f | f in Families(t') ensures exists d :: IsChain(t', f, d) {
        assert f in Families(t);
        RotationKeepsChain(s, t, c, userExists, jtiHint, at, f);
      }
    }
  }

  /** Every request keeps every family one chain. */
  lemma StepKeepsChains(s: Settings, t: Table, r: Request)
    requires Chained(t)
    ensures Chained(Step(s, t, r).0)
  {
    match r
    case Login(user, jtiHint, familyHint, now) => LoginKeepsChains(s, t, user, jtiHint, familyHint, now);
    case Rotate(claims, userExists, jtiHint, at) => RotateKeepsChains(s, t, claims, userExists, jtiHint, at);
    case Logout(family, now) => RevocationKeepsChains(t, family, now);
  }

  /** In every state any run of logins, rotations, replays and logouts reaches,
      each family is one chain whose only unrotated token is the newest, revoked
      entirely or not at all. */
  lemma {:induction false} ReachableFamiliesAreChains(s: Settings, t: Table, rs: seq<Request>)
    requires Chained(t)
    ensures Chained(Run(s, t, rs))
    decreases |rs|
  {
    if rs == [] {
    } else {
      StepKeepsChains(s, t, rs[0]);
      ReachableFamiliesAreChains(s, Step(s, t, rs[0]).0, rs[1..]);
    }
  }

  /** A token is exchanged exactly when it is the newest of its unrevoked family,
      presented with its own family and user before it expires. */
  lemma {:induction false} OnlyTheNewestRotates(s: Settings, t: Table, c: Claims, userExists: bool, jtiHint: nat,
                                                at: Readings, chain: seq<Uuid>)
    requires IsChain(t, c.family, chain)
    ensures RotateSpec(s, t, c, userExists, jtiHint, at).1.Issued? <==>
            (c.jti == chain[|chain| - 1] && !FamilyRevoked(t, c.family)
             && t[c.jti].user == c.user && at.expiry <= t[c.jti].expiresAt && userExists)
  {
  }

  /** Replaying an unexpired rotated token of an unrevoked family: within the
      grace window nothing changes; after it the whole family is revoked and no
      other family is touched. */
  lemma ReplayOutcome(s: Settings, t: Table, c: Claims, userExists: bool, jtiHint: nat, at: Readings)
    requires c.jti in t && t[c.jti].family == c.family && t[c.jti].user == c.user
    requires t[c.jti].revokedAt.None? && at.expiry <= t[c.jti].expiresAt && t[c.jti].rotatedAt.Some?
    ensures var (t', o) := RotateSpec(s, t, c, userExists, jtiHint, at);
            if at.grace <= t[c.jti].rotatedAt.value + s.grace then
              t' == t && o == Rejected(Superseded)
            else
              && o == Rejected(ReuseDetected)
              && FamilyRevoked(t', c.family)
              && t'.Keys == t.Keys
              && forall j :: j in t && t[j].family != c.family ==> t'[j] == t[j]
  {
  }

  lemma RevokedFamilyIsClosedByStep(s: Settings, t: Table, family: Uuid, r: Request)
    requires family in Families(t) && FamilyRevoked(t, family)
    ensures var t' := Step(s, t, r).0;
            family in Families(t') && FamilyRevoked(t', family) && Members(t', family) == Members(t, family)
    ensures r.Rotate? && r.claims.family == family ==> Step(s, t, r).1.Rejected?
  {
    var t' := Step(s, t, r).0;
    var j0 :| j0 in t && t[j0].family == family;
    assert j0 in t' && t'[j0].family == family;
    assert Members(t', family) == Members(t, family);
  }

  /** Once a family is revoked no later run adds a token to it, revives one, or
      gets a token out of it. */
  lemma {:induction false} RevokedFamilyNeverGrows(s: Settings, t: Table, family: Uuid, rs: seq<Request>)
    requires family in Families(t) && FamilyRevoked(t, family)
    ensures var t' := Run(s, t, rs);
            && family in Families(t')
            && FamilyRevoked(t', family)
            && Members(t', family) == Members(t, family)
    ensures forall r: Request :: r.Rotate? && r.claims.family == family ==> Step(s, Run(s, t, rs), r).1.Rejected?
    decreases |rs|
  {
    if rs == [] {
      forall r: Request | r.Rotate? && r.claims.family == family ensures Step(s, t, r).1.Rejected? {
        RevokedFamilyIsClosedByStep(s, t, family, r);
      }
    } else {
      RevokedFamilyIsClosedByStep(s, t, family, rs[0]);
      RevokedFamilyNeverGrows(s, Step(s, t, rs[0]).0, family, rs[1..]);
    }
  }

  /** The stolen-copy story end to end: after a rotated token is replayed beyond
      the grace window, whatever happens next, no token of its family is ever
      exchanged again. */
  lemma {:induction false} StolenCopyBurnsTheFamily(s: Settings, t: Table, c: Claims, userExists: bool, jtiHint: nat,
                                                    at: Readings,
                                 rs: seq<Request>, r: Request)
    requires RotateSpec(s, t, c, userExists, jtiHint, at).1 == Rejected(ReuseDetected)
    requires r.Rotate? && r.claims.family == c.family
    ensures Step(s, Run(s, RotateSpec(s, t, c, userExists, jtiHint, at).0, rs), r).1.Rejected?
  {
    var t' := RotateSpec(s, t, c, userExists, jtiHint, at).0;
    assert c.jti in t' && t'[c.jti].family == c.family;
    RevokedFamilyNeverGrows(s, t', c.family, rs);
  }

  /** The table and the three handlers that write it. */
  class TokenStore {
    const settings: Settings
    var tokens: Table

    constructor (settings: Settings)
      ensures this.settings == settings && tokens == map[] && Chained(tokens)
    {
      this.settings := settings;
      tokens := map[];
    }

    method IssueTokensForUser(user: Uuid, jtiHint: nat, familyHint: nat, now: Time) returns (o: Outcome)
      modifies this`tokens
      ensures (tokens, o) == LoginSpec(settings, old(tokens), user, jtiHint, familyHint, now)
      ensures old(Chained(tokens)) ==> Chained(tokens)
    {
      ghost var before := tokens;
      var family := NewId(Families(tokens), familyHint);
      var jti := NewId(tokens.Keys, jtiHint);
      tokens := tokens[jti := Token(user, family, None, now + settings.ttl, None, None)];
      o := Issued(jti);
      if Chained(before) { LoginKeepsChains(settings, before, user, jtiHint, familyHint, now); }
    }

    method RotateRefresh(c: Claims, userExists: bool, jtiHint: nat, at: Readings) returns (o: Outcome)
      modifies this`tokens
      ensures (tokens, o) == RotateSpec(settings, old(tokens), c, userExists, jtiHint, at)
      ensures old(Chained(tokens)) ==> Chained(tokens)
    {
      ghost var before := tokens;
      if Chained(before) { RotateKeepsChains(settings, before, c, userExists, jtiHint, at); }
      if c.jti !in tokens || tokens[c.jti].family != c.family || tokens[c.jti].user != c.user {
        return Rejected(Unknown);
      }
      var row := tokens[c.jti];
      if row.revokedAt.Some? { return Rejected(Revoked); }
      if row.expiresAt < at.expiry { return Rejected(Expired); }
      if row.rotatedAt.Some? {
        if at.grace - row.rotatedAt.value <= settings.grace { return Rejected(Superseded); }
        tokens := RevokeAll(tokens, c.family, at.burn);
        return Rejected(ReuseDetected);
      }
      if !userExists { return Rejected(UserMissing); }
      var jti := NewId(tokens.Keys, jtiHint);
      tokens := tokens[c.jti := row.(rotatedAt := Some(at.rotate))];
      tokens := tokens[jti := Token(c.user, c.family, Some(c.jti), at.issue + settings.ttl, None, None)];
      o := Issued(jti);
    }

    method RevokeFamily(family: Uuid, now: Time)
      modifies this`tokens
      ensures tokens == RevokeAll(old(tokens), family, now)
      ensures FamilyRevoked(tokens, family)
      ensures old(Chained(tokens)) ==> Chained(tokens)
    {
      ghost var before := tokens;
      tokens := RevokeAll(tokens, family, now);
      if Chained(before) { RevocationKeepsChains(before, family, now); }
    }
  }
}
