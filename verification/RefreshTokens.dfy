/**
 * Refresh-token families under many clients at once. A refresh request is up to
 * three steps, a read, a decision and a family revocation, with the steps of other
 * clients in between; a client may also crash after any of them.
 */
module RefreshTokens {
  import opened Wrappers

  datatype Token = Token(user: nat, family: nat, expiresAt: int, revokedAt: Option<int>, replacedBy: Option<nat>)

  /** Where a refresh request stands: it holds the row it read, or is about to revoke a family. */
  datatype Phase = Holding(id: nat, row: Token) | Revoking(family: nat)

  type Tokens = map<nat, Token>

  datatype State = State(tokens: Tokens, nextId: nat, nextFamily: nat, clients: map<nat, Phase>)

  datatype Event =
    | StartSession(user: nat, expiresAt: int)
    | Read(client: nat, id: nat)
    | Act(client: nat, now: int, member: bool, expiresAt: int)
    | RevokeFamily(client: nat, now: int)
    | Crash(client: nat)
    | Logout(id: nat, now: int)
    | RevokeUser(user: nat, now: int)

  predicate Live(tokens: Tokens, n: nat) {
    n in tokens && tokens[n].revokedAt.None?
  }

  /** UPDATE .. SET revoked_at WHERE family_id = f AND revoked_at IS NULL. */
  function FamilyRevoked(tokens: Tokens, f: nat, now: int): Tokens {
    map n | n in tokens ::
      if tokens[n].family == f && tokens[n].revokedAt.None? then tokens[n].(revokedAt := Some(now)) else tokens[n]
  }

  function UserRevoked(tokens: Tokens, user: nat, now: int): Tokens {
    map n | n in tokens ::
      if tokens[n].user == user && tokens[n].revokedAt.None? then tokens[n].(revokedAt := Some(now)) else tokens[n]
  }

  function WithPhase(s: State, c: nat, phase: Phase): State {
    s.(clients := s.clients[c := phase])
  }

  function Idle(s: State, c: nat): State {
    s.(clients := s.clients - {c})
  }

  /** The rotation transaction, for a token that is still unrevoked in the table. */
  function Rotated(tokens: Tokens, id: nat, next: nat, now: int, expiresAt: int): Tokens
    requires id in tokens
  {
    var row := tokens[id];
    tokens[id := row.(revokedAt := Some(now), replacedBy := Some(next))]
          [next := Token(row.user, row.family, expiresAt, None, None)]
  }

  /** What a request does with the row it holds; the table may have moved on since. */
  function AfterAct(s: State, c: nat, now: int, member: bool, expiresAt: int): State {
    if c in s.clients && s.clients[c].Holding? && s.clients[c].id in s.tokens then
      var id, row := s.clients[c].id, s.clients[c].row;
      if row.revokedAt.Some? then WithPhase(s, c, Revoking(row.family))
      else if row.expiresAt <= now || !member
      then Idle(s.(tokens := s.tokens[id := s.tokens[id].(revokedAt := Some(now))]), c)
      else if Live(s.tokens, id)
      then Idle(s.(tokens := Rotated(s.tokens, id, s.nextId, now, expiresAt), nextId := s.nextId + 1), c)
      else WithPhase(s, c, Revoking(row.family))
    else s
  }

  function Next(s: State, e: Event): State {
    match e
    case StartSession(user, expiresAt) =>
      s.(tokens := s.tokens[s.nextId := Token(user, s.nextFamily, expiresAt, None, None)],
         nextId := s.nextId + 1, nextFamily := s.nextFamily + 1)
    case Read(c, id) =>
      if c !in s.clients && id in s.tokens then WithPhase(s, c, Holding(id, s.tokens[id])) else s
    case Act(c, now, member, expiresAt) => AfterAct(s, c, now, member, expiresAt)
    case RevokeFamily(c, now) =>
      if c in s.clients && s.clients[c].Revoking?
      then Idle(s.(tokens := FamilyRevoked(s.tokens, s.clients[c].family, now)), c)
      else s
    case Crash(c) => Idle(s, c)
    case Logout(id, now) =>
      if Live(s.tokens, id) then s.(tokens := s.tokens[id := s.tokens[id].(revokedAt := Some(now))]) else s
    case RevokeUser(user, now) => s.(tokens := UserRevoked(s.tokens, user, now))
  }

  function Run(s: State, es: seq<Event>): State
    decreases |es|
  {
    if |es| == 0 then s else Run(Next(s, es[0]), es[1..])
  }

  const EMPTY := State(map[], 0, 0, map[])

  // ---- One simple path per family -----------------------------------------

  /** The ids of a family in rotation order: each one revoked and replaced by the next. */
  ghost predicate IsChain(tokens: Tokens, f: nat, path: seq<nat>) {
    && |path| > 0
    && (forall i :: 0 <= i < |path| ==> path[i] in tokens && tokens[path[i]].family == f)
    && (forall i, j :: 0 <= i < j < |path| ==> path[i] != path[j])
    && (forall n :: n in tokens && tokens[n].family == f ==> n in path)
    && (forall i :: 0 <= i < |path| - 1 ==>
          tokens[path[i]].replacedBy == Some(path[i + 1]) && tokens[path[i]].revokedAt.Some?)
    && tokens[path[|path| - 1]].replacedBy.None?
  }

  ghost predicate HasChain(tokens: Tokens, f: nat) {
    exists path :: IsChain(tokens, f, path)
  }

  /** What a client holds was true of the row when it was read; revocation is never undone. */
  predicate HoldsSane(tokens: Tokens, p: Phase) {
    p.Holding? ==>
      && p.id in tokens
      && p.row.family == tokens[p.id].family
      && (p.row.revokedAt.Some? ==> tokens[p.id].revokedAt.Some?)
  }

  /** A family belongs to one user. */
  ghost predicate OneOwner(tokens: Tokens) {
    forall n, m :: n in tokens && m in tokens && tokens[n].family == tokens[m].family ==> tokens[n].user == tokens[m].user
  }

  ghost predicate WellFormed(s: State) {
    && (forall n :: n in s.tokens ==> n < s.nextId && s.tokens[n].family < s.nextFamily)
    && OneOwner(s.tokens)
    && (forall f :: 0 <= f < s.nextFamily ==> HasChain(s.tokens, f))
    && (forall c :: c in s.clients ==> HoldsSane(s.tokens, s.clients[c]))
  }

  /** Rows are only ever revoked: owner, family and link stay. */
  ghost predicate OnlyRevokes(a: Tokens, b: Tokens) {
    && b.Keys == a.Keys
    && forall n :: n in a ==> b[n].family == a[n].family && b[n].user == a[n].user && b[n].replacedBy == a[n].replacedBy
                              && (a[n].revokedAt.Some? ==> b[n].revokedAt.Some?)
  }

  lemma ChainAfterRevoking(a: Tokens, b: Tokens, f: nat)
    requires OnlyRevokes(a, b) && HasChain(a, f)
    ensures HasChain(b, f)
  {
    var path :| IsChain(a, f, path);
    assert IsChain(b, f, path);
  }

  lemma LiveIsLast(tokens: Tokens, f: nat, path: seq<nat>, n: nat)
    requires IsChain(tokens, f, path) && Live(tokens, n) && tokens[n].family == f
    ensures n == path[|path| - 1]
  {
    var i :| 0 <= i < |path| && path[i] == n;
    assert i == |path| - 1;
  }

  lemma ChainGrows(tokens: Tokens, f: nat, path: seq<nat>, next: nat, now: int, expiresAt: int)
    requires IsChain(tokens, f, path) && next !in tokens
    ensures IsChain(Rotated(tokens, path[|path| - 1], next, now, expiresAt), f, path + [next])
  {
    var last := path[|path| - 1];
    var after := Rotated(tokens, last, next, now, expiresAt);
    var longer := path + [next];
    assert longer[|path| - 1] == last && after[last].replacedBy == Some(next);
    forall n | n in after && after[n].family == f ensures n in longer {
      if n != next { assert n in path; }
    }
  }

  lemma ChainElsewhere(tokens: Tokens, f: nat, path: seq<nat>, id: nat, next: nat, now: int, expiresAt: int)
    requires IsChain(tokens, f, path) && id in tokens && tokens[id].family != f && next !in tokens
    ensures IsChain(Rotated(tokens, id, next, now, expiresAt), f, path)
  {
  }

  lemma ChainAfterRotating(tokens: Tokens, f: nat, id: nat, next: nat, now: int, expiresAt: int)
    requires HasChain(tokens, f) && Live(tokens, id) && next !in tokens
    ensures HasChain(Rotated(tokens, id, next, now, expiresAt), f)
  {
    var path :| IsChain(tokens, f, path);
    if tokens[id].family == f {
      LiveIsLast(tokens, f, path, id);
      ChainGrows(tokens, f, path, next, now, expiresAt);
    } else {
      ChainElsewhere(tokens, f, path, id, next, now, expiresAt);
    }
  }

  lemma ChainAfterStarting(tokens: Tokens, f: nat, next: nat, row: Token)
    requires next !in tokens && row.replacedBy.None?
    requires if f == row.family then forall n :: n in tokens ==> tokens[n].family != f else HasChain(tokens, f)
    ensures HasChain(tokens[next := row], f)
  {
    if f == row.family {
      assert IsChain(tokens[next := row], f, [next]);
    } else {
      var path :| IsChain(tokens, f, path);
      assert IsChain(tokens[next := row], f, path);
    }
  }

  /** Every step either only revokes, rotates one live token, or starts a new family. */
  lemma StepKinds(s: State, e: Event)
    requires WellFormed(s)
    ensures var t := Next(s, e);
            || (OnlyRevokes(s.tokens, t.tokens) && t.nextFamily == s.nextFamily)
            || (e.StartSession? && t.nextFamily == s.nextFamily + 1)
            || (exists id :: Live(s.tokens, id) && e.Act? && t.nextFamily == s.nextFamily && t.nextId == s.nextId + 1
                             && t.tokens == Rotated(s.tokens, id, s.nextId, e.now, e.expiresAt))
  {
  }

  lemma StepChains(s: State, e: Event)
    requires WellFormed(s)
    ensures forall f :: 0 <= f < Next(s, e).nextFamily ==> HasChain(Next(s, e).tokens, f)
  {
    var t := Next(s, e);
    StepKinds(s, e);
    forall f | 0 <= f < t.nextFamily ensures HasChain(t.tokens, f) {
      if OnlyRevokes(s.tokens, t.tokens) && t.nextFamily == s.nextFamily {
        ChainAfterRevoking(s.tokens, t.tokens, f);
      } else if e.StartSession? {
        ChainAfterStarting(s.tokens, f, s.nextId, t.tokens[s.nextId]);
      } else {
        var id :| Live(s.tokens, id) && t.tokens == Rotated(s.tokens, id, s.nextId, e.now, e.expiresAt);
        ChainAfterRotating(s.tokens, f, id, s.nextId, e.now, e.expiresAt);
      }
    }
  }

  lemma StepClients(s: State, e: Event)
    requires WellFormed(s)
    ensures forall c :: c in Next(s, e).clients ==> HoldsSane(Next(s, e).tokens, Next(s, e).clients[c])
  {
    var t := Next(s, e);
    forall c | c in t.clients ensures HoldsSane(t.tokens, t.clients[c]) {
      assert c in s.clients ==> HoldsSane(s.tokens, s.clients[c]);
    }
  }

  lemma StepOwners(s: State, e: Event)
    requires WellFormed(s)
    ensures OneOwner(Next(s, e).tokens)
  {
    StepKinds(s, e);
  }

  lemma StepWellFormed(s: State, e: Event)
    requires WellFormed(s)
    ensures WellFormed(Next(s, e))
  {
    StepOwners(s, e);
    StepChains(s, e);
    StepClients(s, e);
  }

  lemma {:induction false} RunWellFormed(s: State, es: seq<Event>)
    requires WellFormed(s)
    ensures WellFormed(Run(s, es))
    decreases |es|
  {
    if |es| > 0 {
      StepWellFormed(s, es[0]);
      RunWellFormed(Next(s, es[0]), es[1..]);
    }
  }

  /**
   * After any interleaving the links of every family form one simple path through
   * all its tokens, and no two tokens of a family are live.
   */
  lemma FamiliesArePaths(es: seq<Event>, f: nat)
    requires f < Run(EMPTY, es).nextFamily
    ensures var tokens := Run(EMPTY, es).tokens;
            && HasChain(tokens, f)
            && (forall n, m :: Live(tokens, n) && Live(tokens, m) && tokens[n].family == f && tokens[m].family == f ==> n == m)
  {
    RunWellFormed(EMPTY, es);
    var tokens := Run(EMPTY, es).tokens;
    assert HasChain(tokens, f);
    var path :| IsChain(tokens, f, path);
    forall n, m | Live(tokens, n) && Live(tokens, m) && tokens[n].family == f && tokens[m].family == f ensures n == m {
      LiveIsLast(tokens, f, path, n);
      LiveIsLast(tokens, f, path, m);
    }
  }

  // ---- Dead families stay dead --------------------------------------------

  ghost predicate Dead(s: State, f: nat) {
    f < s.nextFamily && forall n :: n in s.tokens && s.tokens[n].family == f ==> s.tokens[n].revokedAt.Some?
  }

  lemma StepDead(s: State, e: Event, f: nat)
    requires WellFormed(s) && Dead(s, f)
    ensures Dead(Next(s, e), f)
  {
    StepKinds(s, e);
  }

  lemma {:induction false} DeadStaysDead(s: State, es: seq<Event>, f: nat)
    requires WellFormed(s) && Dead(s, f)
    ensures Dead(Run(s, es), f)
    decreases |es|
  {
    if |es| > 0 {
      StepDead(s, es[0], f);
      StepWellFormed(s, es[0]);
      DeadStaysDead(Next(s, es[0]), es[1..], f);
    }
  }

  /** Logging out with the live token of a family ends it for good. */
  lemma LogoutEndsSession(s: State, id: nat, now: int, es: seq<Event>)
    requires WellFormed(s) && Live(s.tokens, id)
    ensures Dead(Run(Next(s, Logout(id, now)), es), s.tokens[id].family)
  {
    var f := s.tokens[id].family;
    var t := Next(s, Logout(id, now));
    assert HasChain(s.tokens, f);
    var path :| IsChain(s.tokens, f, path);
    forall n | n in t.tokens && t.tokens[n].family == f ensures t.tokens[n].revokedAt.Some? {
      if Live(s.tokens, n) {
        LiveIsLast(s.tokens, f, path, n);
        LiveIsLast(s.tokens, f, path, id);
      }
    }
    StepWellFormed(s, Logout(id, now));
    DeadStaysDead(t, es, f);
  }

  /** A password reset or change ends every family the user has at that moment, for good. */
  lemma PasswordChangeEndsSessions(s: State, user: nat, now: int, es: seq<Event>, n: nat)
    requires WellFormed(s) && n in s.tokens && s.tokens[n].user == user
    ensures Dead(Run(Next(s, RevokeUser(user, now)), es), s.tokens[n].family)
  {
    var t := Next(s, RevokeUser(user, now));
    StepWellFormed(s, RevokeUser(user, now));
    assert Dead(t, s.tokens[n].family);
    DeadStaysDead(t, es, s.tokens[n].family);
  }

  // ---- A token is rotated at most once ------------------------------------

  lemma StepLinks(s: State, e: Event, n: nat)
    requires WellFormed(s) && n in s.tokens
    ensures var t := Next(s, e);
            && n in t.tokens && t.tokens[n].family == s.tokens[n].family
            && (s.tokens[n].revokedAt.Some? ==> t.tokens[n].revokedAt.Some? && t.tokens[n].replacedBy == s.tokens[n].replacedBy)
  {
    StepKinds(s, e);
  }

  /** Once revoked, a token stays revoked and its replacement, or the lack of one, is final. */
  lemma {:induction false} RevokedIsFinal(s: State, es: seq<Event>, n: nat)
    requires WellFormed(s) && n in s.tokens && s.tokens[n].revokedAt.Some?
    ensures var t := Run(s, es);
            && n in t.tokens && t.tokens[n].family == s.tokens[n].family
            && t.tokens[n].revokedAt.Some? && t.tokens[n].replacedBy == s.tokens[n].replacedBy
    decreases |es|
  {
    if |es| > 0 {
      StepLinks(s, es[0], n);
      StepWellFormed(s, es[0]);
      RevokedIsFinal(Next(s, es[0]), es[1..], n);
    }
  }

  // ---- A session can be refreshed until its token expires ------------------

  /** The event can end or rotate token n. */
  predicate Touches(s: State, e: Event, n: nat)
    requires n in s.tokens
  {
    match e
    case Act(c, _, _, _) => c in s.clients && s.clients[c].Holding? && s.clients[c].id == n
    case RevokeFamily(c, _) => c in s.clients && s.clients[c] == Revoking(s.tokens[n].family)
    case Logout(id, _) => id == n
    case RevokeUser(user, _) => user == s.tokens[n].user
    case _ => false
  }

  ghost predicate LeftAlone(s: State, es: seq<Event>, n: nat)
    decreases |es|
  {
    n in s.tokens && (|es| == 0 || (!Touches(s, es[0], n) && LeftAlone(Next(s, es[0]), es[1..], n)))
  }

  lemma {:induction false} LeftAloneStays(s: State, es: seq<Event>, n: nat)
    requires WellFormed(s) && LeftAlone(s, es, n)
    ensures n in Run(s, es).tokens && Run(s, es).tokens[n] == s.tokens[n]
    decreases |es|
  {
    if |es| > 0 {
      assert n < s.nextId;
      StepWellFormed(s, es[0]);
      LeftAloneStays(Next(s, es[0]), es[1..], n);
    }
  }

  /**
   * An uninterrupted refresh by an idle client. It issues a token exactly when the one
   * presented is live, not expired and its user has a membership: same user and family,
   * the expiry asked for, the old token revoked and linked to it. An expired token, or
   * one without a membership, is revoked; a revoked one sends the client to revoke its family.
   */
  lemma RefreshMeaning(s: State, n: nat, c: nat, at: int, member: bool, expiresAt: int)
    requires WellFormed(s) && n in s.tokens && c !in s.clients
    ensures var row := s.tokens[n];
            var t := Next(Next(s, Read(c, n)), Act(c, at, member, expiresAt));
            if row.revokedAt.Some? then t == s.(clients := s.clients[c := Revoking(row.family)])
            else if row.expiresAt <= at || !member then t == s.(tokens := s.tokens[n := row.(revokedAt := Some(at))])
            else
              && s.nextId !in s.tokens
              && t == s.(tokens := s.tokens[n := row.(revokedAt := Some(at), replacedBy := Some(s.nextId))]
                                           [s.nextId := Token(row.user, row.family, expiresAt, None, None)],
                         nextId := s.nextId + 1)
  {
    var read := Next(s, Read(c, n));
    assert read.clients[c] == Holding(n, s.tokens[n]);
    assert s.clients[c := Holding(n, s.tokens[n])] - {c} == s.clients;
  }

  /**
   * A token issued by a refresh, or with a new session, and then left alone can be
   * refreshed at every instant before the expiry it was issued with, and at none after.
   */
  lemma IssuedCanBeRefreshed(s: State, n: nat, es: seq<Event>, c: nat, at: int, expiresAt: int)
    requires WellFormed(s) && n in s.tokens && s.tokens[n].revokedAt.None? && LeftAlone(s, es, n)
    requires c !in Run(s, es).clients
    ensures var u := Run(s, es);
            var t := Next(Next(u, Read(c, n)), Act(c, at, true, expiresAt));
            if at < s.tokens[n].expiresAt
            then t.nextId == u.nextId + 1 && u.nextId in t.tokens
                 && t.tokens[u.nextId] == Token(s.tokens[n].user, s.tokens[n].family, expiresAt, None, None)
            else t.nextId == u.nextId && !Live(t.tokens, n)
  {
    LeftAloneStays(s, es, n);
    RunWellFormed(s, es);
    RefreshMeaning(Run(s, es), n, c, at, true, expiresAt);
  }


  // ---- Reuse detection ----------------------------------------------------

  predicate OfClient(e: Event, c: nat) {
    match e
    case Read(d, _) => d == c
    case Act(d, _, _, _) => d == c
    case RevokeFamily(d, _) => d == c
    case Crash(d) => d == c
    case _ => false
  }

  /** A request keeps the row it has read: reading is its first step only, and for a token that exists. */
  lemma ReadOnce(s: State, c: nat, id: nat)
    ensures c in s.clients || id !in s.tokens ==> Next(s, Read(c, id)) == s
    ensures c !in s.clients && id in s.tokens ==> Next(s, Read(c, id)) == s.(clients := s.clients[c := Holding(id, s.tokens[id])])
  {
  }

  lemma {:induction false} OthersLeaveClient(s: State, es: seq<Event>, c: nat)
    requires forall i :: 0 <= i < |es| ==> !OfClient(es[i], c)
    ensures c in Run(s, es).clients <==> c in s.clients
    ensures c in s.clients ==> Run(s, es).clients[c] == s.clients[c]
    decreases |es|
  {
    if |es| > 0 {
      OthersLeaveClient(Next(s, es[0]), es[1..], c);
    }
  }

  /**
   * A request that presents a revoked token, whatever other clients do between its
   * three steps, leaves the whole family dead, for good.
   */
  lemma ReuseKillsFamily(s: State, c: nat, id: nat, act: Event, revokedAt: int,
                         before: seq<Event>, between: seq<Event>, after: seq<Event>)
    requires WellFormed(s) && c !in s.clients && id in s.tokens && s.tokens[id].revokedAt.Some?
    requires act.Act? && act.client == c
    requires forall i :: 0 <= i < |before| ==> !OfClient(before[i], c)
    requires forall i :: 0 <= i < |between| ==> !OfClient(between[i], c)
    ensures var s1 := Run(Next(s, Read(c, id)), before);
            var s2 := Run(Next(s1, act), between);
            Dead(Run(Next(s2, RevokeFamily(c, revokedAt)), after), s.tokens[id].family)
  {
    var f := s.tokens[id].family;
    var read := Next(s, Read(c, id));
    StepWellFormed(s, Read(c, id));
    OthersLeaveClient(read, before, c);
    RunWellFormed(read, before);
    var s1 := Run(read, before);
    assert HoldsSane(s1.tokens, s1.clients[c]);
    var acted := Next(s1, act);
    assert acted.clients[c] == Revoking(f);
    StepWellFormed(s1, act);
    FamilyExists(s1, c);
    RevocationKills(acted, c, f, between, revokedAt, after);
  }

  /** A request about to revoke a family leaves it dead when it gets to it, and for good. */
  lemma RevocationKills(s: State, c: nat, f: nat, between: seq<Event>, revokedAt: int, after: seq<Event>)
    requires WellFormed(s) && c in s.clients && s.clients[c] == Revoking(f) && f < s.nextFamily
    requires forall i :: 0 <= i < |between| ==> !OfClient(between[i], c)
    ensures Dead(Run(Next(Run(s, between), RevokeFamily(c, revokedAt)), after), f)
  {
    OthersLeaveClient(s, between, c);
    RunWellFormed(s, between);
    FamiliesGrow(s, between);
    var t := Run(s, between);
    StepWellFormed(t, RevokeFamily(c, revokedAt));
    DeadStaysDead(Next(t, RevokeFamily(c, revokedAt)), after, f);
  }

  lemma FamilyExists(s: State, c: nat)
    requires WellFormed(s) && c in s.clients && s.clients[c].Holding?
    ensures s.clients[c].row.family < s.nextFamily
  {
    assert HoldsSane(s.tokens, s.clients[c]);
  }

  lemma {:induction false} FamiliesGrow(s: State, es: seq<Event>)
    ensures s.nextFamily <= Run(s, es).nextFamily
    decreases |es|
  {
    if |es| > 0 {
      assert s.nextFamily <= Next(s, es[0]).nextFamily;
      FamiliesGrow(Next(s, es[0]), es[1..]);
    }
  }

  /** Acting on a row leaves its token revoked. */
  lemma ActRevokes(s: State, e: Event)
    requires WellFormed(s) && e.Act? && e.client in s.clients && s.clients[e.client].Holding?
    ensures var id := s.clients[e.client].id; id in Next(s, e).tokens && Next(s, e).tokens[id].revokedAt.Some?
  {
    assert HoldsSane(s.tokens, s.clients[e.client]);
  }

  /** A request whose token was revoked since it was read loses: it goes on to revoke the family. */
  lemma LateActLoses(s: State, e: Event)
    requires e.Act? && e.client in s.clients && s.clients[e.client].Holding?
    requires var id, row := s.clients[e.client].id, s.clients[e.client].row;
             && id in s.tokens && s.tokens[id].revokedAt.Some?
             && row.revokedAt.None? && row.expiresAt > e.now && e.member
    ensures Next(s, e) == WithPhase(s, e.client, Revoking(s.clients[e.client].row.family))
  {
  }

  /**
   * Two requests hold the same row, both read before either acted: whatever happens
   * in between, the second to act rotates nothing and kills the family, including
   * the token the first one was given.
   */
  lemma RaceKillsFamily(s: State, c: nat, d: nat, first: Event, second: Event, between: seq<Event>, later: seq<Event>,
                        revokedAt: int, after: seq<Event>)
    requires WellFormed(s) && c in s.clients && d in s.clients && c != d
    requires s.clients[c].Holding? && s.clients[d] == s.clients[c]
    requires first.Act? && first.client == c && second.Act? && second.client == d
    requires s.clients[c].row.revokedAt.None?
    requires s.clients[c].row.expiresAt > second.now && second.member
    requires forall i :: 0 <= i < |between| ==> !OfClient(between[i], d)
    requires forall i :: 0 <= i < |later| ==> !OfClient(later[i], d)
    ensures var f := s.clients[d].row.family;
            var s1 := Run(Next(s, first), between);
            var s2 := Next(s1, second);
            && s2.tokens == s1.tokens
            && Dead(Run(Next(Run(s2, later), RevokeFamily(d, revokedAt)), after), f)
  {
    var id, f := s.clients[c].id, s.clients[c].row.family;
    assert HoldsSane(s.tokens, s.clients[c]);
    var s0 := Next(s, first);
    StepWellFormed(s, first);
    ActRevokes(s, first);
    assert s0.clients[d] == s.clients[d];
    RevokedIsFinal(s0, between, id);
    OthersLeaveClient(s0, between, d);
    RunWellFormed(s0, between);
    var s1 := Run(s0, between);
    StepWellFormed(s1, second);
    LateActLoses(s1, second);
    FamilyExists(s1, d);
    RevocationKills(Next(s1, second), d, f, later, revokedAt, after);
  }

  // ---- The service, updating the table ------------------------------------

  /** The token table; `clients` is what requests in flight hold in memory. */
  class TokenStore {
    var tokens: Tokens
    var nextId: nat
    var nextFamily: nat
    ghost var clients: map<nat, Phase>

    constructor ()
      ensures Snapshot() == EMPTY
    {
      tokens, nextId, nextFamily, clients := map[], 0, 0, map[];
    }

    ghost function Snapshot(): State
      reads this
    {
      State(tokens, nextId, nextFamily, clients)
    }

    method StartSession(user: nat, expiresAt: int) returns (id: nat)
      modifies this
      ensures id == old(nextId) && nextId == old(nextId) + 1 && nextFamily == old(nextFamily) + 1
      ensures tokens == old(tokens)[id := Token(user, old(nextFamily), expiresAt, None, None)]
      ensures Snapshot() == Next(old(Snapshot()), Event.StartSession(user, expiresAt))
    {
      id := nextId;
      tokens := tokens[id := Token(user, nextFamily, expiresAt, None, None)];
      nextId, nextFamily := nextId + 1, nextFamily + 1;
    }

    /** The decision of a request that holds `row`; the table may have changed since the read. */
    method ActOn(ghost c: nat, id: nat, row: Token, now: int, member: bool, expiresAt: int)
      returns (issued: Option<nat>, reused: bool)
      requires c in clients && clients[c] == Holding(id, row) && id in tokens && nextId !in tokens
      modifies this
      ensures Snapshot() == Next(old(Snapshot()), Act(c, now, member, expiresAt))
      ensures reused <==> c in clients
      ensures issued.Some? <==> row.revokedAt.None? && row.expiresAt > now && member && Live(old(tokens), id)
      ensures issued.Some? ==>
                && issued.value == old(nextId)
                && tokens == old(tokens)[id := old(tokens)[id].(revokedAt := Some(now), replacedBy := issued)]
                                        [issued.value := Token(old(tokens)[id].user, old(tokens)[id].family, expiresAt, None, None)]
      ensures reused <==> row.revokedAt.Some? || (row.expiresAt > now && member && !Live(old(tokens), id))
      ensures reused ==> tokens == old(tokens) && clients[c] == Revoking(row.family)
      ensures issued.None? && !reused ==> tokens == old(tokens)[id := old(tokens)[id].(revokedAt := Some(now))]
    {
      issued, reused := None, false;
      if row.revokedAt.Some? {
        reused := true;
        clients := clients[c := Revoking(row.family)];
        return;
      }
      if row.expiresAt <= now || !member {
        tokens := tokens[id := tokens[id].(revokedAt := Some(now))];
        clients := clients - {c};
        return;
      }
      if tokens[id].revokedAt.Some? {
        reused := true;
        clients := clients[c := Revoking(row.family)];
        return;
      }
      tokens := tokens[id := tokens[id].(revokedAt := Some(now))];
      var next := nextId;
      tokens := tokens[next := Token(tokens[id].user, tokens[id].family, expiresAt, None, None)];
      nextId := nextId + 1;
      tokens := tokens[id := tokens[id].(replacedBy := Some(next))];
      assert tokens == Rotated(old(tokens), id, next, now, expiresAt);
      issued := Some(next);
      clients := clients - {c};
    }

    method RevokeTokenFamily(ghost c: nat, family: nat, now: int)
      requires c in clients && clients[c] == Revoking(family)
      modifies this
      ensures Snapshot() == Next(old(Snapshot()), RevokeFamily(c, now))
      ensures tokens.Keys == old(tokens).Keys
      ensures forall n :: n in tokens ==>
                var row := old(tokens)[n];
                tokens[n] == if row.family == family && row.revokedAt.None? then row.(revokedAt := Some(now)) else row
    {
      tokens := FamilyRevoked(tokens, family, now);
      clients := clients - {c};
    }

    /** A refresh request without interruption: it issues a token exactly for a live, unexpired one with a membership. */
    method Refresh(ghost c: nat, id: Option<nat>, now: int, member: bool, expiresAt: int) returns (issued: Option<nat>)
      requires WellFormed(Snapshot()) && c !in clients
      modifies this
      ensures issued.Some? <==> id.Some? && Live(old(tokens), id.value) && old(tokens)[id.value].expiresAt > now && member
      ensures id.None? || id.value !in old(tokens) ==> Snapshot() == old(Snapshot())
      ensures id.Some? && id.value in old(tokens) ==>
                var acted := Next(Next(old(Snapshot()), Read(c, id.value)), Act(c, now, member, expiresAt));
                Snapshot() == if Live(old(tokens), id.value) then acted else Next(acted, RevokeFamily(c, now))
      ensures issued.Some? ==>
                var row := old(tokens)[id.value];
                && issued.value == old(nextId)
                && tokens == old(tokens)[id.value := row.(revokedAt := Some(now), replacedBy := issued)]
                                        [issued.value := Token(row.user, row.family, expiresAt, None, None)]
    {
      if id.None? || id.value !in tokens { return None; }
      var row := tokens[id.value];
      clients := clients[c := Holding(id.value, row)];
      var reused;
      issued, reused := ActOn(c, id.value, row, now, member, expiresAt);
      if reused {
        RevokeTokenFamily(c, row.family, now);
      }
    }

    method Logout(id: Option<nat>, now: int)
      modifies this
      ensures Snapshot() == if id.None? then old(Snapshot()) else Next(old(Snapshot()), Event.Logout(id.value, now))
      ensures tokens == if id.None? || id.value !in old(tokens) || old(tokens)[id.value].revokedAt.Some? then old(tokens)
                        else old(tokens)[id.value := old(tokens)[id.value].(revokedAt := Some(now))]
    {
      if id.None? || id.value !in tokens { return; }
      if tokens[id.value].revokedAt.None? {
        tokens := tokens[id.value := tokens[id.value].(revokedAt := Some(now))];
      }
    }

    /** What resetPassword and changePassword do to the user's sessions. */
    method RevokeSessionsOf(user: nat, now: int)
      modifies this
      ensures Snapshot() == Next(old(Snapshot()), RevokeUser(user, now))
      ensures tokens.Keys == old(tokens).Keys
      ensures forall n :: n in tokens ==>
                var row := old(tokens)[n];
                tokens[n] == if row.user == user && row.revokedAt.None? then row.(revokedAt := Some(now)) else row
    {
      tokens := UserRevoked(tokens, user, now);
    }
  }
}
