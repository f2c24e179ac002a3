/**
 * Device pairing with trial identity claims: one transaction that checks the
 * pairing code, claims the device's signals and creates the device, or undoes all.
 */
module TrialIdentity {
  import opened Wrappers

  datatype Kind = ANDROID_ID | INSTALLATION_KEY

  datatype Signal = Signal(kind: Kind, hash: int)

  /** The hashed signals of a device, and whether its request signature verifies. */
  datatype Identity = Identity(android: int, key: int, signed: bool)

  datatype Mode = OFF | OBSERVE | ENFORCE

  datatype Outcome = SKIPPED | OBSERVED | ACCEPTED

  datatype PairError = INVALID_CODE | DEVICE_LIMIT | DEVICE_INTEGRITY_REQUIRED | TRIAL_ALREADY_USED | CODE_TAKEN

  datatype Code = Code(tenant: int, used: bool, expiresAt: int)

  /** A request and what it finds: rollout mode and plan of the tenant, whether another request takes the code first. */
  datatype Request = Request(code: int, now: int, mode: Mode, trial: bool, identity: Option<Identity>,
                             tenantActive: bool, underLimit: bool, raced: bool)

  datatype Paired = Paired(tenant: int, mode: Mode, trial: bool, identity: Option<Identity>, outcome: Outcome)

  type Claims = map<Signal, int>

  datatype State = State(codes: map<int, Code>, claims: Claims, devices: seq<Paired>)

  datatype Event = Issue(code: int, tenant: int, expiresAt: int) | Pair(request: Request)

  function Android(id: Identity): Signal { Signal(ANDROID_ID, id.android) }

  function Key(id: Identity): Signal { Signal(INSTALLATION_KEY, id.key) }

  predicate Shares(a: Identity, b: Identity) {
    a.android == b.android || a.key == b.key
  }

  predicate OwnedByOther(claims: Claims, signal: Signal, tenant: int) {
    signal in claims && claims[signal] != tenant
  }

  predicate Conflicts(claims: Claims, tenant: int, id: Identity) {
    OwnedByOther(claims, Android(id), tenant) || OwnedByOther(claims, Key(id), tenant)
  }

  /** What claiming does: nothing off the trial, an error, an observation, or both signals owned. */
  function Claiming(claims: Claims, tenant: int, r: Request): Result<Outcome, PairError> {
    if r.mode == OFF || !r.trial then Ok(SKIPPED)
    else if r.identity.None? then (if r.mode == ENFORCE then Err(DEVICE_INTEGRITY_REQUIRED) else Ok(SKIPPED))
    else if !r.identity.value.signed then Err(DEVICE_INTEGRITY_REQUIRED)
    else if Conflicts(claims, tenant, r.identity.value) then (if r.mode == ENFORCE then Err(TRIAL_ALREADY_USED) else Ok(OBSERVED))
    else Ok(ACCEPTED)
  }

  function Claimed(claims: Claims, tenant: int, id: Identity): Claims {
    claims[Android(id) := tenant][Key(id) := tenant]
  }

  predicate UsableCode(s: State, r: Request) {
    r.code in s.codes && !s.codes[r.code].used && s.codes[r.code].expiresAt > r.now && r.tenantActive
  }

  function PairingResult(s: State, r: Request): Result<Outcome, PairError> {
    if !UsableCode(s, r) then Err(INVALID_CODE)
    else if !r.underLimit then Err(DEVICE_LIMIT)
    else
      var claiming := Claiming(s.claims, s.codes[r.code].tenant, r);
      if claiming.Ok? && r.raced then Err(CODE_TAKEN) else claiming
  }

  function Next(s: State, e: Event): State {
    match e
    case Issue(code, tenant, expiresAt) =>
      if code in s.codes then s else s.(codes := s.codes[code := Code(tenant, false, expiresAt)])
    case Pair(r) =>
      var result := PairingResult(s, r);
      if result.Err? then s
      else
        var tenant := s.codes[r.code].tenant;
        State(s.codes[r.code := s.codes[r.code].(used := true)],
              if result.value == ACCEPTED then Claimed(s.claims, tenant, r.identity.value) else s.claims,
              s.devices + [Paired(tenant, r.mode, r.trial, r.identity, result.value)])
  }

  function Run(s: State, es: seq<Event>): State
    decreases |es|
  {
    if |es| == 0 then s else Run(Next(s, es[0]), es[1..])
  }

  const EMPTY := State(map[], map[], [])

  // ---- One tenant per signal ----------------------------------------------

  predicate Owns(claims: Claims, p: Paired) {
    p.outcome == ACCEPTED ==>
      && p.identity.Some?
      && Android(p.identity.value) in claims && claims[Android(p.identity.value)] == p.tenant
      && Key(p.identity.value) in claims && claims[Key(p.identity.value)] == p.tenant
  }

  predicate Enforced(p: Paired) {
    p.mode == ENFORCE && p.trial ==> p.outcome == ACCEPTED
  }

  predicate WellFormed(s: State) {
    forall i :: 0 <= i < |s.devices| ==> Owns(s.claims, s.devices[i]) && Enforced(s.devices[i])
  }

  /** A claim once made keeps its owner through every event. */
  lemma ClaimsStay(s: State, e: Event, signal: Signal)
    requires signal in s.claims
    ensures signal in Next(s, e).claims && Next(s, e).claims[signal] == s.claims[signal]
  {
  }

  lemma StepWellFormed(s: State, e: Event)
    requires WellFormed(s)
    ensures WellFormed(Next(s, e))
  {
    var t := Next(s, e);
    forall i | 0 <= i < |t.devices| ensures Owns(t.claims, t.devices[i]) && Enforced(t.devices[i]) {
      if i < |s.devices| {
        var p := s.devices[i];
        assert t.devices[i] == p && Owns(s.claims, p) && Enforced(p);
        if p.outcome == ACCEPTED {
          ClaimsStay(s, e, Android(p.identity.value));
          ClaimsStay(s, e, Key(p.identity.value));
        }
      }
    }
  }

  lemma {:induction false} RunWellFormed(s: State, es: seq<Event>)
    requires WellFormed(s)
    ensures WellFormed(Run(s, es))
    decreases |es|
  {
    if |es| > 0 {
      StepWellFormed(s, es[0]);
      RunWellFormed(Next(s, es[0]), es[1..]);
    }
  }

  /**
   * In any run, whatever the other pairings' modes, two enforced pairings of TRIAL
   * tenants whose devices share an android id or a key belong to one tenant.
   */
  lemma OneTrialPerDevice(es: seq<Event>, i: nat, j: nat)
    requires i < |Run(EMPTY, es).devices| && j < |Run(EMPTY, es).devices|
    requires var d := Run(EMPTY, es).devices;
             && d[i].mode == ENFORCE && d[i].trial && d[j].mode == ENFORCE && d[j].trial
             && d[i].identity.Some? && d[j].identity.Some? && Shares(d[i].identity.value, d[j].identity.value)
    ensures Run(EMPTY, es).devices[i].tenant == Run(EMPTY, es).devices[j].tenant
  {
    RunWellFormed(EMPTY, es);
    var t := Run(EMPTY, es);
    assert Owns(t.claims, t.devices[i]) && Enforced(t.devices[i]);
    assert Owns(t.claims, t.devices[j]) && Enforced(t.devices[j]);
  }

  /** An enforced TRIAL pairing always carries an identity that verified. */
  lemma EnforcedCarriesIdentity(s: State, r: Request)
    requires PairingResult(s, r).Ok? && r.mode == ENFORCE && r.trial
    ensures r.identity.Some? && r.identity.value.signed && PairingResult(s, r).value == ACCEPTED
  {
  }

  /**
   * With a usable code, room for a device and a verified identity, enforcement
   * accepts exactly when no other tenant owns either signal.
   */
  lemma AcceptedIffUnowned(s: State, r: Request)
    requires UsableCode(s, r) && r.underLimit && !r.raced && r.mode == ENFORCE && r.trial
    requires r.identity.Some? && r.identity.value.signed
    ensures var id, tenant := r.identity.value, s.codes[r.code].tenant;
            PairingResult(s, r).Ok? <==>
              forall signal :: signal in s.claims && (signal == Android(id) || signal == Key(id)) ==> s.claims[signal] == tenant
  {
    var id := r.identity.value;
    if PairingResult(s, r).Err? {
      var signal := if OwnedByOther(s.claims, Android(id), s.codes[r.code].tenant) then Android(id) else Key(id);
      assert signal in s.claims && s.claims[signal] != s.codes[r.code].tenant;
    }
  }

  /**
   * Which answer a pairing gets, in order: the code, the device limit, the missing or
   * unverified identity, another tenant's claim, the lost race. With the rollout off, a
   * paid plan, or no identity while observing, claims never stand in the way.
   */
  lemma PairingMeaning(s: State, r: Request)
    ensures var result := PairingResult(s, r);
            var usable := r.code in s.codes && !s.codes[r.code].used && r.now < s.codes[r.code].expiresAt && r.tenantActive;
            var free := r.mode == OFF || !r.trial || (r.identity.None? && r.mode == OBSERVE);
            && (result == Err(INVALID_CODE) <==> !usable)
            && (result == Err(DEVICE_LIMIT) <==> usable && !r.underLimit)
            && (result == Err(DEVICE_INTEGRITY_REQUIRED) <==>
                  usable && r.underLimit && !free && (r.identity.None? || !r.identity.value.signed))
            && (result == Err(TRIAL_ALREADY_USED) ==> usable && !free && r.mode == ENFORCE && r.identity.Some?)
            && (usable && r.underLimit && free ==> result == if r.raced then Err(CODE_TAKEN) else Ok(SKIPPED))
  {
  }

  /** The claim that refuses: another tenant holds the android id or the installation key under that kind. */
  lemma RefusedIffOwned(s: State, r: Request)
    requires UsableCode(s, r) && r.underLimit && r.trial && r.mode == ENFORCE && r.identity.Some? && r.identity.value.signed
    ensures var id, tenant := r.identity.value, s.codes[r.code].tenant;
            var android, key := Signal(ANDROID_ID, id.android), Signal(INSTALLATION_KEY, id.key);
            PairingResult(s, r) == Err(TRIAL_ALREADY_USED) <==>
              (android in s.claims && s.claims[android] != tenant) || (key in s.claims && s.claims[key] != tenant)
  {
  }

  /**
   * A pairing that succeeds uses up its code, adds one device and, when accepted, claims
   * both of its signals for the tenant; nothing else changes.
   */
  lemma PairedMeaning(s: State, r: Request)
    ensures var result, t := PairingResult(s, r), Next(s, Pair(r));
            && (result.Err? ==> t == s)
            && (result.Ok? ==>
                  && r.code in s.codes
                  && var tenant := s.codes[r.code].tenant;
                     && t.codes == s.codes[r.code := Code(tenant, true, s.codes[r.code].expiresAt)]
                     && t.devices == s.devices + [Paired(tenant, r.mode, r.trial, r.identity, result.value)]
                     && (result.value != ACCEPTED ==> t.claims == s.claims)
                     && (result.value == ACCEPTED ==>
                           && r.identity.Some?
                           && t.claims == s.claims[Signal(ANDROID_ID, r.identity.value.android) := tenant]
                                                  [Signal(INSTALLATION_KEY, r.identity.value.key) := tenant]))
  {
  }

  /** A tenant that has claimed a device can pair it again at any later time, as far as claims go, in every mode. */
  lemma {:induction false} OwnDevicePairsAgain(s: State, es: seq<Event>, tenant: int, r: Request)
    requires r.identity.Some? && r.identity.value.signed
    requires Android(r.identity.value) in s.claims && s.claims[Android(r.identity.value)] == tenant
    requires Key(r.identity.value) in s.claims && s.claims[Key(r.identity.value)] == tenant
    ensures Claiming(Run(s, es).claims, tenant, r).Ok?
    ensures r.trial && r.mode != OFF ==> Claiming(Run(s, es).claims, tenant, r) == Ok(ACCEPTED)
    decreases |es|
  {
    if |es| > 0 {
      ClaimsStay(s, es[0], Android(r.identity.value));
      ClaimsStay(s, es[0], Key(r.identity.value));
      OwnDevicePairsAgain(Next(s, es[0]), es[1..], tenant, r);
    }
  }

  /** Observing a device of another tenant pairs it and leaves every claim and owner as it was. */
  lemma ObservationLeavesClaims(s: State, r: Request)
    requires UsableCode(s, r) && r.underLimit && !r.raced && r.mode == OBSERVE && r.trial
    requires r.identity.Some? && r.identity.value.signed && Conflicts(s.claims, s.codes[r.code].tenant, r.identity.value)
    ensures var t := Next(s, Pair(r));
            t.claims == s.claims && |t.devices| == |s.devices| + 1 && t.devices[|s.devices|].outcome == OBSERVED
  {
  }

  /** A code pairs at most one device: it stays used, and a used code is refused. */
  lemma {:induction false} CodePairsOnce(s: State, es: seq<Event>, r: Request, again: Request)
    requires PairingResult(s, r).Ok? && again.code == r.code
    ensures PairingResult(Run(Next(s, Pair(r)), es), again) == Err(INVALID_CODE)
  {
    UsedStaysUsed(Next(s, Pair(r)), es, r.code);
  }

  lemma {:induction false} UsedStaysUsed(s: State, es: seq<Event>, code: int)
    requires code in s.codes && s.codes[code].used
    ensures code in Run(s, es).codes && Run(s, es).codes[code].used
    decreases |es|
  {
    if |es| > 0 { UsedStaysUsed(Next(s, es[0]), es[1..], code); }
  }

  // ---- The service, updating the tables -----------------------------------

  class PairingService {
    var codes: map<int, Code>
    var claims: Claims
    var devices: seq<Paired>

    constructor ()
      ensures Snapshot() == EMPTY
    {
      codes, claims, devices := map[], map[], [];
    }

    function Snapshot(): State
      reads this
    {
      State(codes, claims, devices)
    }

    /** INSERT .. ON CONFLICT DO NOTHING RETURNING, for one of the two rows. */
    method InsertClaim(signal: Signal, tenant: int) returns (inserted: bool)
      modifies this`claims
      ensures inserted <==> signal !in old(claims)
      ensures claims == if inserted then old(claims)[signal := tenant] else old(claims)
    {
      inserted := signal !in claims;
      if inserted { claims := claims[signal := tenant]; }
    }

    /** claimTrialIdentities; after an error the caller's transaction is rolled back. */
    method ClaimTrialIdentities(tenant: int, r: Request) returns (result: Result<Outcome, PairError>)
      modifies this`claims
      ensures result == Claiming(old(claims), tenant, r)
      ensures result == Ok(ACCEPTED) ==> r.identity.Some? && claims == Claimed(old(claims), tenant, r.identity.value)
      ensures result.Ok? && result.value != ACCEPTED ==> claims == old(claims)
    {
      if r.mode == OFF { return Ok(SKIPPED); }
      if !r.trial { return Ok(SKIPPED); }
      if r.identity.None? {
        if r.mode == ENFORCE { return Err(DEVICE_INTEGRITY_REQUIRED); }
        return Ok(SKIPPED);
      }
      if !r.identity.value.signed { return Err(DEVICE_INTEGRITY_REQUIRED); }
      var android, key := Android(r.identity.value), Key(r.identity.value);
      var newAndroid := InsertClaim(android, tenant);
      var newKey := InsertClaim(key, tenant);
      if newAndroid && newKey { return Ok(ACCEPTED); }
      var conflicting := claims[android] != tenant || claims[key] != tenant;
      if conflicting && r.mode == ENFORCE { return Err(TRIAL_ALREADY_USED); }
      if conflicting {
        var inserted := (if newAndroid then {android} else {}) + (if newKey then {key} else {});
        if inserted != {} { claims := claims - inserted; }
        return Ok(OBSERVED);
      }
      result := Ok(ACCEPTED);
    }

    /** pairDevice: every error leaves all tables as they were. */
    method PairDevice(r: Request) returns (result: Result<Outcome, PairError>)
      modifies this
      ensures result == PairingResult(old(Snapshot()), r)
      ensures Snapshot() == Next(old(Snapshot()), Pair(r))
    {
      if r.code !in codes || codes[r.code].used || codes[r.code].expiresAt <= r.now || !r.tenantActive {
        return Err(INVALID_CODE);
      }
      if !r.underLimit { return Err(DEVICE_LIMIT); }
      var saved := Snapshot();
      var tenant := codes[r.code].tenant;
      result := ClaimTrialIdentities(tenant, r);
      if result.Ok? {
        devices := devices + [Paired(tenant, r.mode, r.trial, r.identity, result.value)];
        if r.raced {
          result := Err(CODE_TAKEN);
        } else {
          codes := codes[r.code := codes[r.code].(used := true)];
        }
      }
      if result.Err? { Rollback(saved); }
    }

    method Rollback(saved: State)
      modifies this
      ensures Snapshot() == saved
    {
      codes, claims, devices := saved.codes, saved.claims, saved.devices;
    }
  }
}
