/** Single use of one approval across any number of broker processes, each handling one request.

    Each file operation and each clock reading is one atomic step, so other brokers run in between, also
    between looking at a marker's age and unlinking it. */
module ActionBroker {

  import opened Options

  const MAX_APPROVAL_SECONDS: real := 180.0
  const CLOCK_SKEW_SECONDS: real := 5.0
  const MAX_SECRET_CHARS: nat := 1024

  /** How long after a claim its marker is certain to survive. */
  const RETENTION: real := 2.0 * (MAX_APPROVAL_SECONDS + CLOCK_SKEW_SECONDS)

  datatype Lifetime = Lifetime(issuedAt: real, expiresAt: real)

  /** The approvals in existence. A nonce is drawn freshly for each envelope, so it names one. */
  type Envelopes = map<string, Lifetime>

  predicate Fresh(life: Lifetime, now: real) {
    && life.issuedAt <= now + CLOCK_SKEW_SECONDS
    && now <= life.expiresAt
    && 0.0 < life.expiresAt - life.issuedAt <= MAX_APPROVAL_SECONDS
  }

  predicate WellFormedNonce(nonce: string) {
    |nonce| == 32 && forall c | c in nonce :: '0' <= c <= '9' || 'a' <= c <= 'f'
  }

  /** One broker process and how far its single request has come. */
  datatype Broker =
    | Waiting(nonce: string)
    | Checked(nonce: string, checkedAt: real)
    | Sweeping(nonce: string, checkedAt: real, horizon: real)
    | Unlinking(nonce: string, checkedAt: real, horizon: real, victim: string, age: real)
    | Accepted(nonce: string)
    | Refused(nonce: string)

  /** `accepted` and `claimedAt` are history: how often, and when last, an approval was accepted. */
  datatype World = World(now: real, markers: map<string, real>, brokers: map<nat, Broker>,
                         accepted: multiset<string>, claimedAt: map<string, real>)

  datatype Step =
    | Tick(seconds: real)
    | Launch(b: nat, nonce: string)
    | CheckFresh(b: nat)
    | Decline(b: nat)
    | StartSweep(b: nat)
    | Look(b: nat, victim: string)
    | Unlink(b: nat, removed: bool)
    | Claim(b: nat)

  function Start(now: real): World {
    World(now, map[], map[], multiset{}, map[])
  }

  /** Whether a step can happen at all. */
  predicate Possible(env: Envelopes, w: World, s: Step) {
    match s
    case Tick(seconds) => seconds >= 0.0
    case Launch(b, nonce) => b !in w.brokers && nonce in env && WellFormedNonce(nonce)
    case CheckFresh(b) => b in w.brokers && w.brokers[b].Waiting? && w.brokers[b].nonce in env
    case Decline(b) => b in w.brokers && (w.brokers[b].Checked? || w.brokers[b].Waiting?)
    case StartSweep(b) => b in w.brokers && w.brokers[b].Checked?
    case Look(b, victim) =>
      && b in w.brokers && w.brokers[b].Sweeping?
      && victim in w.markers && w.markers[victim] < w.brokers[b].horizon
    case Unlink(b, _) => b in w.brokers && w.brokers[b].Unlinking?
    case Claim(b) => b in w.brokers && w.brokers[b].Sweeping?
  }

  /** `delay` bounds the time between a broker's freshness check and its claim. */
  predicate Enabled(env: Envelopes, delay: real, w: World, s: Step) {
    Possible(env, w, s) && (s.Claim? ==> w.now <= w.brokers[s.b].checkedAt + delay)
  }

  function Next(env: Envelopes, w: World, s: Step): World
    requires Possible(env, w, s)
  {
    match s
    case Tick(seconds) => w.(now := w.now + seconds)
    case Launch(b, nonce) => w.(brokers := w.brokers[b := Waiting(nonce)])
    case CheckFresh(b) =>
      var nonce := w.brokers[b].nonce;
      w.(brokers := w.brokers[b := if Fresh(env[nonce], w.now) then Checked(nonce, w.now)
                                   else Refused(nonce)])
    case Decline(b) => w.(brokers := w.brokers[b := Refused(w.brokers[b].nonce)])
    case StartSweep(b) =>
      var p := w.brokers[b];
      w.(brokers := w.brokers[b := Sweeping(p.nonce, p.checkedAt, w.now - RETENTION)])
    case Look(b, victim) =>
      var p := w.brokers[b];
      w.(brokers := w.brokers[b := Unlinking(p.nonce, p.checkedAt, p.horizon, victim, w.markers[victim])])
    case Unlink(b, removed) =>
      var p := w.brokers[b];
      w.(brokers := w.brokers[b := Sweeping(p.nonce, p.checkedAt, p.horizon)],
         markers := if removed then w.markers - {p.victim} else w.markers)
    case Claim(b) =>
      var nonce := w.brokers[b].nonce;
      if nonce in w.markers then w.(brokers := w.brokers[b := Refused(nonce)])
      else w.(brokers := w.brokers[b := Accepted(nonce)],
              markers := w.markers[nonce := w.now],
              accepted := w.accepted + multiset{nonce},
              claimedAt := w.claimedAt[nonce := w.now])
  }

  ghost predicate Follows(env: Envelopes, delay: real, w: World, s: Step, v: World) {
    Enabled(env, delay, w, s) && v == Next(env, w, s)
  }

  /** The worlds of one interleaving, from an empty folder at some time on the clock. */
  ghost predicate IsRun(env: Envelopes, delay: real, ws: seq<World>, steps: seq<Step>) {
    && |ws| == |steps| + 1
    && ws[0] == Start(ws[0].now)
    && forall i | 0 <= i < |steps| :: Follows(env, delay, ws[i], steps[i], ws[i + 1])
  }

  ghost predicate NoReplay(w: World) {
    forall nonce :: w.accepted[nonce] <= 1
  }

  // ------------------------------------------------------------ the invariant

  /** An approval that passed the freshness check at `at` is over by `at` + 185. */
  lemma FreshnessBoundsExpiry(life: Lifetime, at: real)
    requires Fresh(life, at)
    ensures at <= life.expiresAt <= at + MAX_APPROVAL_SECONDS + CLOCK_SKEW_SECONDS
  {}

  /** What a broker that passed the check still knows. */
  ghost predicate BrokerInv(env: Envelopes, w: World, p: Broker) {
    && (p.Checked? || p.Sweeping? || p.Unlinking? ==>
          p.nonce in env && Fresh(env[p.nonce], p.checkedAt) && p.checkedAt <= w.now)
    && (p.Sweeping? || p.Unlinking? ==> p.horizon <= w.now - RETENTION)
    && (p.Unlinking? ==>
          p.victim in w.claimedAt && w.claimedAt[p.victim] == p.age && p.age < p.horizon)
  }

  /** Every accepted approval still has its marker, or lies further back than the retention. */
  ghost predicate MarkersInv(env: Envelopes, w: World) {
    && (forall n :: w.accepted[n] == if n in w.claimedAt then 1 else 0)
    && (forall n | n in w.markers :: n in w.claimedAt && w.markers[n] == w.claimedAt[n])
    && (forall n | n in w.claimedAt ::
          && n in env
          && env[n].expiresAt <= w.claimedAt[n] + MAX_APPROVAL_SECONDS + CLOCK_SKEW_SECONDS
          && w.claimedAt[n] <= w.now
          && (n !in w.markers ==> w.claimedAt[n] + RETENTION < w.now))
  }

  ghost predicate Inv(env: Envelopes, w: World) {
    MarkersInv(env, w) && forall b | b in w.brokers :: BrokerInv(env, w, w.brokers[b])
  }

  /** The history only grows, so what a broker knows stays true. */
  lemma BrokerInvCarries(env: Envelopes, w: World, v: World, p: Broker)
    requires BrokerInv(env, w, p) && w.now <= v.now
    requires forall n | n in w.claimedAt :: n in v.claimedAt && v.claimedAt[n] == w.claimedAt[n]
    ensures BrokerInv(env, v, p)
  {}

  lemma InvStep(env: Envelopes, delay: real, w: World, s: Step)
    requires Inv(env, w) && Enabled(env, delay, w, s)
    requires delay <= MAX_APPROVAL_SECONDS + CLOCK_SKEW_SECONDS
    ensures Inv(env, Next(env, w, s))
  {
    var v := Next(env, w, s);
    if s.Claim? {
      InvClaim(env, delay, w, s.b);
    } else {
      MarkersInvStep(env, w, s);
    }
    if !s.Tick? && !s.Launch? {
      BrokerInvStep(env, w, s);
    }
    forall b | b in v.brokers ensures BrokerInv(env, v, v.brokers[b]) {
      if b in w.brokers && v.brokers[b] == w.brokers[b] {
        hide BrokerInv;
        BrokerInvCarries(env, w, v, w.brokers[b]);
      }
    }
  }

  lemma MarkersInvStep(env: Envelopes, w: World, s: Step)
    requires Inv(env, w) && Possible(env, w, s) && !s.Claim?
    ensures MarkersInv(env, Next(env, w, s)) && Next(env, w, s).claimedAt == w.claimedAt
  {
    if s.Unlink? {
      assert BrokerInv(env, w, w.brokers[s.b]);
    }
  }

  /** The broker that moves. */
  lemma BrokerInvStep(env: Envelopes, w: World, s: Step)
    requires Inv(env, w) && Possible(env, w, s) && !s.Tick? && !s.Launch?
    ensures var v := Next(env, w, s); BrokerInv(env, v, v.brokers[s.b])
  {
    assert BrokerInv(env, w, w.brokers[s.b]);
  }

  /** The claim is where the arithmetic meets: a pruned marker proves the claimant is too late. */
  lemma InvClaim(env: Envelopes, delay: real, w: World, b: nat)
    requires Inv(env, w) && Enabled(env, delay, w, Claim(b))
    requires delay <= MAX_APPROVAL_SECONDS + CLOCK_SKEW_SECONDS
    ensures var v := Next(env, w, Claim(b));
            MarkersInv(env, v) && forall n | n in w.claimedAt :: n in v.claimedAt && v.claimedAt[n] == w.claimedAt[n]
  {
    var p := w.brokers[b];
    assert BrokerInv(env, w, p);
    if p.nonce !in w.markers {
      FreshnessBoundsExpiry(env[p.nonce], p.checkedAt);
      assert p.nonce !in w.claimedAt;
    }
  }

  lemma {:induction false} InvRun(env: Envelopes, delay: real, ws: seq<World>, steps: seq<Step>, i: nat)
    requires IsRun(env, delay, ws, steps) && i < |ws|
    requires delay <= MAX_APPROVAL_SECONDS + CLOCK_SKEW_SECONDS
    ensures Inv(env, ws[i])
  {
    if i > 0 {
      InvRun(env, delay, ws, steps, i - 1);
      assert Follows(env, delay, ws[i - 1], steps[i - 1], ws[i]);
      InvStep(env, delay, ws[i - 1], steps[i - 1]);
    }
  }

  // ------------------------------------------------------------- main results

  /** Over every interleaving of any number of brokers, no approval is accepted twice while each
      broker claims within 185 seconds of its freshness check, although old markers are pruned. */
  lemma SingleUse(env: Envelopes, delay: real, ws: seq<World>, steps: seq<Step>)
    requires delay <= MAX_APPROVAL_SECONDS + CLOCK_SKEW_SECONDS
    requires IsRun(env, delay, ws, steps)
    ensures forall w | w in ws :: NoReplay(w)
  {
    forall w | w in ws ensures NoReplay(w) {
      var i :| 0 <= i < |ws| && ws[i] == w;
      InvRun(env, delay, ws, steps, i);
    }
  }

  lemma Extend(env: Envelopes, delay: real, ws: seq<World>, steps: seq<Step>, s: Step)
    returns (vs: seq<World>, more: seq<Step>)
    requires IsRun(env, delay, ws, steps) && Enabled(env, delay, ws[|steps|], s)
    ensures IsRun(env, delay, vs, more) && vs[|more|] == Next(env, ws[|steps|], s)
  {
    vs, more := ws + [Next(env, ws[|steps|], s)], steps + [s];
    forall i | 0 <= i < |more| ensures Follows(env, delay, vs[i], more[i], vs[i + 1]) {
      if i < |steps| {
        assert Follows(env, delay, ws[i], steps[i], ws[i + 1]);
      }
    }
  }

  /** A broker handles a fresh approval without delay. */
  lemma ClaimAtOnce(env: Envelopes, delay: real, nonce: string) returns (ws: seq<World>, steps: seq<Step>)
    requires nonce in env && WellFormedNonce(nonce) && Fresh(env[nonce], 0.0) && delay >= 0.0
    ensures IsRun(env, delay, ws, steps)
    ensures ws[|steps|] == World(0.0, map[nonce := 0.0], map[0 := Accepted(nonce)],
                                 multiset{nonce}, map[nonce := 0.0])
  {
    ws, steps := [Start(0.0)], [];
    ws, steps := Extend(env, delay, ws, steps, Launch(0, nonce));
    ws, steps := Extend(env, delay, ws, steps, CheckFresh(0));
    ws, steps := Extend(env, delay, ws, steps, StartSweep(0));
    ws, steps := Extend(env, delay, ws, steps, Claim(0));
  }

  /** The bound is tight. Broker 1 checks the approval at its last fresh moment, waits until its
      own sweep may remove broker 0's marker, and claims the approval a second time. */
  lemma ReplayBeyondTheBound(delay: real, nonce: string) returns (env: Envelopes, ws: seq<World>, steps: seq<Step>)
    requires delay > MAX_APPROVAL_SECONDS + CLOCK_SKEW_SECONDS && WellFormedNonce(nonce)
    ensures IsRun(env, delay, ws, steps) && ws[|steps|].accepted[nonce] == 2
  {
    env := map[nonce := Lifetime(5.0, 185.0)];
    ws, steps := ClaimAtOnce(env, delay, nonce);
    ws, steps := Extend(env, delay, ws, steps, Launch(1, nonce));
    ws, steps := Extend(env, delay, ws, steps, Tick(185.0));
    ws, steps := Extend(env, delay, ws, steps, CheckFresh(1));
    assert ws[|steps|].brokers[1] == Checked(nonce, 185.0);
    ws, steps := Extend(env, delay, ws, steps, Tick(delay));
    ws, steps := Extend(env, delay, ws, steps, StartSweep(1));
    ws, steps := Extend(env, delay, ws, steps, Look(1, nonce));
    ws, steps := Extend(env, delay, ws, steps, Unlink(1, true));
    ws, steps := Extend(env, delay, ws, steps, Claim(1));
  }

  /** Single use over every run holds for exactly the delays up to 185 seconds. */
  lemma SingleUseExactly(delay: real)
    ensures (forall env, ws, steps | IsRun(env, delay, ws, steps) :: forall w | w in ws :: NoReplay(w))
            <==> delay <= MAX_APPROVAL_SECONDS + CLOCK_SKEW_SECONDS
  {
    if delay <= MAX_APPROVAL_SECONDS + CLOCK_SKEW_SECONDS {
      forall env, ws, steps | IsRun(env, delay, ws, steps) ensures forall w | w in ws :: NoReplay(w) {
        SingleUse(env, delay, ws, steps);
      }
    } else {
      var env, ws, steps := ReplayBeyondTheBound(delay, "00000000000000000000000000000000");
      assert ws[|steps|] in ws;
    }
  }

  // ------------------------------------------------- the journal of one broker

  function Survivors(markers: map<string, real>, now: real, stuck: set<string>): map<string, real> {
    map n | n in markers && (markers[n] >= now - RETENTION || n in stuck) :: markers[n]
  }

  /** The marker folder as one broker sees it while no other runs. `stuck` are the markers whose
      removal fails; the sweep skips them. */
  class ConsumedApprovals {
    var markers: map<string, real>

    constructor ()
      ensures markers == map[]
    {
      markers := map[];
    }

    method Prune(now: real, stuck: set<string>)
      modifies this
      ensures markers == Survivors(old(markers), now, stuck)
    {
      var horizon := now - RETENTION;
      var todo := markers.Keys;
      while todo != {}
        invariant todo <= markers.Keys
        invariant forall n | n in markers :: n in old(markers) && markers[n] == old(markers)[n]
        invariant forall n | n in old(markers) && n !in todo ::
                    n in markers <==> old(markers)[n] >= horizon || n in stuck
      {
        var marker :| marker in todo;
        todo := todo - {marker};
        if markers[marker] < horizon && marker !in stuck {
          markers := markers - {marker};
        }
      }
    }

    /** The clock is read for the sweep and again, by the file system, for the new marker. */
    method Claim(nonce: string, sweptAt: real, createdAt: real, stuck: set<string>) returns (ok: bool)
      modifies this
      ensures !WellFormedNonce(nonce) ==> !ok && markers == old(markers)
      ensures WellFormedNonce(nonce) ==>
                var kept := Survivors(old(markers), sweptAt, stuck);
                ok == (nonce !in kept) && markers == if ok then kept[nonce := createdAt] else kept
    {
      if !WellFormedNonce(nonce) {
        return false;
      }
      Prune(sweptAt, stuck);
      if nonce in markers {
        return false;
      }
      markers := markers[nonce := createdAt];
      return true;
    }
  }

  /** The sweep of a broker that is not interrupted, as steps of the shared world. */
  lemma {:induction false} SweepSteps(env: Envelopes, delay: real, ws: seq<World>, steps: seq<Step>,
                                      b: nat, victims: set<string>)
    returns (vs: seq<World>, more: seq<Step>)
    requires IsRun(env, delay, ws, steps)
    requires b in ws[|steps|].brokers && ws[|steps|].brokers[b].Sweeping?
    requires victims <= ws[|steps|].markers.Keys
    requires forall n | n in victims :: ws[|steps|].markers[n] < ws[|steps|].brokers[b].horizon
    ensures IsRun(env, delay, vs, more)
    ensures vs[|more|] == ws[|steps|].(markers := ws[|steps|].markers - victims)
    decreases victims
  {
    vs, more := ws, steps;
    if victims == {} {
      assert ws[|steps|].markers - victims == ws[|steps|].markers;
    } else {
      var w := ws[|steps|];
      var n :| n in victims;
      vs, more := Extend(env, delay, vs, more, Look(b, n));
      vs, more := Extend(env, delay, vs, more, Unlink(b, true));
      assert w.brokers[b := w.brokers[b]] == w.brokers;
      assert vs[|more|] == w.(markers := w.markers - {n});
      vs, more := SweepSteps(env, delay, vs, more, b, victims - {n});
      assert w.markers - {n} - (victims - {n}) == w.markers - victims;
    }
  }

  /** What `ConsumedApprovals.Claim` does to the folder is one of the interleavings. */
  lemma ClaimIsARun(env: Envelopes, delay: real, ws: seq<World>, steps: seq<Step>, b: nat, stuck: set<string>)
    returns (vs: seq<World>, more: seq<Step>)
    requires IsRun(env, delay, ws, steps) && delay >= 0.0
    requires b in ws[|steps|].brokers && ws[|steps|].brokers[b].Checked?
    requires ws[|steps|].now <= ws[|steps|].brokers[b].checkedAt + delay
    ensures IsRun(env, delay, vs, more) && b in vs[|more|].brokers
    ensures var w := ws[|steps|]; var nonce := w.brokers[b].nonce;
            var kept := Survivors(w.markers, w.now, stuck);
            && vs[|more|].brokers[b] == (if nonce in kept then Refused(nonce) else Accepted(nonce))
            && vs[|more|].markers == if nonce in kept then kept else kept[nonce := w.now]
  {
    var w := ws[|steps|];
    var victims := set n | n in w.markers && w.markers[n] < w.now - RETENTION && n !in stuck;
    vs, more := Extend(env, delay, ws, steps, StartSweep(b));
    vs, more := SweepSteps(env, delay, vs, more, b, victims);
    assert vs[|more|].markers == Survivors(w.markers, w.now, stuck);
    vs, more := Extend(env, delay, vs, more, Claim(b));
  }

  // --------------------------------------------------------- the ordered checks

  datatype Value = Text(text: string) | Whole(i: int) | Flag(b: bool) | Decimal(r: real)
  datatype FieldType = StrType | IntType | BoolType | FloatType
  type Params = map<string, Value>

  /** SHA-256 and HMAC as injective constructors; whatever else a launcher sends is `Stray`. */
  datatype Digest = DigestOf(kind: string, params: Params) | StrayDigest(id: nat)
  datatype Mac = MacOf(key: nat, body: Body) | StrayMac(id: nat)

  datatype Body = Body(actionId: string, category: string, target: string, digest: Digest,
                       issuedAt: real, expiresAt: real, nonce: string)
  datatype Approval = Approval(body: Body, mac: Mac) | MalformedApproval
  datatype Action = Action(kind: string, params: Params) | MalformedAction

  datatype Outcome = Malformed | BadSignature | NotYetValid | Expired | TooLong | NotApproved | UnknownAction
                   | BadParameters | CodeTarget | ShellText | SecretRejected | Forbidden | AlreadyUsed
  datatype Check = Pass | Fail(outcome: Outcome)

  datatype ActionSpec = ActionSpec(category: string, fields: seq<(string, FieldType)>,
                                   target: Params -> string, validate: Params -> Check)

  /** What the broker was built with, the secret that came with the request, and what the outside
      world answers: the closed registry, the text scan, the secret store (which refuses where it
      raises), the action validator and the permission gate. */
  datatype Setting = Setting(key: nat, registry: map<string, ActionSpec>, scan: string -> Check,
                             secret: Option<string>, store: Option<string -> bool>,
                             validRequest: (string, string, string) -> bool,
                             gateRefuses: (string, string, string) -> bool)

  /** Whether there is a secret to compare and a store to compare it with. */
  predicate Guessable(setting: Setting) {
    setting.store.Some? && setting.secret.Some? && 0 < |setting.secret.value| <= MAX_SECRET_CHARS
  }

  predicate SecretAccepted(setting: Setting) {
    Guessable(setting) && setting.store.value(setting.secret.value)
  }

  /** The secret store as the broker uses it: every question is a counted guess. */
  class SecretCheck {
    var asked: seq<string>

    constructor ()
      ensures asked == []
    {
      asked := [];
    }

    method Ask(candidate: string, accepts: string -> bool) returns (ok: bool)
      modifies this
      ensures asked == old(asked) + [candidate] && ok == accepts(candidate)
    {
      asked := asked + [candidate];
      ok := accepts(candidate);
    }
  }

  predicate HasType(v: Value, t: FieldType) {
    match v
    case Text(_) => t.StrType?
    case Whole(_) => t.IntType? || t.FloatType?
    case Flag(_) => t.BoolType?
    case Decimal(_) => t.FloatType?
  }

  function CheckField(params: Params, name: string, t: FieldType, scan: string -> Check): Check
    requires name in params
  {
    if !HasType(params[name], t) then Fail(BadParameters)
    else if params[name].Text? then scan(params[name].text)
    else Pass
  }

  function CheckFields(params: Params, fields: seq<(string, FieldType)>, scan: string -> Check): Check
    requires forall f | f in fields :: f.0 in params
  {
    if fields == [] then Pass
    else
      var first := CheckField(params, fields[0].0, fields[0].1, scan);
      if first.Fail? then first else CheckFields(params, fields[1..], scan)
  }

  function FieldNames(fields: seq<(string, FieldType)>): set<string> {
    set f | f in fields :: f.0
  }

  function CheckAction(kind: string, params: Params, body: Body, setting: Setting): Check {
    if kind !in setting.registry then Fail(UnknownAction)
    else
      var spec := setting.registry[kind];
      if params.Keys != FieldNames(spec.fields) then Fail(BadParameters)
      else if CheckFields(params, spec.fields, setting.scan).Fail? then
        CheckFields(params, spec.fields, setting.scan)
      else if spec.validate(params).Fail? then spec.validate(params)
      else if body.category != spec.category || body.target != spec.target(params) then Fail(NotApproved)
      else Pass
  }

  /** Every check before the secret, in the order they are made. */
  function CheckBeforeSecret(action: Action, approval: Approval, setting: Setting, now: real): (check: Check)
    ensures check.Pass? ==> approval.Approval? && action.Action? && action.kind in setting.registry
  {
    if approval.MalformedApproval? || !WellFormedNonce(approval.body.nonce) then Fail(Malformed)
    else
      var body := approval.body;
      if approval.mac != MacOf(setting.key, body) then Fail(BadSignature)
      else if body.issuedAt > now + CLOCK_SKEW_SECONDS then Fail(NotYetValid)
      else if now > body.expiresAt then Fail(Expired)
      else if !(0.0 < body.expiresAt - body.issuedAt <= MAX_APPROVAL_SECONDS) then Fail(TooLong)
      else if action.MalformedAction? then Fail(Malformed)
      else if body.digest != DigestOf(action.kind, action.params) then Fail(NotApproved)
      else CheckAction(action.kind, action.params, body, setting)
  }

  /** The checks after the secret. */
  function CheckConsent(kind: string, params: Params, body: Body, setting: Setting): Check
    requires kind in setting.registry
  {
    var spec := setting.registry[kind];
    if !setting.validRequest(spec.category, spec.target(params), body.actionId) then Fail(Malformed)
    else if setting.gateRefuses(spec.category, spec.target(params), body.actionId) then Fail(Forbidden)
    else Pass
  }

  /** Every check before the claim, in the order they are made. */
  function CheckRequest(action: Action, approval: Approval, setting: Setting, now: real): Check {
    var before := CheckBeforeSecret(action, approval, setting, now);
    if before.Fail? then before
    else if !SecretAccepted(setting) then Fail(SecretRejected)
    else CheckConsent(action.kind, action.params, approval.body, setting)
  }

  method VerifyRequest(action: Action, approval: Approval, setting: Setting, guesses: SecretCheck,
                       consumed: ConsumedApprovals, now: real, sweptAt: real, createdAt: real, stuck: set<string>)
    returns (verdict: Check)
    modifies guesses, consumed
    // A request refused by any check leaves the folder alone, so its approval is not used up.
    ensures CheckRequest(action, approval, setting, now).Fail? ==>
              verdict == CheckRequest(action, approval, setting, now) && consumed.markers == old(consumed.markers)
    ensures CheckRequest(action, approval, setting, now).Pass? ==>
              var kept := Survivors(old(consumed.markers), sweptAt, stuck);
              && verdict == (if approval.body.nonce in kept then Fail(AlreadyUsed) else Pass)
              && consumed.markers == if verdict.Pass? then kept[approval.body.nonce := createdAt] else kept
    // A guess is counted exactly for an authentic, fresh and exact request that brings a secret.
    ensures guesses.asked == old(guesses.asked)
              + if ExactRequest(action, approval, setting, now) && setting.store.Some? && setting.secret.Some?
                   && 0 < |setting.secret.value| <= MAX_SECRET_CHARS
                then [setting.secret.value] else []
  {
    BeforeSecretIffExact(action, approval, setting, now);
    hide ExactRequest;
    verdict := CheckBeforeSecret(action, approval, setting, now);
    if verdict.Fail? {
      return;
    }
    var accepted := false;
    if Guessable(setting) {
      accepted := guesses.Ask(setting.secret.value, setting.store.value);
    }
    if !accepted {
      return Fail(SecretRejected);
    }
    verdict := CheckConsent(action.kind, action.params, approval.body, setting);
    if verdict.Pass? {
      var ok := consumed.Claim(approval.body.nonce, sweptAt, createdAt, stuck);
      if !ok {
        verdict := Fail(AlreadyUsed);
      }
    }
  }

  // ------------------------------------------------ what a passed check means

  /** Every parameter has its field's type, and no text names code or a shell. */
  ghost predicate ParamsFit(params: Params, fields: seq<(string, FieldType)>, scan: string -> Check) {
    && params.Keys == FieldNames(fields)
    && forall f | f in fields :: f.0 in params && HasType(params[f.0], f.1)
                                 && (params[f.0].Text? ==> scan(params[f.0].text).Pass?)
  }

  lemma {:induction false} FieldsPassIff(params: Params, fields: seq<(string, FieldType)>, scan: string -> Check)
    requires forall f | f in fields :: f.0 in params
    ensures CheckFields(params, fields, scan).Pass?
            <==> forall f | f in fields :: HasType(params[f.0], f.1)
                                           && (params[f.0].Text? ==> scan(params[f.0].text).Pass?)
  {
    if fields != [] {
      FieldsPassIff(params, fields[1..], scan);
      assert fields == [fields[0]] + fields[1..];
    }
  }

  /** Authentic, fresh, and for exactly this action as registered. */
  ghost predicate ExactRequest(action: Action, approval: Approval, setting: Setting, now: real) {
    && approval.Approval? && action.Action? && WellFormedNonce(approval.body.nonce)
    && approval.mac == MacOf(setting.key, approval.body)
    && Fresh(Lifetime(approval.body.issuedAt, approval.body.expiresAt), now)
    && approval.body.digest == DigestOf(action.kind, action.params)
    && action.kind in setting.registry
    && var spec := setting.registry[action.kind];
    && ParamsFit(action.params, spec.fields, setting.scan) && spec.validate(action.params).Pass?
    && approval.body.category == spec.category && approval.body.target == spec.target(action.params)
  }

  /** What each declared type accepts: a truth value is no number, and a whole number will do for a decimal. */
  lemma TypesAccept(v: Value)
    ensures (HasType(v, StrType) <==> v.Text?) && (HasType(v, IntType) <==> v.Whole?)
    ensures (HasType(v, BoolType) <==> v.Flag?) && (HasType(v, FloatType) <==> v.Whole? || v.Decimal?)
  {}

  /** The contract of the approval: an exact request, with the person's secret and the gate's consent. */
  ghost predicate ExactlyApproved(action: Action, approval: Approval, setting: Setting, now: real) {
    && ExactRequest(action, approval, setting, now) && SecretAccepted(setting)
    && var spec := setting.registry[action.kind];
    && setting.validRequest(spec.category, spec.target(action.params), approval.body.actionId)
    && !setting.gateRefuses(spec.category, spec.target(action.params), approval.body.actionId)
  }

  lemma BeforeSecretIffExact(action: Action, approval: Approval, setting: Setting, now: real)
    ensures CheckBeforeSecret(action, approval, setting, now).Pass? <==> ExactRequest(action, approval, setting, now)
  {
    if action.Action? && action.kind in setting.registry {
      var fields := setting.registry[action.kind].fields;
      if action.params.Keys == FieldNames(fields) {
        assert forall f | f in fields :: f.0 in FieldNames(fields);
        FieldsPassIff(action.params, fields, setting.scan);
      }
    }
  }

  lemma PassIffExactlyApproved(action: Action, approval: Approval, setting: Setting, now: real)
    ensures CheckRequest(action, approval, setting, now).Pass? <==> ExactlyApproved(action, approval, setting, now)
  {
    BeforeSecretIffExact(action, approval, setting, now);
  }

  /** One signature approves one action: requests that pass with the same MAC, at any times and in
      brokers of any settings, are for the same action with the same parameters and identity. */
  lemma OneSignatureOneAction(a1: Action, p1: Approval, s1: Setting, t1: real,
                              a2: Action, p2: Approval, s2: Setting, t2: real)
    requires CheckRequest(a1, p1, s1, t1).Pass? && CheckRequest(a2, p2, s2, t2).Pass?
    requires p1.mac == p2.mac
    ensures a1 == a2 && p1 == p2
  {
    PassIffExactlyApproved(a1, p1, s1, t1);
    PassIffExactlyApproved(a2, p2, s2, t2);
  }

  /** No answer of the secret store or the gate changes the outcome of any request that is not exact:
      whoever lacks an approval learns nothing about the secret. */
  lemma SecretAskedLast(action: Action, approval: Approval, s1: Setting, s2: Setting, now: real)
    requires s2.key == s1.key && s2.registry == s1.registry && s2.scan == s1.scan
    requires CheckRequest(action, approval, s1, now) != CheckRequest(action, approval, s2, now)
    ensures ExactRequest(action, approval, s1, now)
  {
    BeforeSecretIffExact(action, approval, s1, now);
  }
}
