/** The voice sidecar: single-flight startup, and the reservation that explains its load.

    Every `with self._lock` block is one step; threads of any kind (prewarm, speech, release, the
    idle timer) interleave at these steps, and the sidecar may die at any time. */
module ChatterboxRuntime {

  import opened Options

  datatype VoiceState = Unloaded | Starting | Ready | Speaking | HotIdle | Releasing | Failed

  /** States of one record of the resource ledger. */
  datatype Work = Admitted | Launching | Running | Resting | Evicting | Released | Broken

  predicate Live(w: Work) {
    w != Released && w != Broken
  }

  /** The fields guarded by the lock, with this runtime's part of the ledger. Identifiers handed out
      by the ledger are all below `nextId`. */
  datatype Runtime = Runtime(state: VoiceState, process: Option<nat>, reservation: Option<nat>, startupEvent: bool,
                             startupError: bool, ledger: map<nat, Work>, nextId: nat)

  const INITIAL := Runtime(Unloaded, None, None, true, false, map[], 0)

  predicate Resident(s: VoiceState) {
    s == Ready || s == Speaking || s == HotIdle
  }

  // ---------------------------------------------------------- the locked blocks

  predicate Holds(r: Runtime) {
    r.reservation.Some? && r.reservation.value in r.ledger && Live(r.ledger[r.reservation.value])
  }

  /** Every live reservation is the one named by the runtime. */
  ghost predicate Named(r: Runtime) {
    && (forall id | id in r.ledger && Live(r.ledger[id]) :: r.reservation == Some(id))
    && (forall id | id in r.ledger :: id < r.nextId)
  }

  predicate SameControl(r: Runtime, q: Runtime) {
    q.state == r.state && q.process == r.process && q.startupEvent == r.startupEvent
  }

  /** Writes `w` on the named reservation, unless it is finished. A name the ledger no longer knows is
      dropped. */
  function Update(r: Runtime, w: Work): (q: Runtime)
    ensures SameControl(r, q) && (Named(r) ==> Named(q))
    ensures Holds(q) <==> Holds(r) && Live(w)
  {
    if Holds(r) then r.(ledger := r.ledger[r.reservation.value := w])
    else if r.reservation.Some? && r.reservation.value !in r.ledger then r.(reservation := None)
    else r
  }

  /** Ends the named reservation, if it is still live, and forgets the name. */
  function Settle(r: Runtime, w: Work): (q: Runtime)
    requires !Live(w)
    ensures SameControl(r, q) && q.reservation.None?
    ensures Named(r) ==> Named(q) && forall id | id in q.ledger :: !Live(q.ledger[id])
  {
    (if Holds(r) then r.(ledger := r.ledger[r.reservation.value := w]) else r).(reservation := None)
  }

  /** A live reservation is kept; otherwise a new one is asked for, which the ledger refuses when the
      workload is reserved by someone else. */
  function Create(r: Runtime, refused: bool): (q: Runtime)
    ensures SameControl(r, q) && (Named(r) ==> Named(q))
    ensures Holds(q) <==> Holds(r) || !refused
  {
    if Holds(r) then r
    else if refused then r.(reservation := None)
    else r.(reservation := Some(r.nextId), ledger := r.ledger[r.nextId := Admitted], nextId := r.nextId + 1)
  }

  datatype Answer = AlreadyUp | Join | Start

  function Question(r: Runtime, alive: bool): Answer {
    if r.process.Some? && alive && Resident(r.state) then AlreadyUp
    else if r.state == Starting then Join
    else Start
  }

  /** The first block of `_ensure_running`. */
  function Ask(r: Runtime, alive: bool): Runtime {
    if Question(r, alive) != Start then r
    else
      var cleared := if r.process.Some? && !alive then Settle(r, Broken) else r;
      cleared.(process := None, state := Starting, startupError := false, startupEvent := false)
  }

  function Publish(r: Runtime, p: nat): Runtime {
    Update(r.(process := Some(p)), Launching)
  }

  function WarmedUp(r: Runtime): Runtime {
    Update(r.(state := Ready), Running).(startupError := false)
  }

  function LaunchFailed(r: Runtime): Runtime {
    Settle(r.(state := Failed), Broken)
  }

  /** The `except` block every failed startup ends with. */
  function Excuse(r: Runtime): Runtime {
    r.(startupError := true, state := if r.state == Starting then Failed else r.state)
  }

  function ReleaseFirst(r: Runtime): Runtime {
    Update(r.(process := None, state := Releasing), Evicting)
  }

  function ReleaseLast(r: Runtime, startupFailed: bool): Runtime {
    if startupFailed then Settle(r, Broken).(state := Failed)
    else Settle(r, Released).(state := Unloaded)
  }

  function PrewarmDone(r: Runtime): Runtime {
    Update(if r.state == Ready then r.(state := HotIdle) else r, Resting)
  }

  function SpeechFailed(r: Runtime, alive: bool): Runtime {
    if r.process.Some? && alive then Update(r.(state := Ready), Running)
    else Settle(r.(state := Failed), Broken)
  }

  /** The runtime object: each method is one locked block. */
  class Chatterbox {
    var state: VoiceState
    var process: Option<nat>
    var reservationId: Option<nat>
    var startupEvent: bool
    var startupError: bool
    var ledger: map<nat, Work>
    var nextId: nat

    ghost function Contents(): Runtime
      reads this
    {
      Runtime(state, process, reservationId, startupEvent, startupError, ledger, nextId)
    }

    constructor ()
      ensures Contents() == INITIAL
    {
      state, process, reservationId := Unloaded, None, None;
      startupEvent, startupError := true, false;
      ledger, nextId := map[], 0;
    }

    method CreateReservation(refused: bool) returns (ok: bool)
      modifies this
      ensures Contents() == Create(old(Contents()), refused)
      ensures ok == (Holds(old(Contents())) || !refused)
    {
      if reservationId.Some? {
        if reservationId.value in ledger && Live(ledger[reservationId.value]) {
          return true;
        }
        reservationId := None;
      }
      if refused {
        return false;
      }
      ledger := ledger[nextId := Admitted];
      reservationId := Some(nextId);
      nextId := nextId + 1;
      ok := true;
    }

    method UpdateReservationState(w: Work)
      modifies this`reservationId, this`ledger
      ensures Contents() == Update(old(Contents()), w)
    {
      if reservationId.None? {
        return;
      }
      if reservationId.value !in ledger {
        reservationId := None;
        return;
      }
      if !Live(ledger[reservationId.value]) {
        return;
      }
      ledger := ledger[reservationId.value := w];
    }

    /** `_release_reservation_locked` and `_fail_reservation_locked`. */
    method SettleReservation(w: Work)
      requires !Live(w)
      modifies this`reservationId, this`ledger
      ensures Contents() == Settle(old(Contents()), w)
    {
      var id := reservationId;
      reservationId := None;
      if id.None? || id.value !in ledger || !Live(ledger[id.value]) {
        return;
      }
      ledger := ledger[id.value := w];
    }

    method EnsureRunning(alive: bool) returns (answer: Answer)
      modifies this
      ensures answer == Question(old(Contents()), alive)
      ensures Contents() == Ask(old(Contents()), alive)
    {
      if process.Some? && alive && Resident(state) {
        return AlreadyUp;
      }
      if state == Starting {
        return Join;
      }
      if process.Some? && !alive {
        SettleReservation(Broken);
      }
      process := None;
      state := Starting;
      startupError := false;
      startupEvent := false;
      answer := Start;
    }

    method BeginRelease() returns (taken: Option<nat>)
      modifies this
      ensures taken == old(process)
      ensures Contents() == ReleaseFirst(old(Contents()))
    {
      taken := process;
      process := None;
      state := Releasing;
      if reservationId.Some? {
        UpdateReservationState(Evicting);
      }
    }

    method EndRelease(startupFailed: bool)
      modifies this
      ensures Contents() == ReleaseLast(old(Contents()), startupFailed)
    {
      if startupFailed {
        SettleReservation(Broken);
        state := Failed;
      } else {
        SettleReservation(Released);
        state := Unloaded;
      }
    }

    method RecordStartupFailure()
      modifies this
      ensures Contents() == Excuse(old(Contents()))
    {
      startupError := true;
      if state == Starting {
        state := Failed;
      }
    }

    method AfterSpeechFailure(alive: bool)
      modifies this
      ensures Contents() == SpeechFailed(old(Contents()), alive)
    {
      if process.Some? && alive {
        state := Ready;
        UpdateReservationState(Running);
      } else {
        state := Failed;
        SettleReservation(Broken);
      }
    }
  }

  // -------------------------------------------------------------- interleavings

  datatype Caller = Prewarm | Speak

  /** Where a thread stands: the next locked block it will run. */
  datatype Pc =
    | Idle
    | Joining(k: Caller)            // waits for the startup event
    | Rejoined(k: Caller)
    | Checking(k: Caller)           // has claimed the startup; health and admission checks
    | Reserved(k: Caller)
    | Warming(k: Caller)
    | Failing(k: Caller)            // failed while the state still says Starting
    | Spent(k: Caller)              // failed, and has already written its failure
    | Setting(k: Caller, ok: bool)  // about to set the event
    | Leaving(startup: Option<Caller>)   // before the first block of _release
    | Left(startup: Option<Caller>)      // between its two blocks
    | Prewarmed
    | Loaded                        // about to write Speaking
    | Requesting

  datatype World = World(rt: Runtime, pcs: map<nat, Pc>, speaker: Option<nat>, dead: set<nat>, nextPid: nat)

  const START := World(INITIAL, map[], None, {}, 0)

  function At(w: World, t: nat): Pc {
    if t in w.pcs then w.pcs[t] else Idle
  }

  predicate Alive(w: World) {
    w.rt.process.Some? && w.rt.process.value !in w.dead
  }

  /** A thread's local work after a block is part of the step that ends it; a sidecar launched and not
      yet published is known to its launcher alone. */
  datatype Step =
    | AskStep(t: nat, k: Caller)    // a call arrives; a speaker takes the speech lock
    | Wake(t: nat)
    | TimeOut(t: nat)
    | Recheck(t: nat)
    | Refuse(t: nat)                // health or admission says no
    | Reserve(t: nat, refused: bool)
    | NoPort(t: nat)                // fails before the launch is tried
    | LaunchFail(t: nat)
    | PublishStep(t: nat)
    | WarmUp(t: nat, ok: bool)
    | ExcuseStep(t: nat)
    | SetEvent(t: nat)
    | IdleTimer(t: nat, expired: bool)
    | First(t: nat)                 // of a caller of release, or of a thread on its way there
    | Last(t: nat)
    | PrewarmStep(t: nat)
    | SpeakStart(t: nat)
    | SpeakDone(t: nat)
    | SpeakFail(t: nat)
    | WriteFail(t: nat)             // the audio cannot be written; no block runs
    | Die(p: nat)
    | Purge                         // the ledger drops finished records

  function After(k: Caller): Pc {
    if k == Speak then Loaded else Prewarmed
  }

  predicate Enabled(w: World, s: Step) {
    match s
    case AskStep(t, k) => At(w, t) == Idle && (k == Speak ==> w.speaker.None?)
    case Wake(t) => At(w, t).Joining? && w.rt.startupEvent
    case TimeOut(t) => At(w, t).Joining?
    case Recheck(t) => At(w, t).Rejoined?
    case Refuse(t) => At(w, t).Checking?
    case Reserve(t, _) => At(w, t).Checking?
    case NoPort(t) => At(w, t).Reserved?
    case LaunchFail(t) => At(w, t).Reserved?
    case PublishStep(t) => At(w, t).Reserved?
    case WarmUp(t, ok) => At(w, t).Warming?
    case ExcuseStep(t) => At(w, t).Failing? || At(w, t).Spent?
    case SetEvent(t) => At(w, t).Setting?
    case IdleTimer(t, _) => At(w, t) == Idle
    case First(t) => At(w, t) == Idle || At(w, t).Leaving?
    case Last(t) => At(w, t).Left?
    case PrewarmStep(t) => At(w, t).Prewarmed?
    case SpeakStart(t) => At(w, t).Loaded?
    case SpeakDone(t) => At(w, t).Requesting?
    case SpeakFail(t) => At(w, t).Requesting?
    case WriteFail(t) => At(w, t).Requesting?
    case Die(p) => p < w.nextPid
    case Purge => true
  }

  /** What the step does under the lock. */
  function Block(w: World, s: Step): Runtime
    requires Enabled(w, s)
  {
    match s
    case AskStep(_, _) => Ask(w.rt, Alive(w))
    case Reserve(_, refused) => Create(w.rt, refused)
    case LaunchFail(_) => LaunchFailed(w.rt)
    case PublishStep(_) => Publish(w.rt, w.nextPid)
    case WarmUp(_, ok) => if ok then WarmedUp(w.rt) else w.rt.(state := Failed)
    case ExcuseStep(_) => Excuse(w.rt)
    case SetEvent(_) => w.rt.(startupEvent := true)
    case First(_) => ReleaseFirst(w.rt)
    case Last(t) => ReleaseLast(w.rt, At(w, t).startup.Some?)
    case PrewarmStep(_) => PrewarmDone(w.rt)
    case SpeakStart(_) => Update(w.rt.(state := Speaking), Running)
    case SpeakDone(_) => Update(w.rt.(state := HotIdle), Resting)
    case SpeakFail(_) => SpeechFailed(w.rt, Alive(w))
    case Purge => w.rt.(ledger := map id | id in w.rt.ledger && Live(w.rt.ledger[id]) :: w.rt.ledger[id])
    case _ => w.rt
  }

  /** Where the step leaves its thread. */
  function Place(w: World, s: Step): Pc
    requires Enabled(w, s) && !s.Die? && !s.Purge?
  {
    match s
    case AskStep(_, k) =>
      if Question(w.rt, Alive(w)) == Start then Checking(k)
      else if Question(w.rt, Alive(w)) == Join then Joining(k)
      else After(k)
    case Wake(t) => Rejoined(At(w, t).k)
    case Recheck(t) => if Alive(w) && Resident(w.rt.state) then After(At(w, t).k) else Idle
    case Refuse(t) => Failing(At(w, t).k)
    case Reserve(t, refused) => if !refused || Holds(w.rt) then Reserved(At(w, t).k) else Failing(At(w, t).k)
    case NoPort(t) => Failing(At(w, t).k)
    case LaunchFail(t) => Spent(At(w, t).k)
    case PublishStep(t) => Warming(At(w, t).k)
    case WarmUp(t, ok) => if ok then Setting(At(w, t).k, true) else Leaving(Some(At(w, t).k))
    case ExcuseStep(t) => Setting(At(w, t).k, false)
    case SetEvent(t) => if At(w, t).ok then After(At(w, t).k) else Idle
    case IdleTimer(_, expired) => if w.rt.state == HotIdle && expired then Leaving(None) else Idle
    case First(t) => Left(if At(w, t).Leaving? then At(w, t).startup else None)
    case Last(t) => if At(w, t).startup.Some? then Spent(At(w, t).startup.value) else Idle
    case SpeakStart(_) => Requesting
    case _ => Idle
  }

  /** A speaker takes the speech lock when its call arrives and frees it when the call ends. */
  function Next(w: World, s: Step): World
    requires Enabled(w, s)
  {
    if s.Die? || s.Purge? then
      w.(rt := Block(w, s), dead := if s.Die? then w.dead + {s.p} else w.dead)
    else
      var speaker := if s.AskStep? && s.k == Speak then Some(s.t)
                     else if Place(w, s) == Idle && w.speaker == Some(s.t) then None
                     else w.speaker;
      World(Block(w, s), w.pcs[s.t := Place(w, s)], speaker, w.dead,
            if s.PublishStep? then w.nextPid + 1 else w.nextPid)
  }

  // --------------------------------------------------------------------- runs

  /** Which overlaps a run rules out. */
  datatype Rules = Rules(releasesApart: bool, speechApart: bool, claimsWait: bool)

  ghost predicate MidRelease(w: World) {
    exists t :: At(w, t).Left?
  }

  /** A startup that has written its outcome and not yet set the event. */
  predicate Finishing(pc: Pc) {
    pc.Spent? || pc.Setting? || ((pc.Leaving? || pc.Left?) && pc.startup.Some?)
  }

  ghost predicate Unfinished(w: World) {
    exists t :: Finishing(At(w, t))
  }

  predicate Claims(w: World, s: Step) {
    s.AskStep? && Question(w.rt, Alive(w)) == Start
  }

  /** `releasesApart`: no release overlaps a startup. `speechApart`: no block of a speech request
      runs during a startup. `claimsWait`: none is claimed before the last one has set its event. */
  ghost predicate Allowed(rules: Rules, w: World, s: Step) {
    && (rules.releasesApart ==> !(s.First? && w.rt.state == Starting) && !(Claims(w, s) && MidRelease(w)))
    && (rules.speechApart ==> !((s.SpeakStart? || s.SpeakDone? || s.SpeakFail?) && w.rt.state == Starting))
    && (rules.claimsWait ==> !(Claims(w, s) && Unfinished(w)))
  }

  ghost predicate Follows(rules: Rules, w: World, s: Step, v: World) {
    Enabled(w, s) && Allowed(rules, w, s) && v == Next(w, s)
  }

  ghost predicate IsRun(rules: Rules, ws: seq<World>, steps: seq<Step>) {
    && |ws| == |steps| + 1 && ws[0] == START
    && forall i | 0 <= i < |steps| :: Follows(rules, ws[i], steps[i], ws[i + 1])
  }

  // --------------------------------------------- the reservation has a name

  lemma NamedStep(w: World, s: Step)
    requires Named(w.rt) && Enabled(w, s)
    ensures Named(Next(w, s).rt)
  {
    hide Update, Settle, Create, Holds, Place, At;
  }

  /** However threads overlap, no live reservation loses its name: at every moment the only one that can
      be live is the named one. */
  lemma {:induction false} LiveReservationIsNamed(rules: Rules, ws: seq<World>, steps: seq<Step>, i: nat)
    requires IsRun(rules, ws, steps) && i < |ws|
    ensures Named(ws[i].rt)
  {
    if i > 0 {
      LiveReservationIsNamed(rules, ws, steps, i - 1);
      assert Follows(rules, ws[i - 1], steps[i - 1], ws[i]);
      NamedStep(ws[i - 1], steps[i - 1]);
    }
  }

  /** So a finished release leaves nothing reserved at all. */
  lemma NothingHeldAfterRelease(rules: Rules, ws: seq<World>, steps: seq<Step>, i: nat)
    requires IsRun(rules, ws, steps) && i < |steps| && (steps[i].Last? || steps[i].LaunchFail?)
    ensures var after := ws[i + 1].rt.ledger; forall id | id in after :: !Live(after[id])
  {
    LiveReservationIsNamed(rules, ws, steps, i);
    assert Follows(rules, ws[i], steps[i], ws[i + 1]);
  }

  // ------------------------------------------------- who may use the sidecar

  predicate Served(pc: Pc) {
    pc.Prewarmed? || pc.Loaded?
  }

  /** A call goes on to use the sidecar exactly if it found it alive and resident, when it came or after it
      had waited for the startup of another, or if its own startup succeeded. */
  lemma ServedExactly(w: World, s: Step, t: nat)
    requires Enabled(w, s) && !Served(At(w, t))
    ensures Served(At(Next(w, s), t)) <==>
              && Moves(s, t)
              && (((s.AskStep? || s.Recheck?) && Alive(w) && Resident(w.rt.state)) || (s.SetEvent? && At(w, t).ok))
  {
    hide Update, Settle, Create, Holds;
  }

  /** A call that comes during a startup waits for its event, and starts nothing itself. */
  lemma JoinersWait(w: World, s: Step, t: nat)
    requires Enabled(w, s) && Moves(s, t)
    ensures s.AskStep? && w.rt.state == Starting ==> At(Next(w, s), t) == Joining(s.k) && Next(w, s).rt == w.rt
    ensures At(w, t).Joining? ==>
              && Next(w, s).rt == w.rt
              && At(Next(w, s), t) == if s.Wake? then Rejoined(At(w, t).k) else Idle
    ensures s.Wake? ==> w.rt.startupEvent
    ensures s.Recheck? && !(Alive(w) && Resident(w.rt.state)) ==> At(Next(w, s), t) == Idle
  {
    hide Update, Settle, Create, Holds;
  }

  // ------------------------------------------------- one startup at a time

  /** Between a thread's claim of the startup and its last write of the outcome. */
  predicate Active(pc: Pc) {
    pc.Checking? || pc.Reserved? || pc.Warming? || pc.Failing?
  }

  /** Between a thread's claim of the startup and its setting the event. */
  predicate InFlight(pc: Pc) {
    Active(pc) || Finishing(pc)
  }

  /** The state says Starting exactly while one thread starts the sidecar, and never do two. */
  ghost predicate SingleFlight(w: World) {
    && (forall t, u :: Active(At(w, t)) && Active(At(w, u)) ==> t == u)
    && (w.rt.state == Starting <==> exists t :: Active(At(w, t)))
  }

  /** The event is set exactly when no startup is in flight. */
  ghost predicate EventHonest(w: World) {
    w.rt.startupEvent <==> forall t :: !InFlight(At(w, t))
  }

  /** A loaded runtime holds a live reservation. */
  ghost predicate LoadIsReserved(w: World) {
    Alive(w) && Resident(w.rt.state) ==> Holds(w.rt)
  }

  const CALM := Rules(true, true, true)

  ghost predicate OneInFlight(w: World) {
    forall t, u :: InFlight(At(w, t)) && InFlight(At(w, u)) ==> t == u
  }

  /** What the thread's place says about the runtime. */
  ghost predicate PlaceInv(rt: Runtime, pc: Pc) {
    && (Active(pc) ==> rt.state == Starting)
    && (pc.Checking? || pc.Reserved? || pc.Failing? ==> rt.process.None?)
    && (pc.Reserved? || pc.Warming? ==> Holds(rt))
    && (pc.Left? ==> rt.process.None? && rt.state != Starting)
  }

  ghost predicate Inv(w: World) {
    && Named(w.rt)
    && OneInFlight(w)
    && (w.rt.state == Starting ==> exists t :: Active(At(w, t)))
    && EventHonest(w)
    && (Alive(w) ==> Holds(w.rt))
    && (forall t :: PlaceInv(w.rt, At(w, t)))
  }

  predicate Moves(s: Step, t: nat) {
    !s.Die? && !s.Purge? && s.t == t
  }

  lemma OthersStay(w: World, s: Step, u: nat)
    requires Enabled(w, s) && !Moves(s, u)
    ensures At(Next(w, s), u) == At(w, u)
  {
    hide Block, Place;
  }

  /** A thread enters a startup only by claiming it, and its claim waits until no other is in flight. */
  lemma FlightStep(w: World, s: Step, t: nat)
    requires Inv(w) && Enabled(w, s) && Allowed(CALM, w, s)
    requires InFlight(At(Next(w, s), t)) && !InFlight(At(w, t))
    ensures Claims(w, s) && forall u :: !InFlight(At(w, u))
  {
    hide Update, Settle, Create, Holds;
    if !Moves(s, t) {
      OthersStay(w, s, t);
    }
    assert Claims(w, s);
    forall u ensures !InFlight(At(w, u)) {
      assert PlaceInv(w.rt, At(w, u));
    }
  }

  lemma OneInFlightStep(w: World, s: Step)
    requires Inv(w) && Enabled(w, s) && Allowed(CALM, w, s)
    ensures OneInFlight(Next(w, s))
  {
    hide Next, Enabled, Allowed, InFlight;
    forall t, u | InFlight(At(Next(w, s), t)) && InFlight(At(Next(w, s), u)) ensures t == u {
      if !InFlight(At(w, t)) {
        NewFlightIsAlone(w, s, t, u);
      } else if !InFlight(At(w, u)) {
        NewFlightIsAlone(w, s, u, t);
      }
    }
  }

  lemma NewFlightIsAlone(w: World, s: Step, t: nat, u: nat)
    requires Inv(w) && Enabled(w, s) && Allowed(CALM, w, s)
    requires InFlight(At(Next(w, s), t)) && !InFlight(At(w, t)) && InFlight(At(Next(w, s), u))
    ensures t == u
  {
    hide Next, Enabled, Allowed, InFlight;
    FlightStep(w, s, t);
    if !Moves(s, t) {
      OthersStay(w, s, t);
    }
    if !Moves(s, u) {
      OthersStay(w, s, u);
    }
  }

  /** While a startup is active, nobody else touches the state, the process or the event. */
  lemma ActiveUndisturbed(w: World, s: Step, u: nat)
    requires Inv(w) && Enabled(w, s) && Allowed(CALM, w, s) && Active(At(w, u)) && !Moves(s, u)
    ensures SameControl(w.rt, Next(w, s).rt) && (Holds(w.rt) ==> Holds(Next(w, s).rt))
  {
    hide Update, Settle, Create, At;
    assert PlaceInv(w.rt, At(w, u));
    if !s.Die? && !s.Purge? {
      assert PlaceInv(w.rt, At(w, s.t)) && !InFlight(At(w, s.t));
    }
  }

  lemma PlaceStep(w: World, s: Step, u: nat)
    requires Inv(w) && Enabled(w, s) && Allowed(CALM, w, s)
    ensures PlaceInv(Next(w, s).rt, At(Next(w, s), u))
  {
    hide Update, Settle, Create, Holds;
    assert PlaceInv(w.rt, At(w, u));
    if Moves(s, u) {
      OwnPlaceStep(w, s, u);
    } else {
      OthersStay(w, s, u);
      if Active(At(w, u)) {
        ActiveUndisturbed(w, s, u);
      } else if At(w, u).Left? {
        LeftUndisturbed(w, s, u);
      }
    }
  }

  lemma OwnPlaceStep(w: World, s: Step, u: nat)
    requires Inv(w) && Enabled(w, s) && Allowed(CALM, w, s) && Moves(s, u)
    ensures PlaceInv(Next(w, s).rt, At(Next(w, s), u))
  {
    hide Update, Settle, Create;
    assert PlaceInv(w.rt, At(w, u));
  }

  lemma LeftUndisturbed(w: World, s: Step, u: nat)
    requires Inv(w) && Enabled(w, s) && Allowed(CALM, w, s) && At(w, u).Left? && !Moves(s, u)
    ensures Next(w, s).rt.process.None? && Next(w, s).rt.state != Starting
  {
    hide Update, Settle, Create, Holds;
    assert PlaceInv(w.rt, At(w, u));
    if !s.Die? && !s.Purge? {
      assert PlaceInv(w.rt, At(w, s.t));
    }
  }

  lemma StartupGoesOn(w: World, s: Step, t: nat)
    requires Enabled(w, s) && Moves(s, t) && Active(At(w, t))
    requires w.rt.state == Starting && Next(w, s).rt.state == Starting
    ensures Active(At(Next(w, s), t))
  {
    hide Update, Settle, Create, Holds;
  }

  lemma OnlyClaimsStart(w: World, s: Step)
    requires Enabled(w, s) && w.rt.state != Starting && Next(w, s).rt.state == Starting
    ensures Claims(w, s) && Active(At(Next(w, s), s.t))
  {
    hide Update, Settle, Create, Holds;
  }

  /** The state turns to Starting only with a claim, and leaves it only with the claimant. */
  lemma StartingStep(w: World, s: Step)
    requires Inv(w) && Enabled(w, s) && Next(w, s).rt.state == Starting
    ensures exists t :: Active(At(Next(w, s), t))
  {
    hide Next, Enabled, Active, At;
    if w.rt.state == Starting {
      var t :| Active(At(w, t));
      if Moves(s, t) {
        StartupGoesOn(w, s, t);
      } else {
        OthersStay(w, s, t);
      }
    } else {
      OnlyClaimsStart(w, s);
      assert Active(At(Next(w, s), s.t));
    }
  }

  lemma EventChanges(w: World, s: Step)
    requires Enabled(w, s)
    ensures Next(w, s).rt.startupEvent == (s.SetEvent? || (!Claims(w, s) && w.rt.startupEvent))
  {
    hide Update, Settle, Create, Holds;
  }

  lemma EventStep(w: World, s: Step)
    requires Inv(w) && Enabled(w, s) && Allowed(CALM, w, s)
    ensures EventHonest(Next(w, s))
  {
    hide Update, Settle, Create, Holds, Next, Enabled, Allowed, Claims;
    var v := Next(w, s);
    EventChanges(w, s);
    if v.rt.startupEvent {
      forall t ensures !InFlight(At(v, t)) {
        if InFlight(At(v, t)) {
          NotSet(w, s, t);
        }
      }
    } else {
      StillInFlight(w, s);
    }
  }

  lemma NotSet(w: World, s: Step, t: nat)
    requires Inv(w) && Enabled(w, s) && Allowed(CALM, w, s) && InFlight(At(Next(w, s), t))
    ensures !s.SetEvent? && (Claims(w, s) || InFlight(At(w, t)))
  {
    hide Update, Settle, Create, Holds, Allowed, Claims;
    if !InFlight(At(w, t)) {
      FlightStep(w, s, t);
    } else if !Moves(s, t) {
      OthersStay(w, s, t);
    }
  }

  lemma FlightEndsAtEvent(w: World, s: Step, t: nat)
    requires Enabled(w, s) && InFlight(At(w, t)) && !s.SetEvent?
    ensures InFlight(At(Next(w, s), t))
  {
    hide Update, Settle, Create, Holds;
    if !Moves(s, t) {
      OthersStay(w, s, t);
    }
  }

  lemma StillInFlight(w: World, s: Step)
    requires Inv(w) && Enabled(w, s) && !s.SetEvent? && (Claims(w, s) || !w.rt.startupEvent)
    ensures exists t :: InFlight(At(Next(w, s), t))
  {
    hide Update, Settle, Create, Holds;
    if Claims(w, s) {
      assert InFlight(At(Next(w, s), s.t));
    } else {
      hide Next, InFlight;
      var t :| InFlight(At(w, t));
      FlightEndsAtEvent(w, s, t);
    }
  }

  lemma AliveOnlyByPublish(w: World, s: Step)
    requires Enabled(w, s) && !s.PublishStep? && Alive(Next(w, s))
    ensures Alive(w)
  {
    hide Update, Settle, Create, Holds;
  }

  /** The blocks that end a reservation. */
  predicate Ends(w: World, s: Step) {
    s.Last? || s.LaunchFail? || (s.SpeakFail? && !Alive(w)) || (Claims(w, s) && w.rt.process.Some? && !Alive(w))
  }

  lemma HoldsUntilEnded(w: World, s: Step)
    requires Enabled(w, s) && Holds(w.rt) && !Ends(w, s)
    ensures Holds(Next(w, s).rt)
  {
    hide Update, Settle, Create;
  }

  lemma LoadStep(w: World, s: Step)
    requires Inv(w) && Enabled(w, s) && Allowed(CALM, w, s) && Alive(Next(w, s))
    ensures Holds(Next(w, s).rt)
  {
    hide Update, Settle, Create, Holds, Next, Block, Place, Allowed;
    if s.PublishStep? || s.Last? || s.LaunchFail? {
      assert PlaceInv(w.rt, At(w, s.t));
    }
    if !s.PublishStep? {
      AliveOnlyByPublish(w, s);
      assert !Ends(w, s);
    }
    HoldsUntilEnded(w, s);
  }

  lemma InvStep(w: World, s: Step)
    requires Inv(w) && Enabled(w, s) && Allowed(CALM, w, s)
    ensures Inv(Next(w, s))
  {
    hide Next, Enabled, Allowed, EventHonest, OneInFlight, Active, Alive, Holds, PlaceInv, Named;
    var v := Next(w, s);
    NamedStep(w, s);
    OneInFlightStep(w, s);
    EventStep(w, s);
    if v.rt.state == Starting {
      StartingStep(w, s);
    }
    if Alive(v) {
      LoadStep(w, s);
    }
    forall t ensures PlaceInv(v.rt, At(v, t)) {
      PlaceStep(w, s, t);
    }
  }

  lemma {:induction false} InvRun(ws: seq<World>, steps: seq<Step>, i: nat)
    requires IsRun(CALM, ws, steps) && i < |ws|
    ensures Inv(ws[i])
  {
    hide Next, Enabled, Allowed;
    if i > 0 {
      InvRun(ws, steps, i - 1);
      assert Follows(CALM, ws[i - 1], steps[i - 1], ws[i]);
      InvStep(ws[i - 1], steps[i - 1]);
    }
  }

  // -------------------------------------------- what a failed startup leaves reserved

  /** A reservation is in somebody's hands: on its way to a launch, or to its release. */
  predicate InHand(pc: Pc) {
    pc.Reserved? || pc.Left?
  }

  /** A live sidecar is resident or starting, or its failed startup is about to be released. */
  ghost predicate LiveIsInUse(w: World) {
    Alive(w) && !Resident(w.rt.state) ==>
      w.rt.state == Starting || exists t :: At(w, t).Leaving? && At(w, t).startup.Some?
  }

  lemma LiveIsInUseStep(w: World, s: Step)
    requires Inv(w) && LiveIsInUse(w) && Enabled(w, s) && Allowed(CALM, w, s)
    ensures LiveIsInUse(Next(w, s))
  {
    hide Next, Enabled, Allowed;
    var v := Next(w, s);
    if Alive(v) && !Resident(v.rt.state) && v.rt.state != Starting {
      if WroteFailure(w, s) {
        assert At(v, s.t).Leaving? && At(v, s.t).startup.Some?;
      } else {
        NotResidentBefore(w, s);
        var t :| At(w, t).Leaving? && At(w, t).startup.Some?;
        if Moves(s, t) {
          LeavingReleases(w, s, t);
        } else {
          OthersStay(w, s, t);
        }
        assert At(v, t).Leaving? && At(v, t).startup.Some?;
      }
    }
  }

  /** The sidecar came up but cannot speak. */
  ghost predicate WroteFailure(w: World, s: Step)
    requires Enabled(w, s)
    ensures WroteFailure(w, s) ==> s.WarmUp? && At(Next(w, s), s.t).Leaving? && At(Next(w, s), s.t).startup.Some?
  {
    s.WarmUp? && !s.ok
  }

  lemma NotResidentBefore(w: World, s: Step)
    requires Inv(w) && Enabled(w, s) && Allowed(CALM, w, s) && !(s.WarmUp? && !s.ok)
    requires Alive(Next(w, s)) && !Resident(Next(w, s).rt.state) && Next(w, s).rt.state != Starting
    ensures Alive(w) && !Resident(w.rt.state) && w.rt.state != Starting
  {
    hide Update, Settle, Create, Holds;
    if !s.Die? && !s.Purge? {
      assert PlaceInv(w.rt, At(w, s.t));
    }
    if s.ExcuseStep? && w.rt.state == Starting {
      NoneFinishing(w, s.t);
    }
  }

  lemma NoneFinishing(w: World, t: nat)
    requires Inv(w) && w.rt.state == Starting
    ensures !Finishing(At(w, t))
  {
    var u :| Active(At(w, u));
  }

  lemma LiveIsUnfinished(w: World)
    requires LiveIsInUse(w) && Alive(w) && !Resident(w.rt.state) && w.rt.state != Starting
    ensures Unfinished(w)
  {
    var t :| At(w, t).Leaving? && At(w, t).startup.Some?;
    assert Finishing(At(w, t));
  }

  lemma LeavingReleases(w: World, s: Step, t: nat)
    requires Enabled(w, s) && Moves(s, t) && At(w, t).Leaving?
    ensures !Alive(Next(w, s))
  {
    hide Update, Settle, Create, Holds;
  }

  lemma EndedIsNotHeld(w: World, s: Step)
    requires Enabled(w, s) && Ends(w, s)
    ensures !Holds(Next(w, s).rt)
  {
    hide Update, Create;
  }

  /** Without a process the runtime holds a reservation only in somebody's hands. */
  ghost predicate HeldInHand(w: World) {
    Holds(w.rt) && w.rt.process.None? ==> exists t :: InHand(At(w, t))
  }

  lemma HeldInHandStep(w: World, s: Step)
    requires Inv(w) && LiveIsInUse(w) && HeldInHand(w) && Enabled(w, s) && Allowed(CALM, w, s) && !s.NoPort?
    ensures HeldInHand(Next(w, s))
  {
    hide Next, Enabled, Allowed, Holds;
    var v := Next(w, s);
    if Ends(w, s) {
      EndedIsNotHeld(w, s);
    } else if Holds(v.rt) && v.rt.process.None? {
      if Holds(w.rt) && w.rt.process.None? {
        var t :| InHand(At(w, t));
        if Moves(s, t) {
          HandsPassOn(w, s, t);
        } else {
          OthersStay(w, s, t);
        }
      } else if s.First? || s.Reserve? {
        TakenInHand(w, s);
      } else {
        ProcessKept(w, s);
      }
    }
  }

  lemma HandsPassOn(w: World, s: Step, t: nat)
    requires Enabled(w, s) && Moves(s, t) && InHand(At(w, t)) && !s.NoPort? && !Ends(w, s)
    ensures Next(w, s).rt.process.Some?
  {
    hide Settle, Create, Holds;
  }

  lemma TakenInHand(w: World, s: Step)
    requires Enabled(w, s) && (s.First? || s.Reserve?) && (s.Reserve? ==> Holds(Next(w, s).rt))
    ensures InHand(At(Next(w, s), s.t))
  {
    hide Update, Settle;
  }

  lemma ProcessKept(w: World, s: Step)
    requires Inv(w) && LiveIsInUse(w) && Enabled(w, s) && Allowed(CALM, w, s) && !Ends(w, s) && !s.First? && !s.Reserve?
    requires Holds(w.rt) ==> w.rt.process.Some?
    ensures Holds(Next(w, s).rt) ==> Next(w, s).rt.process.Some?
  {
    hide Settle, Create, Unfinished, LiveIsInUse;
    if Alive(w) && !Resident(w.rt.state) && w.rt.state != Starting {
      LiveIsUnfinished(w);
    }
  }

  /** Since the reservation last ended, a startup has failed between reserving and launching: at the
      choice of the port or of the environment, where no handler ends the reservation. */
  ghost predicate Leaked(ws: seq<World>, steps: seq<Step>, i: nat)
    requires i <= |steps| < |ws|
  {
    exists k | 0 <= k < i :: steps[k].NoPort? && forall l | k < l < i :: !Ends(ws[l], steps[l])
  }

  lemma {:induction false} LeakOrHand(ws: seq<World>, steps: seq<Step>, i: nat)
    requires IsRun(CALM, ws, steps) && i < |ws|
    ensures LiveIsInUse(ws[i]) && (Leaked(ws, steps, i) || HeldInHand(ws[i]))
  {
    hide Next, Enabled, Allowed, Ends, Holds, HeldInHand, LiveIsInUse;
    if i == 0 {
      NothingAtStart();
    } else {
      LeakOrHand(ws, steps, i - 1);
      InvRun(ws, steps, i - 1);
      assert Follows(CALM, ws[i - 1], steps[i - 1], ws[i]);
      LiveIsInUseStep(ws[i - 1], steps[i - 1]);
      if Ends(ws[i - 1], steps[i - 1]) {
        EndedIsNotHeld(ws[i - 1], steps[i - 1]);
        assert HeldInHand(ws[i]) by { NotHeldNotInHand(ws[i]); }
      } else if steps[i - 1].NoPort? {
        assert Leaked(ws, steps, i);
      } else if Leaked(ws, steps, i - 1) {
        assert Leaked(ws, steps, i);
      } else {
        HeldInHandStep(ws[i - 1], steps[i - 1]);
      }
    }
  }

  lemma NothingAtStart()
    ensures LiveIsInUse(START) && HeldInHand(START)
  {
  }

  lemma NotHeldNotInHand(w: World)
    requires !Holds(w.rt)
    ensures HeldInHand(w)
  {
  }

  lemma {:induction false} LeakHolds(ws: seq<World>, steps: seq<Step>, k: nat, i: nat)
    requires IsRun(CALM, ws, steps) && k < i < |ws| && steps[k].NoPort?
    requires forall l | k < l < i :: !Ends(ws[l], steps[l])
    ensures Holds(ws[i].rt)
    decreases i
  {
    hide Next, Allowed, Holds;
    assert Follows(CALM, ws[i - 1], steps[i - 1], ws[i]);
    if k == i - 1 {
      InvRun(ws, steps, k);
      assert PlaceInv(ws[k].rt, At(ws[k], steps[k].t));
    } else {
      LeakHolds(ws, steps, k, i - 1);
    }
    HoldsUntilEnded(ws[i - 1], steps[i - 1]);
  }

  /** With the overlaps excluded, a runtime without a process whose reservation is in nobody's hands holds
      one exactly if a startup has failed at its port or environment since the last one ended. */
  lemma IdleHoldsExactly(ws: seq<World>, steps: seq<Step>, i: nat)
    requires IsRun(CALM, ws, steps) && i < |ws|
    requires ws[i].rt.process.None? && forall t :: !InHand(At(ws[i], t))
    ensures Holds(ws[i].rt) <==> Leaked(ws, steps, i)
  {
    hide Next, Enabled, Allowed, Ends, Holds;
    LeakOrHand(ws, steps, i);
    if Leaked(ws, steps, i) {
      var k :| 0 <= k < i && steps[k].NoPort? && forall l | k < l < i :: !Ends(ws[l], steps[l]);
      LeakHolds(ws, steps, k, i);
    }
  }

  // ------------------------------------------------- what the ledger says of the runtime

  /** The ledger's word on the named reservation. */
  function WorkOf(r: Runtime): Work
    requires Holds(r)
  {
    r.ledger[r.reservation.value]
  }

  /** What a block records of a reservation that it leaves live, if it records anything. */
  function Recorded(w: World, s: Step): Option<Work> {
    match s
    case Reserve(_, _) => if Holds(w.rt) then None else Some(Admitted)
    case PublishStep(_) => Some(Launching)
    case WarmUp(_, ok) => if ok then Some(Running) else None
    case PrewarmStep(_) => Some(Resting)
    case SpeakStart(_) => Some(Running)
    case SpeakDone(_) => Some(Resting)
    case SpeakFail(_) => Some(Running)
    case First(_) => Some(Evicting)
    case _ => None
  }

  lemma WorkStep(w: World, s: Step)
    requires Enabled(w, s) && Holds(Next(w, s).rt)
    ensures Recorded(w, s).Some? ==> WorkOf(Next(w, s).rt) == Recorded(w, s).value
    ensures Recorded(w, s).None? ==> Holds(w.rt) && WorkOf(Next(w, s).rt) == WorkOf(w.rt)
  {
    hide Place, At;
  }

  /** How a block that ends the reservation records it, and what it leaves of the runtime: released and
      unloaded by a release, broken and failed by a failed startup, launch or speech, and broken by a restart
      that finds the sidecar dead. */
  lemma EndsWith(w: World, s: Step)
    requires Enabled(w, s) && Ends(w, s)
    ensures var released := s.Last? && At(w, s.t).startup.None?; var v := Next(w, s).rt;
            && v.reservation.None?
            && (Holds(w.rt) ==>
                  v.ledger == w.rt.ledger[w.rt.reservation.value := if released then Released else Broken])
            && v.state == if released then Unloaded else if Claims(w, s) then Starting else Failed
  {
    hide Update, Create;
  }

  /** A write names only what the ledger still knows. */
  lemma UpdateForgets(r: Runtime, work: Work)
    ensures Update(r, work).reservation
         == if r.reservation.Some? && r.reservation.value in r.ledger then r.reservation else None
  {}

  /** Which words fit a state. */
  ghost predicate WorkFits(r: Runtime) {
    Holds(r) ==>
      match r.state
      case Unloaded => false
      case Ready => WorkOf(r) == Running
      case HotIdle => WorkOf(r) == Resting
      case Speaking => WorkOf(r) == Running || WorkOf(r) == Resting
      case Releasing => WorkOf(r) == Evicting || WorkOf(r) == Resting
      case _ => true
  }

  /** Which states a block writes. */
  lemma StateStep(w: World, s: Step)
    requires Enabled(w, s)
    ensures var state := Next(w, s).rt.state;
            && (state == Ready && w.rt.state != Ready ==> s.WarmUp? || s.SpeakFail?)
            && (state == HotIdle && w.rt.state != HotIdle ==> s.SpeakDone? || s.PrewarmStep?)
            && (state == Speaking && w.rt.state != Speaking ==> s.SpeakStart?)
            && (state == Releasing && w.rt.state != Releasing ==> s.First?)
            && (state == Unloaded && w.rt.state != Unloaded ==> s.Last?)
            && (s.PrewarmStep? ==> state == if w.rt.state == Ready then HotIdle else w.rt.state)
            && (s.SpeakDone? ==> state == HotIdle) && (s.SpeakStart? ==> state == Speaking)
            && (s.First? ==> state == Releasing)
            && (s.SpeakFail? && Alive(w) ==> state == Ready)
            && (s.WarmUp? && s.ok ==> state == Ready)
  {
    hide Update, Settle, Create, Holds, Place;
  }

  lemma WritesInStarting(w: World, s: Step)
    requires Inv(w) && Enabled(w, s) && (s.Reserve? || s.PublishStep? || s.WarmUp?)
    ensures w.rt.state == Starting && (s.Reserve? || s.PublishStep? ==> Next(w, s).rt.state == Starting)
  {
    hide Update, Settle, Create, Holds;
    assert PlaceInv(w.rt, At(w, s.t));
  }

  lemma WorkFitsStep(w: World, s: Step)
    requires Inv(w) && WorkFits(w.rt) && Enabled(w, s) && Allowed(CALM, w, s)
    ensures WorkFits(Next(w, s).rt)
  {
    var v := Next(w, s);
    if Holds(v.rt) {
      WorkStep(w, s);
      StateStep(w, s);
      if s.Reserve? || s.PublishStep? || s.WarmUp? {
        WritesInStarting(w, s);
      }
      if Ends(w, s) {
        EndedIsNotHeld(w, s);
      }
      if s.SpeakFail? {
        assert Alive(w);
      }
      hide Next, Enabled, Allowed, Inv, Holds, WorkOf, Alive;
    }
  }

  /** With the overlaps excluded, the reservation of a ready runtime reads as running, that of a resting one
      as resting, and an unloaded one has none. */
  lemma {:induction false} WorkFitsRun(ws: seq<World>, steps: seq<Step>, i: nat)
    requires IsRun(CALM, ws, steps) && i < |ws|
    ensures WorkFits(ws[i].rt)
  {
    hide Next, Enabled, Allowed, WorkFits;
    if i == 0 {
      NoWorkAtStart();
    } else {
      WorkFitsRun(ws, steps, i - 1);
      InvRun(ws, steps, i - 1);
      assert Follows(CALM, ws[i - 1], steps[i - 1], ws[i]);
      WorkFitsStep(ws[i - 1], steps[i - 1]);
    }
  }

  lemma NoWorkAtStart()
    ensures WorkFits(START.rt)
  {}

  /** A prewarm has ended since speech last started. */
  ghost predicate PrewarmedSince(steps: seq<Step>, i: nat)
    requires i <= |steps|
  {
    exists k | 0 <= k < i :: steps[k].PrewarmStep? && forall l | k < l < i :: !steps[l].SpeakStart?
  }

  /** While it speaks the reservation reads as running, unless a prewarm ended in the meantime: that block
      keeps the state but writes "hot idle" into the ledger. */
  lemma {:induction false} SpeakingReadsRunningExactly(ws: seq<World>, steps: seq<Step>, i: nat)
    requires IsRun(CALM, ws, steps) && i < |ws| && ws[i].rt.state == Speaking && Holds(ws[i].rt)
    ensures WorkOf(ws[i].rt) == if PrewarmedSince(steps, i) then Resting else Running
  {
    assert i > 0;
    InvRun(ws, steps, i - 1);
    assert Follows(CALM, ws[i - 1], steps[i - 1], ws[i]);
    SpeakingStep(ws[i - 1], steps[i - 1]);
    hide Next, Enabled, Allowed, Inv, Holds, WorkOf;
    if steps[i - 1].PrewarmStep? {
      assert PrewarmedSince(steps, i);
    } else if !steps[i - 1].SpeakStart? {
      SpeakingReadsRunningExactly(ws, steps, i - 1);
      SinceStep(steps, i);
    } else {
      assert !PrewarmedSince(steps, i);
    }
  }

  lemma SpeakingStep(w: World, s: Step)
    requires Inv(w) && Enabled(w, s) && Next(w, s).rt.state == Speaking && Holds(Next(w, s).rt)
    ensures s.SpeakStart? ==> WorkOf(Next(w, s).rt) == Running
    ensures s.PrewarmStep? ==> WorkOf(Next(w, s).rt) == Resting
    ensures !s.SpeakStart? && !s.PrewarmStep? ==>
              w.rt.state == Speaking && Holds(w.rt) && WorkOf(Next(w, s).rt) == WorkOf(w.rt)
  {
    WorkStep(w, s);
    StateStep(w, s);
    if s.Reserve? || s.PublishStep? || s.WarmUp? {
      WritesInStarting(w, s);
    }
    if s.SpeakFail? && !Alive(w) {
      EndedIsNotHeld(w, s);
    }
    hide Next, Enabled, Inv, Holds, WorkOf, Alive;
  }

  lemma SinceStep(steps: seq<Step>, i: nat)
    requires 0 < i <= |steps| && !steps[i - 1].SpeakStart? && !steps[i - 1].PrewarmStep?
    ensures PrewarmedSince(steps, i) <==> PrewarmedSince(steps, i - 1)
  {
    if k :| 0 <= k < i - 1 && steps[k].PrewarmStep? && forall l | k < l < i - 1 :: !steps[l].SpeakStart? {
      assert 0 <= k < i && forall l | k < l < i :: !steps[l].SpeakStart?;
    }
  }

  // ---------------------------------------------------------------- the idle timer

  /** A prewarm or a speech that succeeded leaves the runtime resting, and says so in the ledger. */
  lemma SuccessRests(w: World, s: Step)
    requires Enabled(w, s) && (s.SpeakDone? || (s.PrewarmStep? && w.rt.state == Ready))
    ensures var v := Next(w, s);
            && v.rt.state == HotIdle && v.rt.process == w.rt.process
            && (Holds(w.rt) ==> Holds(v.rt) && WorkOf(v.rt) == Resting)
  {
    hide Place, At;
  }

  /** And a resting runtime is released by its timer, once the idle time is over: nothing stays loaded and
      nothing reserved. A timer that fires early or in any other state does nothing. */
  lemma TimerReleasesExactly(w: World, t: nat, expired: bool)
    requires At(w, t) == Idle && Named(w.rt)
    ensures Enabled(w, IdleTimer(t, expired)) && Next(w, IdleTimer(t, expired)).rt == w.rt
    ensures At(Next(w, IdleTimer(t, expired)), t).Leaving? <==> expired && w.rt.state == HotIdle
    ensures expired && w.rt.state == HotIdle ==>
              var a := Next(w, IdleTimer(t, true));
              && Enabled(a, First(t)) && Enabled(Next(a, First(t)), Last(t))
              && var v := Next(Next(a, First(t)), Last(t));
                 && v.rt.state == Unloaded && v.rt.process.None? && At(v, t) == Idle
                 && forall id | id in v.rt.ledger :: !Live(v.rt.ledger[id])
  {
    if expired && w.rt.state == HotIdle {
      var a := Next(w, IdleTimer(t, true));
      NamedStep(a, First(t));
      hide Update, Create, Holds, Settle, Named;
    }
  }

  // ------------------------------------------------------------ why all three

  ghost predicate Reachable(rules: Rules, w: World) {
    exists ws, steps :: IsRun(rules, ws, steps) && ws[|steps|] == w
  }

  lemma Extend(rules: Rules, w: World, s: Step)
    requires Reachable(rules, w) && Enabled(w, s) && Allowed(rules, w, s)
    ensures Reachable(rules, Next(w, s))
  {
    hide Next, Enabled, Allowed;
    var ws, steps :| IsRun(rules, ws, steps) && ws[|steps|] == w;
    var vs, more := ws + [Next(w, s)], steps + [s];
    forall i | 0 <= i < |more| ensures Follows(rules, vs[i], more[i], vs[i + 1]) {
      if i < |steps| {
        assert Follows(rules, ws[i], steps[i], ws[i + 1]);
      }
    }
    assert IsRun(rules, vs, more) && vs[|more|] == Next(w, s);
  }

  /** What threads 1, 2 and 3 and the shared fields look like; the examples need no more threads. */
  datatype Scene = Scene(rt: Runtime, one: Pc, two: Pc, three: Pc, speaker: Option<nat>, dead: set<nat>, nextPid: nat)

  predicate Cast(s: Step) {
    s.Die? || s.Purge? || 1 <= s.t <= 3
  }

  function Stage(c: Scene): World {
    World(c.rt, map[1 := c.one, 2 := c.two, 3 := c.three], c.speaker, c.dead, c.nextPid)
  }

  function Scenery(w: World): Scene {
    Scene(w.rt, At(w, 1), At(w, 2), At(w, 3), w.speaker, w.dead, w.nextPid)
  }

  ghost predicate OnlyThree(w: World) {
    forall t :: t == 0 || t > 3 ==> At(w, t) == Idle
  }

  /** Some run under the rules ends in a world that looks like the scene, with nobody else at work. */
  ghost predicate Reached(rules: Rules, c: Scene) {
    exists w :: Reachable(rules, w) && OnlyThree(w) && Scenery(w) == c
  }

  /** The rules, read off the scene. */
  predicate Keeps(rules: Rules, c: Scene, s: Step) {
    match s
    case AskStep(_, _) =>
      && (rules.releasesApart ==> !c.one.Left? && !c.two.Left? && !c.three.Left?)
      && (rules.claimsWait ==> !Finishing(c.one) && !Finishing(c.two) && !Finishing(c.three))
    case First(_) => !rules.releasesApart
    case SpeakStart(_) => !rules.speechApart || c.rt.state != Starting
    case SpeakDone(_) => false
    case SpeakFail(_) => false
    case _ => true
  }

  lemma KeepsAllowed(rules: Rules, w: World, s: Step)
    requires OnlyThree(w) && Keeps(rules, Scenery(w), s)
    ensures Allowed(rules, w, s)
  {
    forall t ensures At(w, t).Left? ==> At(w, 1).Left? || At(w, 2).Left? || At(w, 3).Left? {
      assert t == 0 || t > 3 ==> At(w, t) == Idle;
    }
    forall t ensures Finishing(At(w, t)) ==> Finishing(At(w, 1)) || Finishing(At(w, 2)) || Finishing(At(w, 3)) {
      assert t == 0 || t > 3 ==> At(w, t) == Idle;
    }
  }

  /** The worlds agree on the shared fields and on the thread of the step. */
  ghost predicate Agree(w: World, v: World, s: Step) {
    && w.rt == v.rt && w.speaker == v.speaker && w.dead == v.dead && w.nextPid == v.nextPid
    && (s.Die? || s.Purge? || At(w, s.t) == At(v, s.t))
  }

  lemma AgreeOnBlock(w: World, v: World, s: Step)
    requires Agree(w, v, s) && Enabled(v, s)
    ensures Enabled(w, s) && Block(w, s) == Block(v, s)
  {
    hide Ask, Create, LaunchFailed, Publish, WarmedUp, Excuse, ReleaseFirst, ReleaseLast, PrewarmDone, SpeechFailed;
    hide Update, At;
  }

  lemma AgreeOnPlace(w: World, v: World, s: Step)
    requires Agree(w, v, s) && Enabled(v, s) && !s.Die? && !s.Purge?
    ensures Enabled(w, s) && Place(w, s) == Place(v, s)
  {
    hide Question, Holds, After, Resident, At;
  }

  /** A step of the cast depends on the scene alone. */
  lemma SceneDecides(w: World, s: Step)
    requires Cast(s) && Enabled(Stage(Scenery(w)), s)
    ensures Enabled(w, s) && Scenery(Next(w, s)) == Scenery(Next(Stage(Scenery(w)), s))
  {
    hide Enabled, Block, Place;
    var v := Stage(Scenery(w));
    assert At(v, 1) == At(w, 1) && At(v, 2) == At(w, 2) && At(v, 3) == At(w, 3);
    AgreeOnBlock(w, v, s);
    if !s.Die? && !s.Purge? {
      AgreeOnPlace(w, v, s);
    }
  }

  lemma Take(rules: Rules, c: Scene, s: Step, d: Scene)
    requires Reached(rules, c) && Cast(s) && Keeps(rules, c, s)
    requires Enabled(Stage(c), s) && Scenery(Next(Stage(c), s)) == d
    ensures Reached(rules, d)
  {
    hide Enabled, Allowed, Next, Reachable, Keeps, Scenery, Stage;
    var w :| Reachable(rules, w) && OnlyThree(w) && Scenery(w) == c;
    KeepsAllowed(rules, w, s);
    SceneDecides(w, s);
    Extend(rules, w, s);
    forall t | t == 0 || t > 3 ensures At(Next(w, s), t) == Idle {
      assert At(w, t) == Idle && !Moves(s, t);
      OthersStay(w, s, t);
    }
  }

  const OPENING := Scene(INITIAL, Idle, Idle, Idle, None, {}, 0)

  lemma Open(rules: Rules)
    ensures Reached(rules, OPENING)
  {
    var ws, steps := [START], [];
    assert IsRun(rules, ws, steps) && ws[|steps|] == START;
    assert Reachable(rules, START) && OnlyThree(START) && Scenery(START) == OPENING;
  }

  const CLAIMED := INITIAL.(state := Starting, startupEvent := false)

  /** A release interrupts the first startup, and a second one begins. */
  const RELEASED := Scene(CLAIMED.(state := Releasing), Checking(Prewarm), Idle, Left(None), None, {}, 0)
  const RELEASE_DOUBLED := Scene(CLAIMED, Checking(Prewarm), Checking(Prewarm), Idle, None, {}, 0)

  lemma ReleaseInterrupts(rules: Rules)
    requires !rules.releasesApart
    ensures Reached(rules, RELEASED)
  {
    hide Named, Reached, SameControl;
    FirstClaims(rules);
    Take(rules, OPENING.(rt := CLAIMED, one := Checking(Prewarm)), First(3), RELEASED);
  }

  lemma FirstClaims(rules: Rules)
    ensures Reached(rules, OPENING.(rt := CLAIMED, one := Checking(Prewarm)))
  {
    hide Named, Reached, SameControl;
    Open(rules);
    Take(rules, OPENING, AskStep(1, Prewarm), OPENING.(rt := CLAIMED, one := Checking(Prewarm)));
  }

  lemma ReleaseDoubles(rules: Rules)
    requires !rules.releasesApart
    ensures Reached(rules, RELEASE_DOUBLED)
  {
    hide Named, Reached, SameControl;
    ReleaseInterrupts(rules);
    var c := RELEASED.(rt := CLAIMED.(state := Unloaded), three := Idle);
    Take(rules, RELEASED, Last(3), c);
    Take(rules, c, AskStep(2, Prewarm), RELEASE_DOUBLED);
  }

  /** A thread that failed to launch overwrites the state of the startup claimed after it. */
  const BROKEN := CLAIMED.(ledger := map[0 := Broken], nextId := 1)
  const NOT_LAUNCHED := Scene(BROKEN.(state := Failed), Idle, Idle, Spent(Prewarm), None, {}, 0)
  const LATE := Scene(BROKEN, Checking(Prewarm), Idle, Spent(Prewarm), None, {}, 0)
  const LATE_DOUBLED := Scene(BROKEN, Checking(Prewarm), Checking(Prewarm), Setting(Prewarm, false), None, {}, 0)

  function Held(k: Caller): Scene {
    Scene(CLAIMED.(reservation := Some(0), ledger := map[0 := Admitted], nextId := 1), Idle, Idle, Reserved(k),
          if k == Speak then Some(3) else None, {}, 0)
  }

  lemma Reserves(rules: Rules, k: Caller)
    ensures Reached(rules, Held(k))
  {
    hide Named, Reached, SameControl;
    var c := Scene(CLAIMED, Idle, Idle, Checking(k), if k == Speak then Some(3) else None, {}, 0);
    Claimed(rules, k);
    Take(rules, c, Reserve(3, false), Held(k));
  }

  lemma Claimed(rules: Rules, k: Caller)
    ensures Reached(rules, Scene(CLAIMED, Idle, Idle, Checking(k), if k == Speak then Some(3) else None, {}, 0))
  {
    hide Named, Reached, SameControl;
    Open(rules);
    Take(rules, OPENING, AskStep(3, k),
         Scene(CLAIMED, Idle, Idle, Checking(k), if k == Speak then Some(3) else None, {}, 0));
  }

  lemma NextIsClaimed(rules: Rules)
    requires !rules.claimsWait
    ensures Reached(rules, LATE)
  {
    hide Named, Reached, SameControl;
    LaunchBreaks(rules);
    Take(rules, NOT_LAUNCHED, AskStep(1, Prewarm), LATE);
  }

  lemma LaunchBreaks(rules: Rules)
    ensures Reached(rules, NOT_LAUNCHED)
  {
    hide Named, Reached, SameControl;
    Reserves(rules, Prewarm);
    Take(rules, Held(Prewarm), LaunchFail(3), NOT_LAUNCHED);
  }

  lemma LateExcuseDoubles(rules: Rules)
    requires !rules.claimsWait
    ensures Reached(rules, LATE_DOUBLED)
  {
    hide Named, Reached, SameControl;
    NextIsClaimed(rules);
    var c := LATE.(rt := BROKEN.(state := Failed, startupError := true), three := Setting(Prewarm, false));
    Take(rules, LATE, ExcuseStep(3), c);
    Take(rules, c, AskStep(2, Prewarm), LATE_DOUBLED);
  }

  /** The sidecar dies after a speaker found it running; the speaker then writes Speaking over the
      restart another thread has claimed. */
  const UP := CLAIMED.(state := Ready, process := Some(0), reservation := Some(0), ledger := map[0 := Running],
                       nextId := 1)
  const WARMING :=
    Scene(UP.(state := Starting, ledger := map[0 := Launching]), Idle, Idle, Warming(Speak), Some(3), {}, 1)
  const STARTED := Scene(UP, Idle, Idle, Setting(Speak, true), Some(3), {}, 1)
  const DEAD := Scene(UP.(startupEvent := true), Idle, Idle, Loaded, Some(3), {0}, 1)
  const RESTART := Scene(BROKEN, Checking(Prewarm), Idle, Loaded, Some(3), {0}, 1)
  const SPEECH_DOUBLED := Scene(BROKEN, Checking(Prewarm), Checking(Prewarm), Requesting, Some(3), {0}, 1)

  lemma SpeakerStarts(rules: Rules)
    ensures Reached(rules, STARTED)
  {
    hide Named, Reached, SameControl;
    SpeakerPublishes(rules);
    Take(rules, WARMING, WarmUp(3, true), STARTED);
  }

  lemma SpeakerPublishes(rules: Rules)
    ensures Reached(rules, WARMING)
  {
    hide Named, Reached, SameControl;
    Reserves(rules, Speak);
    Take(rules, Held(Speak), PublishStep(3), WARMING);
  }

  lemma SidecarDies(rules: Rules)
    ensures Reached(rules, DEAD)
  {
    hide Named, Reached, SameControl;
    SpeakerLoads(rules);
    Take(rules, DEAD.(dead := {}), Die(0), DEAD);
  }

  lemma SpeakerLoads(rules: Rules)
    ensures Reached(rules, DEAD.(dead := {}))
  {
    hide Named, Reached, SameControl;
    SpeakerStarts(rules);
    Take(rules, STARTED, SetEvent(3), DEAD.(dead := {}));
  }

  lemma SpeechDoubles(rules: Rules)
    requires !rules.speechApart
    ensures Reached(rules, SPEECH_DOUBLED)
  {
    hide Named, Reached, SameControl;
    RestartClaimed(rules);
    var c := RESTART.(rt := BROKEN.(state := Speaking), three := Requesting);
    Take(rules, RESTART, SpeakStart(3), c);
    Take(rules, c, AskStep(2, Prewarm), SPEECH_DOUBLED);
  }

  lemma RestartClaimed(rules: Rules)
    ensures Reached(rules, RESTART)
  {
    hide Named, Reached, SameControl;
    SidecarDies(rules);
    Take(rules, DEAD, AskStep(1, Prewarm), RESTART);
  }

  /** A prewarm that found the sidecar up ends while it speaks. */
  const TALKING :=
    Scene(UP.(state := Speaking, startupEvent := true), Prewarmed, Idle, Requesting, Some(3), {}, 1)
  const RESTING_TALK :=
    TALKING.(rt := TALKING.rt.(ledger := map[0 := Resting]), one := Idle)

  lemma RestsWhileSpeaking(rules: Rules)
    ensures Reached(rules, RESTING_TALK)
  {
    hide Named, Reached, SameControl;
    Talks(rules);
    Take(rules, TALKING, PrewarmStep(1), RESTING_TALK);
  }

  lemma Talks(rules: Rules)
    ensures Reached(rules, TALKING)
  {
    hide Named, Reached, SameControl;
    TwoCallers(rules);
    Take(rules, TALKING.(rt := TALKING.rt.(state := Ready), three := Loaded), SpeakStart(3), TALKING);
  }

  lemma TwoCallers(rules: Rules)
    ensures Reached(rules, TALKING.(rt := TALKING.rt.(state := Ready), three := Loaded))
  {
    hide Named, Reached, SameControl;
    SpeakerLoads(rules);
    Take(rules, DEAD.(dead := {}), AskStep(1, Prewarm), TALKING.(rt := TALKING.rt.(state := Ready), three := Loaded));
  }

  /** The port cannot be chosen: everybody is idle again, the startup is over, and its reservation stays. */
  const LEAKED :=
    Scene(Runtime(Failed, None, Some(0), true, true, map[0 := Admitted], 1), Idle, Idle, Idle, None, {}, 0)

  lemma PortLeaks(rules: Rules)
    ensures Reached(rules, LEAKED)
  {
    hide Named, Reached, SameControl;
    var c := Held(Prewarm).(three := Failing(Prewarm));
    PortFails(rules, c);
    var d := LEAKED.(rt := LEAKED.rt.(startupEvent := false), three := Setting(Prewarm, false));
    Take(rules, c, ExcuseStep(3), d);
    Take(rules, d, SetEvent(3), LEAKED);
  }

  lemma PortFails(rules: Rules, c: Scene)
    requires c == Held(Prewarm).(three := Failing(Prewarm))
    ensures Reached(rules, c)
  {
    hide Named, Reached, SameControl;
    Reserves(rules, Prewarm);
    Take(rules, Held(Prewarm), NoPort(3), c);
  }

  /** Two threads have claimed the startup. */
  predicate Doubled(c: Scene) {
    && c.one == Checking(Prewarm) && c.two == Checking(Prewarm)
    && c.rt.state == Starting && c.rt.reservation.None? && c.nextPid !in c.dead
  }

  /** Whichever of the three overlaps is allowed, two startups can run at once. */
  lemma OverlapDoubles(rules: Rules) returns (c: Scene)
    requires rules != CALM
    ensures Reached(rules, c) && Doubled(c)
  {
    hide Reached;
    if !rules.releasesApart {
      ReleaseDoubles(rules);
      c := RELEASE_DOUBLED;
    } else if !rules.claimsWait {
      LateExcuseDoubles(rules);
      c := LATE_DOUBLED;
    } else {
      SpeechDoubles(rules);
      c := SPEECH_DOUBLED;
    }
  }

  /** Once doubled, the second startup can fail the reservation the first one has taken ... */
  function Shared(c: Scene): Scene {
    c.(rt := LaunchFailed(Create(c.rt, false)), one := Reserved(Prewarm), two := Spent(Prewarm))
  }

  /** ... which then loads without one ... */
  function Bare(c: Scene): Scene {
    var b := Shared(c);
    b.(rt := WarmedUp(Publish(b.rt, b.nextPid)), one := Setting(Prewarm, true), nextPid := b.nextPid + 1)
  }

  lemma DoubledShares(rules: Rules, c: Scene)
    requires Reached(rules, c) && Doubled(c)
    ensures Reached(rules, Shared(c))
  {
    hide Named, Reached, SameControl;
    var d := c.(rt := Create(c.rt, false), one := Reserved(Prewarm));
    Take(rules, c, Reserve(1, false), d);
    Take(rules, d, Reserve(2, false), d.(two := Reserved(Prewarm)));
    Take(rules, d.(two := Reserved(Prewarm)), LaunchFail(2), Shared(c));
  }

  lemma DoubledLoads(rules: Rules, c: Scene)
    requires Reached(rules, c) && Doubled(c)
    ensures Reached(rules, Bare(c))
  {
    hide Named, Reached, SameControl;
    DoubledShares(rules, c);
    var b := Shared(c);
    hide Shared;
    var d := b.(rt := Publish(b.rt, b.nextPid), one := Warming(Prewarm), nextPid := b.nextPid + 1);
    Take(rules, b, PublishStep(1), d);
    Take(rules, d, WarmUp(1, true), Bare(c));
  }

  /** ... and sets the event while the second one is in flight. */
  lemma DoubledSets(rules: Rules, c: Scene)
    requires Reached(rules, c) && Doubled(c)
    ensures Reached(rules, Bare(c).(rt := Bare(c).rt.(startupEvent := true), one := Prewarmed))
  {
    hide Named, Reached, SameControl;
    DoubledLoads(rules, c);
    var b := Bare(c);
    Take(rules, b, SetEvent(1), b.(rt := b.rt.(startupEvent := true), one := Prewarmed));
  }

  lemma CalmHolds(w: World)
    requires Reachable(CALM, w)
    ensures SingleFlight(w) && EventHonest(w) && LoadIsReserved(w)
  {
    var ws, steps :| IsRun(CALM, ws, steps) && ws[|steps|] == w;
    InvRun(ws, steps, |steps|);
    forall t | Active(At(w, t)) ensures w.rt.state == Starting {
      assert PlaceInv(w.rt, At(w, t));
    }
  }

  /** At most one startup runs, and the state says so, exactly when releases, speech blocks and late
      failures stay out of startups: a run that allows any one of them can start two sidecars. */
  lemma SingleFlightExactly(rules: Rules)
    ensures (forall w | Reachable(rules, w) :: SingleFlight(w)) <==> rules == CALM
  {
    hide Reachable;
    if rules == CALM {
      forall w | Reachable(rules, w) ensures SingleFlight(w) {
        CalmHolds(w);
      }
    } else {
      var c := OverlapDoubles(rules);
      var w :| Reachable(rules, w) && OnlyThree(w) && Scenery(w) == c;
      assert Active(At(w, 1)) && Active(At(w, 2));
    }
  }

  /** The startup event is set exactly when no startup is in flight, under the same condition. */
  lemma EventHonestExactly(rules: Rules)
    ensures (forall w | Reachable(rules, w) :: EventHonest(w)) <==> rules == CALM
  {
    hide Reachable;
    if rules == CALM {
      forall w | Reachable(rules, w) ensures EventHonest(w) {
        CalmHolds(w);
      }
    } else {
      var c := OverlapDoubles(rules);
      DoubledSets(rules, c);
      var d := Bare(c).(rt := Bare(c).rt.(startupEvent := true), one := Prewarmed);
      var w :| Reachable(rules, w) && OnlyThree(w) && Scenery(w) == d;
      assert InFlight(At(w, 2));
    }
  }

  /** A loaded runtime holds a live reservation, under the same condition. */
  lemma LoadIsReservedExactly(rules: Rules)
    ensures (forall w | Reachable(rules, w) :: LoadIsReserved(w)) <==> rules == CALM
  {
    hide Reachable;
    if rules == CALM {
      forall w | Reachable(rules, w) ensures LoadIsReserved(w) {
        CalmHolds(w);
      }
    } else {
      var c := OverlapDoubles(rules);
      DoubledLoads(rules, c);
      var w :| Reachable(rules, w) && OnlyThree(w) && Scenery(w) == Bare(c);
      assert !LoadIsReserved(w);
    }
  }
}
