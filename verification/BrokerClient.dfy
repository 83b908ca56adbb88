/** The runtime's side of the broker: Stop against key release and commit.

    `Cancellation` is an object with a lock; each of its locked blocks is one atomic step, and so is
    each poll of the owner's extra condition, which happens outside the lock. Any number of
    `perform` calls on one `BrokerSession` and any number of cancelling threads interleave. */
module BrokerClient {

  import opened Options

  // ------------------------------------------------------------- Cancellation

  datatype Point = KeyRelease | Commit

  datatype CancelState = CancelState(cancelled: bool, keyReleased: bool, committed: bool, wakers: set<nat>)

  const FRESH: CancelState := CancelState(false, false, false, {})

  /** The locked block of `cancel`; without effect once the request is committed. */
  function Cancelled(c: CancelState): CancelState {
    if c.committed then c else c.(cancelled := true)
  }

  function Granted(c: CancelState, point: Point): CancelState {
    if c.cancelled then c
    else match point
         case KeyRelease => c.(keyReleased := true)
         case Commit => c.(committed := true)
  }

  class Cancellation {
    var cancelled: bool
    var keyReleased: bool
    var committed: bool
    var wakers: set<nat>

    function State(): CancelState
      reads this
    {
      CancelState(cancelled, keyReleased, committed, wakers)
    }

    constructor ()
      ensures State() == FRESH
    {
      cancelled, keyReleased, committed, wakers := false, false, false, {};
    }

    /** True, and whom to wake, unless the request was already committed. */
    method Cancel() returns (ok: bool, wake: set<nat>)
      modifies this
      ensures State() == Cancelled(old(State()))
      ensures ok == !old(committed) && (ok ==> cancelled)
      ensures wake == if ok then wakers else {}
    {
      if committed {
        return false, {};
      }
      cancelled := true;
      return true, wakers;
    }

    method Claim(point: Point, also: bool) returns (ok: bool)
      modifies this
      ensures ok == (!also && !old(cancelled))
      ensures State() == if also then old(State()) else Granted(old(State()), point)
    {
      if also || cancelled {
        return false;
      }
      match point {
        case KeyRelease => keyReleased := true;
        case Commit => committed := true;
      }
      return true;
    }

    method EnterWaking(waker: nat) returns (fired: bool)
      modifies this
      ensures State() == old(State()).(wakers := old(wakers) + {waker}) && fired == cancelled
    {
      wakers := wakers + {waker};
      fired := cancelled;
    }

    method LeaveWaking(waker: nat)
      modifies this
      ensures State() == old(State()).(wakers := old(wakers) - {waker})
    {
      wakers := wakers - {waker};
    }
  }

  // ------------------------------------------------------------ perform, stepwise

  /** `NotListening` is the error of a listener that could not be opened and `WaitFailed` one of the
      wait for the broker's exit after its reply; both escape as they are. The others are
      BrokerUnavailable, BrokerCancelled, BrokerOutcomeUnknown and a returned result. */
  datatype Outcome = Unavailable | Stopped | NotListening | OutcomeUnknown | WaitFailed | Answered

  datatype Pc =
    | New | CheckingFlag | CheckingAlso | Building | Reserving | Entering | Firing | Launching
    | LaunchedFlag | LaunchedAlso | Accepting | GateAlso | GateLock | Handshake
    | Leaving(exit: Option<Outcome>) | Hello | CommitAlso | CommitLock | Sending | Receiving | Exiting
    | Done(outcome: Outcome)

  /** One `perform` call: the action id of its grant, the cancellation it observes, and history:
      whether it recorded the id as used, was granted the commit, and let the request leave. */
  datatype Call = Call(id: string, c: nat, pc: Pc, interrupted: bool,
                       reserved: bool, granted: bool, sent: bool)

  datatype Canceller = Canceller(c: nat, pending: set<nat>)

  datatype World = World(cancels: map<nat, CancelState>, also: map<nat, bool>, used: set<string>,
                         calls: map<nat, Call>, cancellers: map<nat, Canceller>, sends: multiset<string>)

  /** The next step of a call succeeds; or it fails with an error of the launcher, the channel or
      the peer; or a wait ends because it was interrupted. */
  datatype Turn = Advance | Break | Notice

  datatype Step =
    | NewCancellation(c: nat)
    | SetAlso(c: nat, value: bool)
    | Perform(p: nat, id: string, c: nat)
    | CancelLock(k: nat, c: nat)          // the locked block of cancel()
    | Wake(k: nat, p: nat)                // cancel() calling one waker
    | Move(p: nat, turn: Turn)            // one step of perform()

  function Start(): World {
    World(map[], map[], {}, map[], map[], multiset{})
  }

  /** Waits for the peer and the handshake look at the listener's interrupt, the wait for the hello
      at the cancellation itself. A message that is already there may win over either. */
  predicate CanTurn(call: Call, c: CancelState, also: bool, turn: Turn) {
    match turn
    case Advance => !call.pc.Done?
    case Break =>
      || call.pc.Building? || call.pc.Entering? || call.pc.Launching? || call.pc.Accepting?
      || call.pc.Handshake? || call.pc.Hello? || call.pc.Sending? || call.pc.Receiving? || call.pc.Exiting?
    case Notice =>
      || ((call.pc.Accepting? || call.pc.Handshake?) && call.interrupted)
      || (call.pc.Hello? && (c.cancelled || also))
  }

  predicate Alive(w: World, p: nat) {
    p in w.calls && w.calls[p].c in w.cancels && w.calls[p].c in w.also
  }

  predicate Possible(w: World, s: Step) {
    match s
    case NewCancellation(c) => c !in w.cancels
    case SetAlso(c, _) => c in w.cancels
    case Perform(p, _, c) => p !in w.calls && c in w.cancels
    case CancelLock(k, c) => k !in w.cancellers && c in w.cancels
    case Wake(k, p) => k in w.cancellers && p in w.cancellers[k].pending && p in w.calls
    case Move(p, turn) =>
      Alive(w, p) && CanTurn(w.calls[p], w.cancels[w.calls[p].c], w.also[w.calls[p].c], turn)
  }

  /** Where an error leads: before the commit it is "unavailable", after it "outcome unknown".
      Inside the `waking` block the waker is removed first. */
  function Broken(pc: Pc): Pc {
    if pc.Entering? then Done(NotListening)
    else if pc.Launching? || pc.Accepting? || pc.Handshake? then Leaving(Some(Unavailable))
    else if pc.Sending? || pc.Receiving? then Done(OutcomeUnknown)
    else if pc.Exiting? then Done(WaitFailed)
    else Done(Unavailable)
  }

  function Advanced(call: Call, c: CancelState, also: bool, taken: bool): Pc {
    match call.pc
    case New => if taken then Done(Unavailable) else CheckingFlag
    case CheckingFlag => if c.cancelled then Done(Stopped) else CheckingAlso
    case CheckingAlso => if also then Done(Stopped) else Building
    case Building => Reserving
    case Reserving => Entering
    case Entering => if c.cancelled then Firing else Launching
    case Firing => Launching
    case Launching => LaunchedFlag
    case LaunchedFlag => if c.cancelled then Leaving(Some(Stopped)) else LaunchedAlso
    case LaunchedAlso => if also then Leaving(Some(Stopped)) else Accepting
    case Accepting => if call.interrupted then Leaving(Some(Stopped)) else GateAlso
    case GateAlso => if also then Leaving(Some(Stopped)) else GateLock
    case GateLock => if c.cancelled then Leaving(Some(Stopped)) else Handshake
    case Handshake => Leaving(None)
    case Leaving(exit) => if exit.Some? then Done(exit.value) else Hello
    case Hello => CommitAlso
    case CommitAlso => if also then Done(Stopped) else CommitLock
    case CommitLock => if c.cancelled then Done(Stopped) else Sending
    case Sending => Receiving
    case Receiving => Exiting
    case Exiting => Done(Answered)
    case Done(_) => call.pc
  }

  /** The call after one of its steps. A request that fails while it is sent may have left in part. */
  function CallAfter(call: Call, c: CancelState, also: bool, taken: bool, turn: Turn): Call {
    match turn
    case Break => call.(pc := Broken(call.pc), sent := call.sent || call.pc.Sending?)
    case Notice => call.(pc := if call.pc.Hello? then Done(Stopped) else Leaving(Some(Stopped)))
    case Advance =>
      call.(pc := Advanced(call, c, also, taken),
            interrupted := call.interrupted || call.pc.Firing?,
            reserved := call.reserved || call.pc.Reserving?,
            granted := call.granted || (call.pc.CommitLock? && !c.cancelled),
            sent := call.sent || call.pc.Sending?)
  }

  /** The cancellation after a step of call `p`: only its locked blocks change it. */
  function CancelAfter(pc: Pc, p: nat, c: CancelState, turn: Turn): CancelState {
    if turn != Advance then c
    else if pc.Entering? then c.(wakers := c.wakers + {p})
    else if pc.GateLock? then Granted(c, KeyRelease)
    else if pc.Leaving? then c.(wakers := c.wakers - {p})
    else if pc.CommitLock? then Granted(c, Commit)
    else c
  }

  function Next(w: World, s: Step): World
    requires Possible(w, s)
  {
    match s
    case NewCancellation(c) => w.(cancels := w.cancels[c := FRESH], also := w.also[c := false])
    case SetAlso(c, value) => w.(also := w.also[c := value])
    case Perform(p, id, c) => w.(calls := w.calls[p := Call(id, c, New, false, false, false, false)])
    case CancelLock(k, c) =>
      w.(cancels := w.cancels[c := Cancelled(w.cancels[c])],
         cancellers := w.cancellers[k := Canceller(c, if w.cancels[c].committed then {} else w.cancels[c].wakers)])
    case Wake(k, p) =>
      w.(cancellers := w.cancellers[k := w.cancellers[k].(pending := w.cancellers[k].pending - {p})],
         calls := w.calls[p := w.calls[p].(interrupted := true)])
    case Move(p, turn) =>
      var call := w.calls[p];
      var c := w.cancels[call.c];
      w.(calls := w.calls[p := CallAfter(call, c, w.also[call.c], call.id in w.used, turn)],
         cancels := w.cancels[call.c := CancelAfter(call.pc, p, c, turn)],
         used := if call.pc.Reserving? && turn.Advance? then w.used + {call.id} else w.used,
         sends := if call.pc.Sending? && !turn.Notice? then w.sends + multiset{call.id} else w.sends)
  }

  ghost predicate Follows(w: World, s: Step, v: World) {
    Possible(w, s) && v == Next(w, s)
  }

  /** Between looking into the set of used ids and adding to it. */
  predicate InWindow(call: Call) {
    call.pc.CheckingFlag? || call.pc.CheckingAlso? || call.pc.Building? || call.pc.Reserving?
  }

  /** No call looks an id up while another call for it stands between look-up and entry. */
  ghost predicate KeepsSerial(w: World, s: Step) {
    s.Move? && s.p in w.calls && w.calls[s.p].pc.New? ==>
      forall q | q in w.calls && w.calls[q].id == w.calls[s.p].id :: !InWindow(w.calls[q])
  }

  ghost predicate IsRun(serial: bool, ws: seq<World>, steps: seq<Step>) {
    && |ws| == |steps| + 1 && ws[0] == Start()
    && forall i | 0 <= i < |steps| ::
         Follows(ws[i], steps[i], ws[i + 1]) && (serial ==> KeepsSerial(ws[i], steps[i]))
  }

  // --------------------------------------------------- Stop against the commit

  ghost predicate StopInv(w: World) {
    && (forall c | c in w.cancels :: !(w.cancels[c].cancelled && w.cancels[c].committed))
    && (forall p | p in w.calls :: w.calls[p].c in w.cancels && CallInv(w.calls[p], w.cancels[w.calls[p].c]))
  }

  predicate PastCommit(pc: Pc) {
    || pc.Sending? || pc.Receiving? || pc.Exiting?
    || pc == Done(OutcomeUnknown) || pc == Done(WaitFailed) || pc == Done(Answered)
  }

  /** Where the commit, the request and the outcome of one call stand to each other. */
  ghost predicate CallInv(call: Call, c: CancelState) {
    && (call.granted ==> c.committed)
    && (call.granted <==> PastCommit(call.pc))
    && (call.sent <==> PastCommit(call.pc) && !call.pc.Sending?)
    && (call.pc.Leaving? && call.pc.exit.Some? ==> call.pc.exit.value in {Unavailable, Stopped})
  }

  lemma CallInvKept(call: Call, p: nat, c: CancelState, also: bool, taken: bool, turn: Turn)
    requires CallInv(call, c) && CanTurn(call, c, also, turn) && !(c.cancelled && c.committed)
    ensures var d := CancelAfter(call.pc, p, c, turn);
            CallInv(CallAfter(call, c, also, taken, turn), d) && !(d.cancelled && d.committed)
  {
    match turn
    case Advance =>
      hide Broken, CanTurn;
    case _ =>
      hide Advanced;
  }

  lemma CallKeepsName(call: Call, c: CancelState, also: bool, taken: bool, turn: Turn)
    ensures CallAfter(call, c, also, taken, turn).id == call.id && CallAfter(call, c, also, taken, turn).c == call.c
  {}

  lemma OthersKept(other: Call, pc: Pc, p: nat, c: CancelState, turn: Turn)
    requires CallInv(other, c)
    ensures CallInv(other, CancelAfter(pc, p, c, turn))
  {}

  lemma StopInvMove(w: World, p: nat, turn: Turn)
    requires StopInv(w) && Possible(w, Move(p, turn))
    ensures StopInv(Next(w, Move(p, turn)))
  {
    hide CallAfter, CancelAfter, CanTurn, CallInv;
    var v := Next(w, Move(p, turn));
    var call := w.calls[p];
    var c := w.cancels[call.c];
    CallInvKept(call, p, c, w.also[call.c], call.id in w.used, turn);
    CallKeepsName(call, c, w.also[call.c], call.id in w.used, turn);
    forall q | q in v.calls ensures v.calls[q].c in v.cancels && CallInv(v.calls[q], v.cancels[v.calls[q].c]) {
      if q != p && w.calls[q].c == call.c {
        OthersKept(w.calls[q], call.pc, p, c, turn);
      }
    }
  }

  lemma StopInvStep(w: World, s: Step)
    requires StopInv(w) && Possible(w, s)
    ensures StopInv(Next(w, s))
  {
    match s
    case Move(p, turn) => StopInvMove(w, p, turn);
    case _ =>
  }

  lemma {:induction false} StopInvRun(serial: bool, ws: seq<World>, steps: seq<Step>, i: nat)
    requires IsRun(serial, ws, steps) && i < |ws|
    ensures StopInv(ws[i])
  {
    if i > 0 {
      StopInvRun(serial, ws, steps, i - 1);
      assert Follows(ws[i - 1], steps[i - 1], ws[i]);
      StopInvStep(ws[i - 1], steps[i - 1]);
    }
  }

  /** A cancel() on `c` that returns True. */
  ghost predicate Stops(w: World, s: Step, c: nat) {
    s.CancelLock? && s.c == c && c in w.cancels && !w.cancels[c].committed
  }

  ghost predicate Grants(w: World, s: Step, c: nat, point: Point) {
    && s.Move? && s.turn.Advance? && Alive(w, s.p) && w.calls[s.p].c == c && !w.cancels[c].cancelled
    && if point == Commit then w.calls[s.p].pc.CommitLock? else w.calls[s.p].pc.GateLock?
  }

  /** Both flags of a cancellation only ever rise. */
  lemma {:induction false} FlagsRise(serial: bool, ws: seq<World>, steps: seq<Step>, i: nat, j: nat, c: nat)
    requires IsRun(serial, ws, steps) && i <= j < |ws| && c in ws[i].cancels
    ensures c in ws[j].cancels
    ensures ws[i].cancels[c].cancelled ==> ws[j].cancels[c].cancelled
    ensures ws[i].cancels[c].committed ==> ws[j].cancels[c].committed
    decreases j
  {
    if i < j {
      FlagsRise(serial, ws, steps, i, j - 1, c);
      assert Follows(ws[j - 1], steps[j - 1], ws[j]);
    }
  }

  /** A Stop that took effect is final: afterwards neither the key is released nor the request
      committed. A granted commit is final too: no cancel() of it returns True afterwards. So the
      two never both happen, whatever the interleaving. */
  lemma StopOrCommit(ws: seq<World>, steps: seq<Step>, i: nat, j: nat, c: nat)
    requires IsRun(false, ws, steps) && i < j < |steps|
    ensures Stops(ws[i], steps[i], c) ==>
              !Grants(ws[j], steps[j], c, KeyRelease) && !Grants(ws[j], steps[j], c, Commit)
    ensures Grants(ws[i], steps[i], c, Commit) ==> !Stops(ws[j], steps[j], c)
  {
    assert Follows(ws[i], steps[i], ws[i + 1]);
    if Stops(ws[i], steps[i], c) || Grants(ws[i], steps[i], c, Commit) {
      FlagsRise(false, ws, steps, i + 1, j, c);
    }
  }

  /** What a finished call tells its owner is true: after any refusal but "outcome unknown" the
      request never left; and "outcome unknown", an answer, or an error of the wait that follows the
      answer means that it was committed. A request that left is never reported as refused. */
  lemma OutcomeTellsWhetherItLeft(ws: seq<World>, steps: seq<Step>, i: nat, p: nat)
    requires IsRun(false, ws, steps) && i < |ws| && p in ws[i].calls && ws[i].calls[p].pc.Done?
    ensures var call := ws[i].calls[p];
            call.sent <==> call.pc.outcome in {OutcomeUnknown, WaitFailed, Answered}
    ensures var call := ws[i].calls[p];
            call.sent ==> call.c in ws[i].cancels && ws[i].cancels[call.c].committed && !ws[i].cancels[call.c].cancelled
  {
    StopInvRun(false, ws, steps, i);
  }

  lemma FlagStep(w: World, s: Step, c: nat)
    requires Possible(w, s) && c in Next(w, s).cancels
    ensures var d := Next(w, s).cancels[c];
            if c in w.cancels then
              && (d.cancelled <==> w.cancels[c].cancelled || Stops(w, s, c))
              && (d.keyReleased <==> w.cancels[c].keyReleased || Grants(w, s, c, KeyRelease))
              && (d.committed <==> w.cancels[c].committed || Grants(w, s, c, Commit))
            else d == FRESH
  {
    hide CallAfter, CanTurn;
  }

  lemma ActsOnKnown(ws: seq<World>, steps: seq<Step>, i: nat, j: nat, c: nat)
    requires IsRun(false, ws, steps) && i <= j < |ws| && i < |steps|
    requires Stops(ws[i], steps[i], c) || Grants(ws[i], steps[i], c, KeyRelease) || Grants(ws[i], steps[i], c, Commit)
    ensures c in ws[j].cancels
  {
    FlagsRise(false, ws, steps, i, j, c);
  }

  ghost predicate StoppedBefore(ws: seq<World>, steps: seq<Step>, j: nat, c: nat)
    requires j <= |steps| < |ws|
  {
    exists i :: 0 <= i < j && Stops(ws[i], steps[i], c)
  }

  ghost predicate GrantedBefore(ws: seq<World>, steps: seq<Step>, j: nat, c: nat, point: Point)
    requires j <= |steps| < |ws|
  {
    exists i :: 0 <= i < j && Grants(ws[i], steps[i], c, point)
  }

  /** What the flags say happened, and nothing else sets them: a cancel that took effect, a released key,
      and the commit. So a cancel still takes effect after the key was released. */
  lemma {:induction false} FlagsExactly(ws: seq<World>, steps: seq<Step>, j: nat, c: nat)
    requires IsRun(false, ws, steps) && j < |ws| && c in ws[j].cancels
    ensures ws[j].cancels[c].cancelled <==> StoppedBefore(ws, steps, j, c)
    ensures ws[j].cancels[c].keyReleased <==> GrantedBefore(ws, steps, j, c, KeyRelease)
    ensures ws[j].cancels[c].committed <==> GrantedBefore(ws, steps, j, c, Commit)
  {
    hide Next, Possible, Stops, Grants;
    if j > 0 {
      assert Follows(ws[j - 1], steps[j - 1], ws[j]);
      FlagStep(ws[j - 1], steps[j - 1], c);
      if c in ws[j - 1].cancels {
        FlagsExactly(ws, steps, j - 1, c);
      } else {
        forall i | 0 <= i < j
          ensures !Stops(ws[i], steps[i], c) && !Grants(ws[i], steps[i], c, KeyRelease)
                  && !Grants(ws[i], steps[i], c, Commit)
        {
          if Stops(ws[i], steps[i], c) || Grants(ws[i], steps[i], c, KeyRelease) || Grants(ws[i], steps[i], c, Commit) {
            ActsOnKnown(ws, steps, i, j - 1, c);
          }
        }
      }
    }
  }

  // ------------------------------------------------------ what a stop does to a call

  /** What a call finds when it looks: the flag of its cancellation, the owner's own condition, or that its
      listener was interrupted. The two claims poll the owner first and read the flag under the lock. */
  predicate SeesStop(call: Call, c: CancelState, also: bool) {
    match call.pc
    case CheckingFlag | LaunchedFlag | GateLock | CommitLock => c.cancelled
    case CheckingAlso | LaunchedAlso | GateAlso | CommitAlso => also
    case Accepting => call.interrupted
    case _ => false
  }

  /** Call `p` sees a stop in this step, or a wait of it ends because of one. */
  ghost predicate StopsCall(w: World, s: Step, p: nat) {
    && s.Move? && s.p == p && Alive(w, p)
    && (s.turn.Notice? || (s.turn.Advance? && SeesStop(w.calls[p], w.cancels[w.calls[p].c], w.also[w.calls[p].c])))
  }

  predicate Stopping(pc: Pc) {
    pc == Done(Stopped) || pc == Leaving(Some(Stopped))
  }

  lemma StoppingStep(call: Call, c: CancelState, also: bool, taken: bool, turn: Turn)
    requires CanTurn(call, c, also, turn)
    ensures Stopping(CallAfter(call, c, also, taken, turn).pc)
            <==> Stopping(call.pc) || turn.Notice? || (turn.Advance? && SeesStop(call, c, also))
  {}

  /** Between two steps of its own a call only is interrupted. */
  lemma StandsStill(w: World, s: Step, p: nat)
    requires Possible(w, s) && !(s.Move? && s.p == p)
    ensures p in w.calls ==> p in Next(w, s).calls && Next(w, s).calls[p].pc == w.calls[p].pc
    ensures p in Next(w, s).calls && p !in w.calls ==> Next(w, s).calls[p].pc.New?
  {
    hide CallAfter, CancelAfter, CanTurn;
  }

  lemma {:induction false} StopStays(ws: seq<World>, steps: seq<Step>, i: nat, j: nat, p: nat)
    requires IsRun(false, ws, steps) && i < j < |ws| && StopsCall(ws[i], steps[i], p)
    ensures p in ws[j].calls && Stopping(ws[j].calls[p].pc)
    decreases j
  {
    hide CallAfter, CancelAfter, CanTurn, Stopping, SeesStop;
    var w, s := ws[j - 1], steps[j - 1];
    assert Follows(w, s, ws[j]);
    if i < j - 1 {
      StopStays(ws, steps, i, j - 1, p);
    }
    if s.Move? && s.p == p {
      var call := w.calls[p];
      StoppingStep(call, w.cancels[call.c], w.also[call.c], call.id in w.used, s.turn);
    } else {
      StandsStill(w, s, p);
    }
  }

  predicate EndsAs(pc: Pc, outcome: Outcome) {
    pc == Done(outcome) || pc == Leaving(Some(outcome))
  }

  /** What makes a call end as it does. */
  predicate Cause(call: Call, c: CancelState, also: bool, taken: bool, turn: Turn, outcome: Outcome) {
    match outcome
    case Stopped => turn.Notice? || (turn.Advance? && SeesStop(call, c, also))
    case Unavailable =>
      || (turn.Advance? && call.pc.New? && taken)
      || (turn.Break? && (call.pc.Building? || call.pc.Launching? || call.pc.Accepting? || call.pc.Handshake?
                          || call.pc.Hello?))
    case NotListening => turn.Break? && call.pc.Entering?
    case OutcomeUnknown => turn.Break? && (call.pc.Sending? || call.pc.Receiving?)
    case WaitFailed => turn.Break? && call.pc.Exiting?
    case Answered => turn.Advance? && call.pc.Exiting?
  }

  ghost predicate Causes(w: World, s: Step, p: nat, outcome: Outcome) {
    && s.Move? && s.p == p && Alive(w, p)
    && var call := w.calls[p]; Cause(call, w.cancels[call.c], w.also[call.c], call.id in w.used, s.turn, outcome)
  }

  lemma EndStep(call: Call, c: CancelState, also: bool, taken: bool, turn: Turn, outcome: Outcome)
    requires CanTurn(call, c, also, turn) && EndsAs(CallAfter(call, c, also, taken, turn).pc, outcome)
    ensures EndsAs(call.pc, outcome) || Cause(call, c, also, taken, turn, outcome)
  {
    match turn
    case Advance =>
      EndAdvanced(call, c, also, taken, outcome);
    case Break =>
      hide Advanced, SeesStop;
    case Notice =>
      hide Advanced, Broken, SeesStop;
  }

  lemma EndAdvanced(call: Call, c: CancelState, also: bool, taken: bool, outcome: Outcome)
    requires !call.pc.Done? && EndsAs(Advanced(call, c, also, taken), outcome)
    ensures EndsAs(call.pc, outcome) || Cause(call, c, also, taken, Advance, outcome)
  {}

  /** Each outcome has its cause, and only that: an answer came back and the broker's exit was awaited, the
      sending or the reply failed, the id was used before, or one of the steps before the commit failed. */
  lemma {:induction false} EndHasACause(ws: seq<World>, steps: seq<Step>, j: nat, p: nat, outcome: Outcome)
    returns (i: nat)
    requires IsRun(false, ws, steps) && j < |ws| && p in ws[j].calls && EndsAs(ws[j].calls[p].pc, outcome)
    ensures i < j && Causes(ws[i], steps[i], p, outcome)
    decreases j
  {
    hide CallAfter, CancelAfter, CanTurn, Cause;
    var w, s := ws[j - 1], steps[j - 1];
    assert Follows(w, s, ws[j]);
    i := j - 1;
    if s.Move? && s.p == p {
      var call := w.calls[p];
      EndStep(call, w.cancels[call.c], w.also[call.c], call.id in w.used, s.turn, outcome);
      if !Causes(w, s, p, outcome) {
        i := EndHasACause(ws, steps, j - 1, p, outcome);
      }
    } else {
      StandsStill(w, s, p);
      i := EndHasACause(ws, steps, j - 1, p, outcome);
    }
  }

  /** Whenever a call finds the owner's stop, the cancellation or the interrupt, at the start, after the
      launch, before the key or before the commit, it ends as stopped and its request never leaves; and
      nothing else ends it so. */
  lemma StoppedExactly(ws: seq<World>, steps: seq<Step>, j: nat, p: nat)
    requires IsRun(false, ws, steps) && j < |ws| && p in ws[j].calls
    ensures Stopping(ws[j].calls[p].pc) <==> exists i :: 0 <= i < j && StopsCall(ws[i], steps[i], p)
    ensures Stopping(ws[j].calls[p].pc) ==> !ws[j].calls[p].sent && !ws[j].calls[p].granted
  {
    if Stopping(ws[j].calls[p].pc) {
      var i := EndHasACause(ws, steps, j, p, Stopped);
      assert StopsCall(ws[i], steps[i], p);
      StopInvRun(false, ws, steps, j);
    }
    forall i | 0 <= i < j && StopsCall(ws[i], steps[i], p) ensures Stopping(ws[j].calls[p].pc) {
      StopStays(ws, steps, i, j, p);
    }
  }

  /** How far a call has come; negative when it has turned off the way to an answer. */
  function Stage(pc: Pc): int {
    match pc
    case New => 0 case CheckingFlag => 1 case CheckingAlso => 2 case Building => 3 case Reserving => 4
    case Entering => 5 case Firing => 6 case Launching => 7 case LaunchedFlag => 8 case LaunchedAlso => 9
    case Accepting => 10 case GateAlso => 11 case GateLock => 12 case Handshake => 13
    case Leaving(exit) => if exit.None? then 14 else -1
    case Hello => 15 case CommitAlso => 16 case CommitLock => 17 case Sending => 18 case Receiving => 19
    case Exiting => 20
    case Done(outcome) => if outcome.Answered? || outcome.OutcomeUnknown? || outcome.WaitFailed? then 21 else -1
  }

  predicate Polls(pc: Pc) {
    || pc.CheckingFlag? || pc.CheckingAlso? || pc.LaunchedFlag? || pc.LaunchedAlso? || pc.Accepting?
    || pc.GateAlso? || pc.GateLock? || pc.CommitAlso? || pc.CommitLock?
  }

  /** A poll of call `p` that finds no stop. */
  ghost predicate PollsFree(w: World, s: Step, p: nat, poll: Pc) {
    && s.Move? && s.p == p && s.turn.Advance? && Alive(w, p) && w.calls[p].pc == poll
    && !SeesStop(w.calls[p], w.cancels[w.calls[p].c], w.also[w.calls[p].c])
  }

  /** On the way to an answer a step leads to the next stage; only `Firing` can be skipped. */
  lemma StageRises(call: Call, c: CancelState, also: bool, taken: bool)
    requires CallInv(call, c) && !call.pc.Done? && Stage(Advanced(call, c, also, taken)) >= 0
    ensures var stage, after := Stage(call.pc), Stage(Advanced(call, c, also, taken));
            0 <= stage && (after == stage + 1 || (call.pc.Entering? && after == stage + 2))
  {}

  /** An error leads off the way, or to the end of it. */
  lemma StageBreaks(call: Call, c: CancelState, turn: Turn)
    requires CanTurn(call, c, true, turn) && !turn.Advance?
    ensures var after := Stage(CallAfter(call, c, true, true, turn).pc);
            after >= 0 ==> 18 <= Stage(call.pc) < after
  {}

  lemma StageNames(pc: Pc, poll: Pc)
    requires Polls(poll)
    ensures Stage(pc) == Stage(poll) ==> pc == poll
    ensures 0 < Stage(poll) < 18 && Stage(poll) !in {5, 6}
  {}

  lemma StageStep(call: Call, c: CancelState, also: bool, taken: bool, turn: Turn, poll: Pc)
    requires CanTurn(call, c, also, turn) && CallInv(call, c) && Polls(poll)
    requires Stage(CallAfter(call, c, also, taken, turn).pc) > Stage(poll)
    ensures Stage(call.pc) > Stage(poll) || (call.pc == poll && turn.Advance? && !SeesStop(call, c, also))
    ensures Stage(call.pc) < Stage(CallAfter(call, c, also, taken, turn).pc)
  {
    StageNames(call.pc, poll);
    if turn.Advance? {
      StageRises(call, c, also, taken);
      StoppingStep(call, c, also, taken, turn);
      StoppingHasNoStage(CallAfter(call, c, also, taken, turn).pc);
    } else {
      StageBreaks(call, c, turn);
    }
    hide Advanced, CanTurn, CallInv, Polls, SeesStop, Stopping;
  }

  lemma StoppingHasNoStage(pc: Pc)
    ensures Stopping(pc) ==> Stage(pc) < 0
  {}

  /** No call gets past a look without having looked there and found nothing. */
  lemma {:induction false} PassedFree(ws: seq<World>, steps: seq<Step>, j: nat, p: nat, poll: Pc) returns (i: nat)
    requires IsRun(false, ws, steps) && j < |ws| && p in ws[j].calls
    requires Polls(poll) && Stage(ws[j].calls[p].pc) > Stage(poll)
    ensures i < j && PollsFree(ws[i], steps[i], p, poll)
    ensures Stage(ws[j].calls[p].pc) == Stage(poll) + 1 ==>
              forall k | i < k < j :: !(steps[k].Move? && steps[k].p == p)
    decreases j
  {
    hide CallAfter, CancelAfter, CanTurn, SeesStop, CallInv, Polls, Stage;
    var w, s := ws[j - 1], steps[j - 1];
    assert Follows(w, s, ws[j]);
    i := j - 1;
    if s.Move? && s.p == p {
      var call := w.calls[p];
      StopInvRun(false, ws, steps, j - 1);
      StageStep(call, w.cancels[call.c], w.also[call.c], call.id in w.used, s.turn, poll);
      if !PollsFree(w, s, p, poll) {
        i := PassedFree(ws, steps, j - 1, p, poll);
      }
    } else {
      StandsStill(w, s, p);
      NewIsFirst(ws[j].calls[p].pc, poll);
      i := PassedFree(ws, steps, j - 1, p, poll);
    }
  }

  lemma NewIsFirst(pc: Pc, poll: Pc)
    requires Polls(poll) && Stage(pc) > Stage(poll)
    ensures !pc.New?
  {}

  /** The looks a call must have made before a claim; the last of them is the owner's condition. */
  function PollsBefore(point: Point): seq<Pc> {
    [CheckingFlag, CheckingAlso, LaunchedFlag, LaunchedAlso, Accepting, GateAlso]
    + if point == Commit then [GateLock, CommitAlso] else []
  }

  /** A key is released, or a commit granted, only to a call that looked at the start, after the launch, and
      last of all for this very claim, and found neither a cancellation nor the owner's stop. */
  lemma GrantedOnlyAfterFreePolls(ws: seq<World>, steps: seq<Step>, j: nat, c: nat, point: Point)
    requires IsRun(false, ws, steps) && j < |steps| && Grants(ws[j], steps[j], c, point)
    ensures forall poll | poll in PollsBefore(point) ::
              exists i :: 0 <= i < j && PollsFree(ws[i], steps[i], steps[j].p, poll)
    ensures var last := PollsBefore(point)[|PollsBefore(point)| - 1];
            && last == (if point == Commit then CommitAlso else GateAlso)
            && exists i :: 0 <= i < j && PollsFree(ws[i], steps[i], steps[j].p, last)
                           && forall k | i < k < j :: !(steps[k].Move? && steps[k].p == steps[j].p)
  {
    hide PollsFree;
    var p := steps[j].p;
    forall poll | poll in PollsBefore(point)
      ensures exists i :: 0 <= i < j && PollsFree(ws[i], steps[i], p, poll)
    {
      var i := PassedFree(ws, steps, j, p, poll);
    }
    var i := PassedFree(ws, steps, j, p, if point == Commit then CommitAlso else GateAlso);
  }

  // --------------------------------------------------------- no lost wake-up

  predicate InWaking(pc: Pc) {
    || pc.Firing? || pc.Launching? || pc.LaunchedFlag? || pc.LaunchedAlso? || pc.Accepting?
    || pc.GateAlso? || pc.GateLock? || pc.Handshake? || pc.Leaving?
  }

  ghost predicate WakePending(w: World, k: nat, p: nat) {
    k in w.cancellers && p in w.cancellers[k].pending
  }

  /** The registered wakers are those of the calls inside the `waking` block. */
  ghost predicate Registered(w: World) {
    && (forall p | p in w.calls :: w.calls[p].c in w.cancels)
    && (forall c, p | c in w.cancels ::
          p in w.cancels[c].wakers <==> p in w.calls && w.calls[p].c == c && InWaking(w.calls[p].pc))
  }

  /** Whoever stands there under a cancelled cancellation was woken or is about to be. */
  ghost predicate Woken(w: World, p: nat)
    requires p in w.calls && w.calls[p].c in w.cancels
  {
    InWaking(w.calls[p].pc) && w.cancels[w.calls[p].c].cancelled ==>
      w.calls[p].interrupted || w.calls[p].pc.Firing? || exists k :: WakePending(w, k, p)
  }

  ghost predicate WakeInv(w: World) {
    Registered(w) && forall p | p in w.calls :: Woken(w, p)
  }

  lemma WakersFollow(call: Call, p: nat, c: CancelState, also: bool, taken: bool, turn: Turn)
    requires CanTurn(call, c, also, turn) && (p in c.wakers <==> InWaking(call.pc))
    ensures p in CancelAfter(call.pc, p, c, turn).wakers <==> InWaking(CallAfter(call, c, also, taken, turn).pc)
  {
    match turn
    case Advance =>
      hide Broken;
    case _ =>
      hide Advanced;
  }

  lemma OtherWakersStay(pc: Pc, p: nat, c: CancelState, turn: Turn, q: nat)
    requires q != p
    ensures q in CancelAfter(pc, p, c, turn).wakers <==> q in c.wakers
  {}

  lemma MovesDoNotCancel(pc: Pc, p: nat, c: CancelState, turn: Turn)
    ensures CancelAfter(pc, p, c, turn).cancelled == c.cancelled
  {}

  lemma RegisteredMove(w: World, p: nat, turn: Turn)
    requires Registered(w) && Possible(w, Move(p, turn))
    ensures Registered(Next(w, Move(p, turn)))
  {
    hide CallAfter, CancelAfter, CanTurn, InWaking;
    var v := Next(w, Move(p, turn));
    var call := w.calls[p];
    CallKeepsName(call, w.cancels[call.c], w.also[call.c], call.id in w.used, turn);
    WakersFollow(call, p, w.cancels[call.c], w.also[call.c], call.id in w.used, turn);
    forall c, q | c in v.cancels
      ensures q in v.cancels[c].wakers <==> q in v.calls && v.calls[q].c == c && InWaking(v.calls[q].pc)
    {
      if q != p && c == call.c {
        OtherWakersStay(call.pc, p, w.cancels[call.c], turn, q);
      }
    }
  }

  lemma RegisteredElse(w: World, s: Step)
    requires Registered(w) && Possible(w, s) && !s.Move?
    ensures Registered(Next(w, s))
  {}

  /** A call that leaves `Firing` was just interrupted; no other step un-interrupts a call. */
  lemma InterruptStays(call: Call, c: CancelState, also: bool, taken: bool, turn: Turn)
    requires CanTurn(call, c, also, turn)
    ensures var after := CallAfter(call, c, also, taken, turn);
            && (call.interrupted || call.pc.Firing? ==> after.interrupted)
            && (InWaking(after.pc) && !InWaking(call.pc) && c.cancelled ==> after.pc.Firing?)
  {}

  lemma WokenMove(w: World, p: nat, turn: Turn, q: nat)
    requires WakeInv(w) && Possible(w, Move(p, turn)) && q in w.calls
    requires Registered(Next(w, Move(p, turn)))
    ensures Woken(Next(w, Move(p, turn)), q)
  {
    hide CallAfter, CancelAfter, CanTurn, InWaking;
    var v := Next(w, Move(p, turn));
    var call := w.calls[p];
    CallKeepsName(call, w.cancels[call.c], w.also[call.c], call.id in w.used, turn);
    InterruptStays(call, w.cancels[call.c], w.also[call.c], call.id in w.used, turn);
    MovesDoNotCancel(call.pc, p, w.cancels[call.c], turn);
    assert Woken(w, q);
    if k :| WakePending(w, k, q) {
      assert WakePending(v, k, q);
    }
  }

  lemma WokenElse(w: World, s: Step, q: nat)
    requires WakeInv(w) && Possible(w, s) && !s.Move? && q in Next(w, s).calls
    requires Registered(Next(w, s))
    ensures Woken(Next(w, s), q)
  {
    var v := Next(w, s);
    if q in w.calls && InWaking(v.calls[q].pc) && v.cancels[v.calls[q].c].cancelled {
      assert Woken(w, q);
      if s.CancelLock? && s.c == v.calls[q].c && !w.cancels[s.c].committed {
        assert WakePending(v, s.k, q);
      } else if k :| WakePending(w, k, q) {
        if !(s.Wake? && s.k == k && s.p == q) {
          assert WakePending(v, k, q);
        }
      }
    }
  }

  lemma WakeInvStep(w: World, s: Step)
    requires WakeInv(w) && Possible(w, s)
    ensures WakeInv(Next(w, s))
  {
    match s {
      case Move(p, turn) => RegisteredMove(w, p, turn);
      case _ => RegisteredElse(w, s);
    }
    forall q | q in Next(w, s).calls ensures Woken(Next(w, s), q) {
      if s.Move? {
        WokenMove(w, s.p, s.turn, q);
      } else {
        WokenElse(w, s, q);
      }
    }
  }

  lemma {:induction false} WakeInvRun(ws: seq<World>, steps: seq<Step>, i: nat)
    requires IsRun(false, ws, steps) && i < |ws|
    ensures WakeInv(ws[i])
  {
    if i > 0 {
      WakeInvRun(ws, steps, i - 1);
      assert Follows(ws[i - 1], steps[i - 1], ws[i]);
      WakeInvStep(ws[i - 1], steps[i - 1]);
    }
  }

  /** Once every cancel() has finished waking, no call still waits uninterrupted for its broker
      under a cancelled cancellation. */
  lemma NoLostWakeUp(ws: seq<World>, steps: seq<Step>, i: nat, p: nat)
    requires IsRun(false, ws, steps) && i < |ws| && p in ws[i].calls
    requires ws[i].calls[p].pc.Accepting? || ws[i].calls[p].pc.Handshake?
    requires ws[i].calls[p].c in ws[i].cancels && ws[i].cancels[ws[i].calls[p].c].cancelled
    requires forall k | k in ws[i].cancellers :: ws[i].cancellers[k].pending == {}
    ensures ws[i].calls[p].interrupted
  {
    WakeInvRun(ws, steps, i);
    assert Woken(ws[i], p);
    assert !exists k :: WakePending(ws[i], k, p);
  }

  // ------------------------------------------------------ nobody is stopped unasked

  /** Only a cancelled cancellation interrupts, and what it is about to interrupt are calls under it. */
  ghost predicate AskedInv(w: World) {
    && Registered(w)
    && (forall p | p in w.calls && (w.calls[p].interrupted || w.calls[p].pc.Firing?) ::
          w.cancels[w.calls[p].c].cancelled)
    && (forall k, p | k in w.cancellers && p in w.cancellers[k].pending ::
          p in w.calls && w.cancels[w.calls[p].c].cancelled)
  }

  lemma InterruptIsAsked(call: Call, c: CancelState, also: bool, taken: bool, turn: Turn)
    requires CanTurn(call, c, also, turn) && (call.interrupted || call.pc.Firing? ==> c.cancelled)
    ensures var after := CallAfter(call, c, also, taken, turn);
            after.interrupted || after.pc.Firing? ==> c.cancelled
  {}

  lemma AskedMove(w: World, p: nat, turn: Turn)
    requires AskedInv(w) && Possible(w, Move(p, turn))
    ensures AskedInv(Next(w, Move(p, turn)))
  {
    hide CallAfter, CancelAfter, CanTurn, InWaking;
    RegisteredMove(w, p, turn);
    var call := w.calls[p];
    CallKeepsName(call, w.cancels[call.c], w.also[call.c], call.id in w.used, turn);
    InterruptIsAsked(call, w.cancels[call.c], w.also[call.c], call.id in w.used, turn);
    MovesDoNotCancel(call.pc, p, w.cancels[call.c], turn);
    hide Registered;
  }

  lemma AskedElse(w: World, s: Step)
    requires AskedInv(w) && Possible(w, s) && !s.Move?
    ensures AskedInv(Next(w, s))
  {
    RegisteredElse(w, s);
    hide InWaking;
  }

  lemma {:induction false} AskedRun(ws: seq<World>, steps: seq<Step>, i: nat)
    requires IsRun(false, ws, steps) && i < |ws|
    ensures AskedInv(ws[i])
  {
    if i > 0 {
      AskedRun(ws, steps, i - 1);
      assert Follows(ws[i - 1], steps[i - 1], ws[i]);
      hide AskedInv, Next, Possible;
      if steps[i - 1].Move? {
        AskedMove(ws[i - 1], steps[i - 1].p, steps[i - 1].turn);
      } else {
        AskedElse(ws[i - 1], steps[i - 1]);
      }
    }
  }

  /** A call ends as stopped only if, at a moment while it ran, its cancellation was cancelled or its
      owner's condition said stop. */
  lemma StoppedOnlyIfAsked(ws: seq<World>, steps: seq<Step>, j: nat, p: nat)
    requires IsRun(false, ws, steps) && j < |ws| && p in ws[j].calls && Stopping(ws[j].calls[p].pc)
    ensures exists i :: 0 <= i < j && Alive(ws[i], p)
                        && (ws[i].cancels[ws[i].calls[p].c].cancelled || ws[i].also[ws[i].calls[p].c])
  {
    var i := EndHasACause(ws, steps, j, p, Stopped);
    AskedRun(ws, steps, i);
    assert Follows(ws[i], steps[i], ws[i + 1]);
  }

  // ------------------------------------------------- one request per action id

  ghost predicate Holds(call: Call) {
    call.reserved || InWindow(call)
  }

  /** The history of one call agrees with where it stands. */
  ghost predicate HistoryInv(call: Call) {
    && (call.sent ==> call.reserved && (call.pc.Receiving? || call.pc.Exiting? || call.pc.Done?))
    && (call.pc.New? || InWindow(call) ==> !call.reserved)
    && (call.pc.New? || InWindow(call) || call.pc.Done? || call.reserved)
  }

  lemma HistoryInvKept(call: Call, c: CancelState, also: bool, taken: bool, turn: Turn)
    requires HistoryInv(call) && CanTurn(call, c, also, turn)
    ensures HistoryInv(CallAfter(call, c, also, taken, turn))
    ensures Holds(CallAfter(call, c, also, taken, turn)) ==> Holds(call) || (call.pc.New? && !taken)
    ensures CallAfter(call, c, also, taken, turn).reserved ==>
              call.reserved || (call.pc.Reserving? && turn.Advance?)
  {}

  ghost predicate SentBy(w: World, id: string, p: nat) {
    p in w.calls && w.calls[p].id == id && w.calls[p].sent
  }

  ghost predicate OnceInv(w: World) {
    && (forall p | p in w.calls :: HistoryInv(w.calls[p]))
    && (forall p | p in w.calls && w.calls[p].reserved :: w.calls[p].id in w.used)
    && HoldersDiffer(w)
    && (forall id :: w.sends[id] <= 1)
    && (forall id | w.sends[id] > 0 :: exists p :: SentBy(w, id, p))
  }

  ghost predicate HoldersDiffer(w: World) {
    forall p, q | p in w.calls && q in w.calls && p != q && Holds(w.calls[p]) && Holds(w.calls[q]) ::
      w.calls[p].id != w.calls[q].id
  }

  lemma HoldersDifferKept(w: World, p: nat, turn: Turn)
    requires OnceInv(w) && Possible(w, Move(p, turn)) && KeepsSerial(w, Move(p, turn))
    ensures HoldersDiffer(Next(w, Move(p, turn)))
  {
    hide CallAfter, CancelAfter, CanTurn, HistoryInv;
    var call := w.calls[p];
    CallKeepsName(call, w.cancels[call.c], w.also[call.c], call.id in w.used, turn);
    HistoryInvKept(call, w.cancels[call.c], w.also[call.c], call.id in w.used, turn);
  }

  lemma SendsKept(w: World, p: nat, turn: Turn)
    requires OnceInv(w) && Possible(w, Move(p, turn))
    ensures var v := Next(w, Move(p, turn));
            (forall id :: v.sends[id] <= 1) && (forall id | v.sends[id] > 0 :: exists q :: SentBy(v, id, q))
  {
    hide CanTurn, CancelAfter;
    var v := Next(w, Move(p, turn));
    var call := w.calls[p];
    if call.pc.Sending? && !turn.Notice? {
      assert forall q :: !SentBy(w, call.id, q);
      assert SentBy(v, call.id, p);
    }
    forall id | v.sends[id] > 0 ensures exists q :: SentBy(v, id, q) {
      if w.sends[id] > 0 {
        var q :| SentBy(w, id, q);
        assert SentBy(v, id, q);
      }
    }
  }

  lemma ReservedKept(w: World, p: nat, turn: Turn)
    requires OnceInv(w) && Possible(w, Move(p, turn))
    ensures var v := Next(w, Move(p, turn));
            (forall q | q in v.calls :: HistoryInv(v.calls[q]))
            && (forall q | q in v.calls && v.calls[q].reserved :: v.calls[q].id in v.used)
  {
    hide CallAfter, CancelAfter, CanTurn, HistoryInv;
    var call := w.calls[p];
    CallKeepsName(call, w.cancels[call.c], w.also[call.c], call.id in w.used, turn);
    HistoryInvKept(call, w.cancels[call.c], w.also[call.c], call.id in w.used, turn);
  }

  /** The steps of other threads only interrupt calls and add new ones. */
  ghost predicate OnlyInterrupted(call: Call, after: Call) {
    && after.id == call.id && after.pc == call.pc && after.reserved == call.reserved && after.sent == call.sent
  }

  ghost predicate OnlyInterrupts(w: World, v: World) {
    && v.used == w.used && v.sends == w.sends
    && (forall p | p in w.calls :: p in v.calls && OnlyInterrupted(w.calls[p], v.calls[p]))
    && (forall p | p in v.calls && p !in w.calls ::
          v.calls[p].pc.New? && !v.calls[p].reserved && !v.calls[p].sent)
  }

  lemma ElseOnlyInterrupts(w: World, s: Step)
    requires Possible(w, s) && !s.Move?
    ensures OnlyInterrupts(w, Next(w, s))
  {}

  lemma HoldersDifferElse(w: World, v: World)
    requires HoldersDiffer(w) && OnlyInterrupts(w, v)
    ensures HoldersDiffer(v)
  {
    forall p, q | p in v.calls && q in v.calls && p != q && Holds(v.calls[p]) && Holds(v.calls[q])
      ensures v.calls[p].id != v.calls[q].id
    {
      assert p in w.calls && q in w.calls && Holds(w.calls[p]) && Holds(w.calls[q]);
    }
  }

  lemma OnceInvElse(w: World, v: World)
    requires OnceInv(w) && OnlyInterrupts(w, v)
    ensures OnceInv(v)
  {
    forall p | p in v.calls ensures HistoryInv(v.calls[p]) {
      assert p in w.calls ==> HistoryInv(w.calls[p]);
    }
    HoldersDifferElse(w, v);
    forall id | v.sends[id] > 0 ensures exists p :: SentBy(v, id, p) {
      var p :| SentBy(w, id, p);
      assert SentBy(v, id, p);
    }
  }

  lemma OnceInvStep(w: World, s: Step)
    requires OnceInv(w) && Possible(w, s) && KeepsSerial(w, s)
    ensures OnceInv(Next(w, s))
  {
    match s
    case Move(p, turn) =>
      ReservedKept(w, p, turn);
      HoldersDifferKept(w, p, turn);
      SendsKept(w, p, turn);
    case _ =>
      ElseOnlyInterrupts(w, s);
      OnceInvElse(w, Next(w, s));
  }

  lemma {:induction false} OnceInvRun(ws: seq<World>, steps: seq<Step>, i: nat)
    requires IsRun(true, ws, steps) && i < |ws|
    ensures OnceInv(ws[i])
  {
    if i > 0 {
      OnceInvRun(ws, steps, i - 1);
      assert Follows(ws[i - 1], steps[i - 1], ws[i]);
      OnceInvStep(ws[i - 1], steps[i - 1]);
    }
  }

  ghost predicate SentOnce(w: World) {
    forall id :: w.sends[id] <= 1
  }

  lemma Extend(serial: bool, ws: seq<World>, steps: seq<Step>, s: Step)
    returns (vs: seq<World>, more: seq<Step>)
    requires IsRun(serial, ws, steps) && Possible(ws[|steps|], s) && (serial ==> KeepsSerial(ws[|steps|], s))
    ensures IsRun(serial, vs, more) && vs[|more|] == Next(ws[|steps|], s)
  {
    vs, more := ws + [Next(ws[|steps|], s)], steps + [s];
    forall i | 0 <= i < |more|
      ensures Follows(vs[i], more[i], vs[i + 1]) && (serial ==> KeepsSerial(vs[i], more[i]))
    {
      if i < |steps| {
        assert Follows(ws[i], steps[i], ws[i + 1]);
      }
    }
  }

  /** A call nobody disturbs. */
  ghost predicate Calm(w: World, p: nat) {
    && Alive(w, p) && !w.also[w.calls[p].c] && !w.cancels[w.calls[p].c].cancelled && !w.calls[p].interrupted
  }

  /** How many steps an undisturbed call is away from being granted the commit. */
  function Distance(pc: Pc): nat {
    match pc
    case CheckingFlag => 16 case CheckingAlso => 15 case Building => 14 case Reserving => 13 case Entering => 12
    case Launching => 11 case LaunchedFlag => 10 case LaunchedAlso => 9 case Accepting => 8 case GateAlso => 7
    case GateLock => 6 case Handshake => 5 case Leaving(exit) => if exit.None? then 4 else 0 case Hello => 3
    case CommitAlso => 2 case CommitLock => 1 case _ => 0
  }

  lemma CalmAdvance(call: Call, p: nat, c: CancelState, taken: bool)
    requires Distance(call.pc) > 0 && !c.cancelled && !call.interrupted
    ensures CanTurn(call, c, false, Advance)
    ensures var after := CallAfter(call, c, false, taken, Advance);
            Distance(after.pc) == Distance(call.pc) - 1 && !after.interrupted
            && (Distance(after.pc) == 0 ==> after.pc.Sending?) && !call.pc.Sending?
  {}

  /** An undisturbed call that has seen its id unused sends its request, whatever other calls do. */
  lemma {:induction false} SendsUndisturbed(ws: seq<World>, steps: seq<Step>, p: nat)
    returns (vs: seq<World>, more: seq<Step>)
    requires IsRun(false, ws, steps) && Calm(ws[|steps|], p)
    requires ws[|steps|].calls[p].pc.Sending? || Distance(ws[|steps|].calls[p].pc) > 0
    ensures IsRun(false, vs, more)
    ensures vs[|more|].sends == ws[|steps|].sends + multiset{ws[|steps|].calls[p].id}
    ensures forall q | q != p && Calm(ws[|steps|], q) ::
              Calm(vs[|more|], q) && vs[|more|].calls[q] == ws[|steps|].calls[q]
    decreases Distance(ws[|steps|].calls[p].pc)
  {
    var w := ws[|steps|];
    var call := w.calls[p];
    MovesDoNotCancel(call.pc, p, w.cancels[call.c], Advance);
    CallKeepsName(call, w.cancels[call.c], false, call.id in w.used, Advance);
    if call.pc.Sending? {
      vs, more := Extend(false, ws, steps, Move(p, Advance));
    } else {
      hide CallAfter, CancelAfter, CanTurn, Distance, IsRun;
      CalmAdvance(call, p, w.cancels[call.c], call.id in w.used);
      vs, more := Extend(false, ws, steps, Move(p, Advance));
      vs, more := SendsUndisturbed(vs, more, p);
    }
  }

  /** Wherever a run has two undisturbed calls for one id between look-up and record, both requests
      can still leave. */
  lemma OverlapSendsTwice(ws: seq<World>, steps: seq<Step>, p: nat, q: nat)
    returns (vs: seq<World>, more: seq<Step>)
    requires IsRun(false, ws, steps) && p != q
    requires Calm(ws[|steps|], p) && Calm(ws[|steps|], q)
    requires ws[|steps|].calls[p].id == ws[|steps|].calls[q].id
    requires InWindow(ws[|steps|].calls[p]) && InWindow(ws[|steps|].calls[q])
    ensures IsRun(false, vs, more)
    ensures var id := ws[|steps|].calls[p].id; vs[|more|].sends[id] == ws[|steps|].sends[id] + 2
  {
    vs, more := SendsUndisturbed(ws, steps, p);
    assert vs[|more|].calls[q] == ws[|steps|].calls[q];
    vs, more := SendsUndisturbed(vs, more, q);
  }

  /** Such a run exists for every id: both calls find it unused, and both requests leave. */
  lemma OverlappingCallsSendTwice(id: string) returns (ws: seq<World>, steps: seq<Step>)
    ensures IsRun(false, ws, steps) && ws[|steps|].sends[id] == 2
  {
    ws, steps := [Start()], [];
    ws, steps := Extend(false, ws, steps, NewCancellation(0));
    ws, steps := Extend(false, ws, steps, Perform(0, id, 0));
    ws, steps := Extend(false, ws, steps, Perform(1, id, 0));
    ws, steps := Extend(false, ws, steps, Move(0, Advance));
    ws, steps := Extend(false, ws, steps, Move(1, Advance));
    ws, steps := OverlapSendsTwice(ws, steps, 0, 1);
  }

  /** The session's own record makes the request leave at most once per action id exactly when
      calls for one id do not overlap between looking it up and recording it: the set of used ids
      is read and extended outside any lock. The set belongs to one session. */
  lemma OncePerActionIdExactly(serial: bool)
    ensures (forall ws, steps | IsRun(serial, ws, steps) :: forall w | w in ws :: SentOnce(w)) <==> serial
  {
    if serial {
      forall ws, steps | IsRun(serial, ws, steps) ensures forall w | w in ws :: SentOnce(w) {
        forall w | w in ws ensures SentOnce(w) {
          var i :| 0 <= i < |ws| && ws[i] == w;
          OnceInvRun(ws, steps, i);
        }
      }
    } else {
      var ws, steps := OverlappingCallsSendTwice("print");
      assert ws[|steps|] in ws;
    }
  }
}
