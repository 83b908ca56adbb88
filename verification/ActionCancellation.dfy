/** Stop for actions that run and for turns that have not started one yet.

    `begin` has two locked blocks: it looks at the epoch, and it registers. `cancel_all` advances the
    epoch and takes its snapshot in one block, then cancels the tokens one by one. Any number of
    threads interleave at these steps. */
module ActionCancellation {

  import opened Options

  datatype Reason = UserStop | Shutdown | Pause
  /** A token is its cancellation reason; cancelling is one-way. */
  type Token = Option<Reason>

  function CancelToken(t: Token, reason: Reason): Token {
    if t.Some? then t else Some(reason)
  }

  // ------------------------------------------------------------------ the registry

  /** Why a turn marked in epoch `started` must not start new work, if it must not. */
  function Stopped(closed: bool, epoch: nat, lastReason: Option<Reason>, started: Option<nat>): Option<Reason> {
    if closed then Some(Shutdown)
    else if started.Some? && started.value != epoch then lastReason
    else None
  }

  class ActiveActionRegistry {
    var tokens: map<nat, Token>
    var active: set<nat>
    var nextKey: nat
    var epoch: nat
    var lastReason: Option<Reason>
    var closed: bool

    ghost predicate Valid()
      reads this
    {
      && active <= tokens.Keys
      && (forall k | k in tokens :: k < nextKey)
      && (epoch > 0 ==> lastReason.Some?)
    }

    constructor ()
      ensures Valid() && active == {} && epoch == 0 && !closed
    {
      tokens, active, nextKey := map[], {}, 0;
      epoch, lastReason, closed := 0, None, false;
    }

    method MarkTurnStart() returns (started: nat)
      ensures started == epoch
    {
      started := epoch;
    }

    /** Both blocks of `begin` with nothing in between. */
    method Begin(started: Option<nat>) returns (key: nat)
      requires Valid()
      modifies this
      ensures Valid() && key == old(nextKey) && active == old(active) + {key}
      ensures tokens == old(tokens)[key := Stopped(closed, epoch, lastReason, started)]
      ensures epoch == old(epoch) && closed == old(closed) && lastReason == old(lastReason)
    {
      var stopped := Stopped(closed, epoch, lastReason, started);
      key := nextKey;
      nextKey := nextKey + 1;
      tokens := tokens[key := stopped];
      active := active + {key};
    }

    method End(key: nat)
      requires Valid()
      modifies this`active
      ensures Valid() && active == old(active) - {key}
    {
      active := active - {key};
    }

    /** Returns the actions it cancelled: those registered and not cancelled before. */
    method CancelAll(reason: Reason) returns (cancelled: set<nat>)
      requires Valid()
      modifies this
      ensures Valid() && epoch == old(epoch) + 1 && lastReason == Some(reason)
      ensures active == old(active) && closed == old(closed) && nextKey == old(nextKey)
      ensures tokens == map k | k in old(tokens) ::
                          if k in active then CancelToken(old(tokens)[k], reason) else old(tokens)[k]
      ensures cancelled == set k | k in old(tokens) && k in active && old(tokens)[k].None?
    {
      epoch := epoch + 1;
      lastReason := Some(reason);
      cancelled := {};
      var current := active;
      while current != {}
        invariant current <= active && tokens.Keys == old(tokens).Keys && active == old(active)
        invariant epoch == old(epoch) + 1 && lastReason == Some(reason)
        invariant closed == old(closed) && nextKey == old(nextKey)
        invariant forall k | k in tokens ::
                    tokens[k] == if k in active && k !in current then CancelToken(old(tokens)[k], reason)
                                 else old(tokens)[k]
        invariant cancelled == set k | k in old(tokens) && k in active && k !in current && old(tokens)[k].None?
      {
        var k :| k in current;
        current := current - {k};
        if tokens[k].None? {
          cancelled := cancelled + {k};
        }
        tokens := tokens[k := CancelToken(tokens[k], reason)];
      }
      assert cancelled == set k | k in old(tokens) && k in active && old(tokens)[k].None?;
    }

    method Close() returns (cancelled: set<nat>)
      requires Valid()
      modifies this
      ensures Valid() && closed && active == old(active) && nextKey == old(nextKey)
      ensures epoch == old(epoch) + 1 && lastReason == Some(Shutdown)
      ensures tokens == map k | k in old(tokens) ::
                          if k in active then CancelToken(old(tokens)[k], Shutdown) else old(tokens)[k]
      ensures cancelled == set k | k in old(tokens) && k in active && old(tokens)[k].None?
    {
      closed := true;
      cancelled := CancelAll(Shutdown);
    }
  }

  // --------------------------------------------------------------- interleavings

  /** An action and the history that decided its fate: the epoch its turn was marked in, and the
      epochs in which its `begin` looked and registered. */
  datatype Action = Action(token: Token, marked: Option<nat>, looked: nat, closedAtLook: bool, entered: Option<nat>,
                           done: bool)

  /** `sweeps` are the `cancel_all` calls still cancelling their snapshot. */
  datatype World = World(actions: map<nat, Action>, epoch: nat, lastReason: Option<Reason>, closed: bool,
                         turns: map<nat, nat>, sweeps: map<nat, Sweep>)
  datatype Sweep = Sweep(reason: Reason, todo: set<nat>)

  datatype Step =
    | MarkTurn(thread: nat)
    | Look(a: nat, thread: nat)            // first block of begin
    | Register(a: nat)                     // second block of begin
    | Finish(a: nat)
    | CloseFlag
    | CancelAll(k: nat, reason: Reason)    // the locked block of cancel_all
    | CancelOne(k: nat, a: nat)            // one token of its snapshot

  predicate Registered(a: Action) { a.entered.Some? }

  function Start(): World {
    World(map[], 0, None, false, map[], map[])
  }

  predicate Possible(w: World, s: Step) {
    match s
    case Look(a, _) => a !in w.actions
    case Register(a) => a in w.actions && !Registered(w.actions[a])
    case Finish(a) => a in w.actions && Registered(w.actions[a])
    case CancelAll(k, _) => k !in w.sweeps
    case CancelOne(k, a) => k in w.sweeps && a in w.sweeps[k].todo && a in w.actions
    case _ => true
  }

  function Next(w: World, s: Step): World
    requires Possible(w, s)
  {
    match s
    case MarkTurn(t) => w.(turns := w.turns[t := w.epoch])
    case Look(a, t) =>
      var marked := if t in w.turns then Some(w.turns[t]) else None;
      w.(actions := w.actions[a := Action(Stopped(w.closed, w.epoch, w.lastReason, marked),
                                          marked, w.epoch, w.closed, None, false)])
    case Register(a) => w.(actions := w.actions[a := w.actions[a].(entered := Some(w.epoch))])
    case Finish(a) => w.(actions := w.actions[a := w.actions[a].(done := true)])
    case CloseFlag => w.(closed := true)
    case CancelAll(k, reason) =>
      w.(epoch := w.epoch + 1, lastReason := Some(reason),
         sweeps := w.sweeps[k := Sweep(reason, set a | a in w.actions && Registered(w.actions[a])
                                                       && !w.actions[a].done)])
    case CancelOne(k, a) =>
      var rest := w.sweeps[k].(todo := w.sweeps[k].todo - {a});
      w.(sweeps := w.sweeps[k := rest],
         actions := w.actions[a := w.actions[a].(token := CancelToken(w.actions[a].token, rest.reason))])
  }

  ghost predicate Follows(w: World, s: Step, v: World) {
    Possible(w, s) && v == Next(w, s)
  }

  ghost predicate IsRun(ws: seq<World>, steps: seq<Step>) {
    && |ws| == |steps| + 1 && ws[0] == Start()
    && forall i | 0 <= i < |steps| :: Follows(ws[i], steps[i], ws[i + 1])
  }

  /** Born cancelled: the registry was closed, or a Stop came between the turn's mark and the look. */
  predicate BornCancelled(a: Action) {
    a.closedAtLook || (a.marked.Some? && a.marked.value != a.looked)
  }

  ghost predicate Sweeping(w: World, k: nat, a: nat) {
    k in w.sweeps && a in w.sweeps[k].todo
  }

  /** An action is cancelled, or about to be, exactly if it was born so or a cancel_all came after it
      registered. */
  ghost predicate ActionInv(w: World, a: nat)
    requires a in w.actions
  {
    var act := w.actions[a];
    && act.looked <= w.epoch
    && (act.marked.Some? ==> act.marked.value <= act.looked)
    && (Registered(act) ==> act.looked <= act.entered.value <= w.epoch)
    && (BornCancelled(act) ==> act.token.Some?)
    && (act.token.Some? ==> BornCancelled(act) || (Registered(act) && act.entered.value < w.epoch))
    && (Registered(act) && !act.done && act.entered.value < w.epoch ==>
          act.token.Some? || exists k :: Sweeping(w, k, a))
  }

  ghost predicate SweepInv(w: World, k: nat, a: nat) {
    a in w.actions && Registered(w.actions[a]) && w.actions[a].entered.value < w.epoch
  }

  ghost predicate Inv(w: World) {
    && (w.epoch > 0 ==> w.lastReason.Some?)
    && (forall t | t in w.turns :: w.turns[t] <= w.epoch)
    && (forall a | a in w.actions :: ActionInv(w, a))
    && (forall k, a | Sweeping(w, k, a) :: SweepInv(w, k, a))
  }

  lemma InvAction(w: World, s: Step, a: nat)
    requires Inv(w) && Possible(w, s) && a in w.actions
    ensures a in Next(w, s).actions && ActionInv(Next(w, s), a)
  {
    var v := Next(w, s);
    assert ActionInv(w, a);
    if s.CancelAll? && Registered(w.actions[a]) && !w.actions[a].done {
      assert Sweeping(v, s.k, a);
    }
    if s.CancelOne? && s.a == a {
      assert Sweeping(w, s.k, a) && SweepInv(w, s.k, a);
    }
    forall k | Sweeping(w, k, a) && !(s.CancelOne? && s.k == k && s.a == a) ensures Sweeping(v, k, a) {}
  }

  lemma InvSweep(w: World, s: Step, k: nat, a: nat)
    requires Inv(w) && Possible(w, s) && Sweeping(Next(w, s), k, a)
    ensures SweepInv(Next(w, s), k, a)
  {
    if Sweeping(w, k, a) {
      assert SweepInv(w, k, a);
    } else {
      assert ActionInv(w, a);
    }
  }

  lemma InvLook(w: World, s: Step)
    requires Inv(w) && Possible(w, s) && s.Look?
    ensures ActionInv(Next(w, s), s.a)
  {}

  lemma InvStep(w: World, s: Step)
    requires Inv(w) && Possible(w, s)
    ensures Inv(Next(w, s))
  {
    hide ActionInv, SweepInv;
    var v := Next(w, s);
    forall a | a in v.actions ensures ActionInv(v, a) {
      if a in w.actions {
        InvAction(w, s, a);
      } else {
        InvLook(w, s);
      }
    }
    forall k, a | Sweeping(v, k, a) ensures SweepInv(v, k, a) {
      InvSweep(w, s, k, a);
    }
  }

  lemma {:induction false} InvRun(ws: seq<World>, steps: seq<Step>, i: nat)
    requires IsRun(ws, steps) && i < |ws|
    ensures Inv(ws[i])
  {
    if i > 0 {
      InvRun(ws, steps, i - 1);
      assert Follows(ws[i - 1], steps[i - 1], ws[i]);
      InvStep(ws[i - 1], steps[i - 1]);
    }
  }

  // ----------------------------------------------------------------- main results

  /** The `begin` of an action straddles a Stop: it looked before a cancel_all and registered after
      it, with no cancel_all since. */
  predicate Straddles(w: World, a: Action) {
    && !BornCancelled(a)
    && (Registered(a) ==> a.looked < a.entered.value == w.epoch)
    && (!Registered(a) ==> a.looked < w.epoch)
  }

  /** Once no cancel_all is still sweeping, an action of a turn marked before the last Stop runs on
      uncancelled exactly if its `begin` straddles a Stop. */
  lemma SurvivorsStraddle(ws: seq<World>, steps: seq<Step>, i: nat, a: nat)
    requires IsRun(ws, steps) && i < |ws| && a in ws[i].actions && !ws[i].actions[a].done
    requires var act := ws[i].actions[a]; act.marked.Some? && act.marked.value < ws[i].epoch
    requires forall k :: !Sweeping(ws[i], k, a)
    ensures ws[i].actions[a].token.None? <==> Straddles(ws[i], ws[i].actions[a])
  {
    InvRun(ws, steps, i);
    assert ActionInv(ws[i], a);
  }

  /** Had `begin` been one step, Stop would reach every turn already begun. */
  lemma AtomicBeginLeavesNoSurvivor(ws: seq<World>, steps: seq<Step>, i: nat, a: nat)
    requires IsRun(ws, steps) && i < |ws| && a in ws[i].actions && !ws[i].actions[a].done
    requires var act := ws[i].actions[a];
             act.marked.Some? && act.marked.value < ws[i].epoch && act.entered == Some(act.looked)
    requires forall k :: !Sweeping(ws[i], k, a)
    ensures ws[i].actions[a].token.Some?
  {
    SurvivorsStraddle(ws, steps, i, a);
  }

  /** Cancelling is one-way, and the first reason stays. */
  lemma {:induction false} FirstReasonStays(ws: seq<World>, steps: seq<Step>, i: nat, j: nat, a: nat)
    requires IsRun(ws, steps) && i <= j < |ws| && a in ws[i].actions && ws[i].actions[a].token.Some?
    ensures a in ws[j].actions && ws[j].actions[a].token == ws[i].actions[a].token
    decreases j
  {
    if i < j {
      FirstReasonStays(ws, steps, i, j - 1, a);
      assert Follows(ws[j - 1], steps[j - 1], ws[j]);
    }
  }

  /** A Stop never poisons a later turn: while the registry is open, an action of a turn marked after
      the last Stop is not cancelled. */
  lemma LaterTurnUnaffected(ws: seq<World>, steps: seq<Step>, i: nat, a: nat)
    requires IsRun(ws, steps) && i < |ws| && a in ws[i].actions
    requires ws[i].actions[a].marked == Some(ws[i].epoch) && !ws[i].actions[a].closedAtLook
    ensures ws[i].actions[a].token.None?
  {
    InvRun(ws, steps, i);
    assert ActionInv(ws[i], a);
  }

  lemma {:induction false} ClosedStays(ws: seq<World>, steps: seq<Step>, i: nat, j: nat)
    requires IsRun(ws, steps) && i <= j < |ws| && ws[i].closed
    ensures ws[j].closed
    decreases j
  {
    if i < j {
      ClosedStays(ws, steps, i, j - 1);
      assert Follows(ws[j - 1], steps[j - 1], ws[j]);
    }
  }

  /** After `close` has set its flag every new action is born cancelled. */
  lemma BornCancelledAfterClose(ws: seq<World>, steps: seq<Step>, i: nat, j: nat)
    requires IsRun(ws, steps) && i <= j < |steps| && ws[i].closed && steps[j].Look?
    ensures steps[j].a in ws[j + 1].actions && ws[j + 1].actions[steps[j].a].token == Some(Shutdown)
  {
    ClosedStays(ws, steps, i, j);
    assert Follows(ws[j], steps[j], ws[j + 1]);
  }

  lemma Extend(ws: seq<World>, steps: seq<Step>, s: Step) returns (vs: seq<World>, more: seq<Step>)
    requires IsRun(ws, steps) && Possible(ws[|steps|], s)
    ensures IsRun(vs, more) && vs[|more|] == Next(ws[|steps|], s)
  {
    vs, more := ws + [Next(ws[|steps|], s)], steps + [s];
    forall i | 0 <= i < |more| ensures Follows(vs[i], more[i], vs[i + 1]) {
      if i < |steps| {
        assert Follows(ws[i], steps[i], ws[i + 1]);
      }
    }
  }

  /** The gap is real: a Stop between the two blocks of `begin` misses an action of a turn already
      begun, which then runs uncancelled. */
  lemma StopMissesStraddlingBegin() returns (ws: seq<World>, steps: seq<Step>)
    ensures IsRun(ws, steps) && 0 in ws[|steps|].actions
    ensures var w := ws[|steps|];
            w.actions[0].marked == Some(0) && w.epoch == 1 && Registered(w.actions[0])
            && w.actions[0].token.None? && forall k, a :: !Sweeping(w, k, a)
  {
    ws, steps := [Start()], [];
    ws, steps := Extend(ws, steps, MarkTurn(7));
    ws, steps := Extend(ws, steps, Look(0, 7));
    ws, steps := Extend(ws, steps, CancelAll(0, UserStop));
    ws, steps := Extend(ws, steps, Register(0));
  }
}
