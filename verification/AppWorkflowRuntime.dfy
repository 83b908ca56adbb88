/** Answers to workflow prompts: from the person's decision to the started step.

    `resolve` looks at the pause flag, finds the open prompt, asks for the secret where the phase
    needs one, takes the identity and starts the step. Each of these is one atomic step of its
    thread; other answers, Stop, expiry, new prompts and shutdown run in between. */
module AppWorkflowRuntime {
  import opened ApprovalLedger

  const APP_WORKFLOW: set<Kind> := {AppWorkflow}

  predicate NeedsSecret(phase: Phase) {
    phase.Print?
  }

  datatype Pc =
    | New | Opening | Verifying(step: Payload) | Taking(step: Payload)
    | Refused | Declined | Started(step: Payload)

  /** `secretAccepted` is history: the secret store accepted the secret typed for this answer. */
  datatype Resolve = Resolve(token: string, approved: bool, pc: Pc, secretAccepted: bool)

  datatype Runtime = Runtime(ledger: World, paused: bool, resolves: map<nat, Resolve>, started: multiset<string>)

  datatype Action =
    | OfLedger(step: Step)                 // prompts, Stop, shutdown, expiry, other consumers
    | SetPaused(value: bool)
    | Answer(r: nat, token: string, approved: bool)
    | LookAtPause(r: nat)
    | FindPrompt(r: nat)
    | CheckSecret(r: nat, accepted: bool)  // wrong, locked and unavailable all count as not accepted
    | TakePrompt(r: nat)

  function Idle(): Runtime {
    Runtime(Start(), false, map[], multiset{})
  }

  /** The prompts of this kind are those `_prompt` issues. */
  predicate Can(w: Runtime, a: Action) {
    match a
    case OfLedger(s) =>
      Possible(w.ledger, s) && (s.IssueOne? && s.t.kind.AppWorkflow? ==> s.t.payload.WorkflowStep?)
    case SetPaused(_) => true
    case Answer(r, _, _) => r !in w.resolves
    case LookAtPause(r) => r in w.resolves && w.resolves[r].pc.New?
    case FindPrompt(r) => r in w.resolves && w.resolves[r].pc.Opening?
    case CheckSecret(r, _) => r in w.resolves && w.resolves[r].pc.Verifying?
    case TakePrompt(r) => r in w.resolves && w.resolves[r].pc.Taking?
  }

  /** What an action does to the ledger; the actions that leave it alone let no time pass. */
  function LedgerStep(w: Runtime, a: Action): Step
    requires Can(w, a)
  {
    match a
    case OfLedger(s) => s
    case FindPrompt(_) => DropSome(Unexpired(w.ledger.now), STALE_EXPIRED)
    case TakePrompt(r) => TakeOne(w.resolves[r].token, APP_WORKFLOW)
    case _ => Tick(0.0)
  }

  function Found(w: Runtime, token: string): seq<Ticket> {
    var found := Find(Expire(w.ledger.l, w.ledger.now).open, token);
    if found != [] && found[0].kind.AppWorkflow? then found else []
  }

  function PcAfter(w: Runtime, a: Action): Pc
    requires Can(w, a) && !a.OfLedger? && !a.SetPaused? && !a.Answer?
  {
    var c := w.resolves[a.r];
    match a
    case LookAtPause(_) => if w.paused then Refused else Opening
    case FindPrompt(_) =>
      var found := Found(w, c.token);
      if found == [] || !found[0].payload.WorkflowStep? then Refused
      else if c.approved && NeedsSecret(found[0].payload.phase) then Verifying(found[0].payload)
      else Taking(found[0].payload)
    case CheckSecret(_, accepted) => if accepted then Taking(c.pc.step) else Refused
    case TakePrompt(_) =>
      var taken := Take(w.ledger.l, c.token, APP_WORKFLOW, w.ledger.now).1;
      if !taken.Ok? then Refused else if c.approved then Started(taken.value.payload) else Declined
  }

  function After(w: Runtime, a: Action): Runtime
    requires Can(w, a)
  {
    var v := w.(ledger := ApprovalLedger.Next(w.ledger, LedgerStep(w, a)));
    match a
    case OfLedger(_) => v
    case SetPaused(value) => v.(paused := value)
    case Answer(r, token, approved) => v.(resolves := w.resolves[r := Resolve(token, approved, New, false)])
    case _ =>
      var c := w.resolves[a.r];
      var pc := PcAfter(w, a);
      v.(resolves := w.resolves[a.r := c.(pc := pc,
                                           secretAccepted := c.secretAccepted || (a.CheckSecret? && a.accepted))],
         started := if pc.Started? then w.started + multiset{c.token} else w.started)
  }

  ghost predicate Does(w: Runtime, a: Action, v: Runtime) {
    Can(w, a) && v == After(w, a)
  }

  ghost predicate IsHistory(ws: seq<Runtime>, actions: seq<Action>) {
    && |ws| == |actions| + 1 && ws[0] == Idle()
    && forall i | 0 <= i < |actions| :: Does(ws[i], actions[i], ws[i + 1])
  }

  /** Seen from the ledger, a history of answers is one of its runs. */
  lemma {:induction false} LedgerRun(ws: seq<Runtime>, actions: seq<Action>)
    returns (ls: seq<World>, steps: seq<Step>)
    requires IsHistory(ws, actions)
    ensures IsRun(ls, steps) && |ls| == |ws|
    ensures forall i | 0 <= i < |ws| :: ls[i] == ws[i].ledger
    ensures forall i | 0 <= i < |steps| :: Can(ws[i], actions[i]) && steps[i] == LedgerStep(ws[i], actions[i])
  {
    hide Found, PcAfter;
    ls := seq(|ws|, i requires 0 <= i < |ws| => ws[i].ledger);
    if actions == [] {
      steps := [];
    } else {
      var n := |actions| - 1;
      var ls', steps' := LedgerRun(ws[..n + 1], actions[..n]);
      assert Does(ws[n], actions[n], ws[n + 1]);
      steps := steps' + [LedgerStep(ws[n], actions[n])];
      forall i | 0 <= i < |steps| ensures Follows(ls[i], steps[i], ls[i + 1]) {
        if i < n {
          assert Follows(ls'[i], steps'[i], ls'[i + 1]);
        }
      }
    }
  }

  // ---------------------------------------------------------------- the invariant

  /** The step an answer carries is the one its prompt was issued for; it starts only approved, and
      with the secret accepted where its phase needs one. */
  ghost predicate ResolveInv(issued: map<string, Ticket>, c: Resolve) {
    && (c.pc.Verifying? || c.pc.Taking? || c.pc.Started? ==>
          && c.token in issued && issued[c.token].payload == c.pc.step && c.pc.step.WorkflowStep?
          && issued[c.token].kind.AppWorkflow?)
    && (c.pc.Started? ==> c.approved)
    && ((c.pc.Taking? && c.approved) || c.pc.Started? ==> (NeedsSecret(c.pc.step.phase) ==> c.secretAccepted))
  }

  ghost predicate RuntimeInv(w: Runtime) {
    && (forall r | r in w.resolves :: ResolveInv(w.ledger.issued, w.resolves[r]))
    && (forall id :: w.started[id] <= w.ledger.taken[id])
    && (forall id | id in w.ledger.issued && w.ledger.issued[id].kind.AppWorkflow? ::
          w.ledger.issued[id].payload.WorkflowStep?)
  }

  /** No step of the ledger forgets or changes an issued ticket, or untakes one. */
  lemma LedgerGrows(w: World, s: Step)
    requires Inv(w) && Possible(w, s)
    ensures forall id | id in w.issued :: id in Next(w, s).issued && Next(w, s).issued[id] == w.issued[id]
    ensures forall id | id in Next(w, s).issued && id !in w.issued :: s.IssueOne? && Next(w, s).issued[id] == s.t
    ensures Next(w, s).taken == w.taken + if s.TakeOne? && Takes(w, s.id, s.kinds) then multiset{s.id} else multiset{}
  {
    hide Drop, Recent;
  }

  lemma FoundWasIssued(w: Runtime, token: string)
    requires Inv(w.ledger)
    ensures forall t | t in Found(w, token) ::
              token in w.ledger.issued && w.ledger.issued[token] == t && t.kind.AppWorkflow?
  {
    SelectMembers(w.ledger.l.open, Unexpired(w.ledger.now), true);
  }

  lemma TakenWasIssued(w: World, token: string)
    requires Inv(w) && Takes(w, token, APP_WORKFLOW)
    ensures token in w.issued && Take(w.l, token, APP_WORKFLOW, w.now).1 == Ok(w.issued[token])
    ensures w.issued[token].kind.AppWorkflow?
  {
    SelectMembers(w.l.open, Unexpired(w.now), true);
    assert APP_WORKFLOW != {} by { assert AppWorkflow in APP_WORKFLOW; }
  }

  lemma ResolveStep(w: Runtime, a: Action)
    requires Inv(w.ledger) && RuntimeInv(w) && Can(w, a) && !a.OfLedger? && !a.SetPaused? && !a.Answer?
    ensures ResolveInv(w.ledger.issued, After(w, a).resolves[a.r])
    ensures After(w, a).resolves[a.r].pc.Started? && !w.resolves[a.r].pc.Started? ==>
              Takes(w.ledger, w.resolves[a.r].token, APP_WORKFLOW)
    ensures After(w, a).resolves[a.r].pc.Started? ==> a.TakePrompt?
  {
    hide ApprovalLedger.Next, Inv, Found, Take;
    var c := w.resolves[a.r];
    assert ResolveInv(w.ledger.issued, c);
    if a.FindPrompt? {
      FoundWasIssued(w, c.token);
      assert Found(w, c.token) != [] ==> Found(w, c.token)[0] in Found(w, c.token);
    } else if a.TakePrompt? && Takes(w.ledger, c.token, APP_WORKFLOW) {
      TakenWasIssued(w.ledger, c.token);
    }
  }

  lemma StartedStep(w: Runtime, a: Action)
    requires Inv(w.ledger) && RuntimeInv(w) && Can(w, a)
    ensures forall id :: After(w, a).started[id] <= After(w, a).ledger.taken[id]
  {
    LedgerGrows(w.ledger, LedgerStep(w, a));
    if !a.OfLedger? && !a.SetPaused? && !a.Answer? {
      ResolveStep(w, a);
    }
    hide ApprovalLedger.Next, Inv, Found, Take, PcAfter, Possible, LedgerStep, ResolveInv;
  }

  /** An action touches the answer it belongs to, or enters a new one. */
  lemma OtherAnswersStay(w: Runtime, a: Action, r: nat)
    requires Can(w, a) && r in After(w, a).resolves
    ensures var c := After(w, a).resolves[r];
            || (r in w.resolves && c == w.resolves[r])
            || (a.Answer? && c.pc.New?)
            || (!a.OfLedger? && !a.SetPaused? && !a.Answer? && r == a.r)
  {
    hide ApprovalLedger.Next, PcAfter, LedgerStep;
  }

  lemma IssuedGrows(issued: map<string, Ticket>, more: map<string, Ticket>, c: Resolve)
    requires ResolveInv(issued, c) && forall id | id in issued :: id in more && more[id] == issued[id]
    ensures ResolveInv(more, c)
  {
  }

  lemma IssuedAfter(w: Runtime, a: Action)
    requires Inv(w.ledger) && RuntimeInv(w) && Can(w, a)
    ensures var after := After(w, a).ledger.issued;
            && (forall id | id in w.ledger.issued :: id in after && after[id] == w.ledger.issued[id])
            && forall id | id in after && after[id].kind.AppWorkflow? :: after[id].payload.WorkflowStep?
  {
    LedgerGrows(w.ledger, LedgerStep(w, a));
    hide ApprovalLedger.Next, Inv, Found, Take, PcAfter, Possible, LedgerStep, Takes, ResolveInv;
  }

  lemma RuntimeStep(w: Runtime, a: Action)
    requires Inv(w.ledger) && RuntimeInv(w) && Can(w, a)
    ensures RuntimeInv(After(w, a))
  {
    hide Inv, After, Can, ResolveInv;
    IssuedAfter(w, a);
    StartedStep(w, a);
    var v := After(w, a);
    forall r | r in v.resolves ensures ResolveInv(v.ledger.issued, v.resolves[r]) {
      OtherAnswersStay(w, a, r);
      if !a.OfLedger? && !a.SetPaused? && !a.Answer? && r == a.r {
        ResolveStep(w, a);
        IssuedGrows(w.ledger.issued, v.ledger.issued, v.resolves[r]);
      } else if r in w.resolves && v.resolves[r] == w.resolves[r] {
        IssuedGrows(w.ledger.issued, v.ledger.issued, w.resolves[r]);
      } else {
        NewAnswer(v.ledger.issued, v.resolves[r]);
      }
    }
  }

  lemma NewAnswer(issued: map<string, Ticket>, c: Resolve)
    requires c.pc.New?
    ensures ResolveInv(issued, c)
  {
  }

  lemma {:induction false} RuntimeInvRun(ws: seq<Runtime>, actions: seq<Action>, i: nat)
    requires IsHistory(ws, actions) && i < |ws|
    ensures RuntimeInv(ws[i]) && Inv(ws[i].ledger)
  {
    hide After, Can, Inv, RuntimeInv;
    var ls, steps := LedgerRun(ws, actions);
    InvRun(ls, steps, i);
    if i == 0 {
      IdleInv();
    } else {
      RuntimeInvRun(ws, actions, i - 1);
      assert Does(ws[i - 1], actions[i - 1], ws[i]);
      RuntimeStep(ws[i - 1], actions[i - 1]);
    }
  }

  lemma IdleInv()
    ensures RuntimeInv(Idle())
  {}

  // ----------------------------------------------------------------- main results

  /** Whatever answers arrive, however often and from whichever threads, the step of a prompt starts
      at most once. */
  lemma StepStartsAtMostOnce(ws: seq<Runtime>, actions: seq<Action>, i: nat, id: string)
    requires IsHistory(ws, actions) && i < |ws|
    ensures ws[i].started[id] <= 1
  {
    RuntimeInvRun(ws, actions, i);
  }

  /** A step that started was approved, is the very step its prompt was issued for, and had its secret
      accepted where its phase needs one. */
  lemma StartsOnlyApproved(ws: seq<Runtime>, actions: seq<Action>, i: nat, r: nat)
    requires IsHistory(ws, actions) && i < |ws| && r in ws[i].resolves && ws[i].resolves[r].pc.Started?
    ensures var c := ws[i].resolves[r];
            && c.approved && c.token in ws[i].ledger.issued
            && ws[i].ledger.issued[c.token].payload == c.pc.step && c.pc.step.WorkflowStep?
            && (NeedsSecret(c.pc.step.phase) ==> c.secretAccepted)
  {
    RuntimeInvRun(ws, actions, i);
    assert ResolveInv(ws[i].ledger.issued, ws[i].resolves[r]);
  }

  /** A prompt that Stop, expiry or shutdown settled before the take never starts its step any more. */
  lemma SettledPromptNeverStarts(ws: seq<Runtime>, actions: seq<Action>, i: nat, j: nat)
    requires IsHistory(ws, actions) && i <= j < |actions| && actions[j].TakePrompt?
    requires actions[j].r in ws[j].resolves
    requires ws[j].resolves[actions[j].r].token in SettledIds(ws[i].ledger.history) || ws[i].ledger.l.closed
    ensures ws[j + 1].started == ws[j].started
  {
    var ls, steps := LedgerRun(ws, actions);
    NeverTakenAfterSettled(ls, steps, i, j, ws[j].resolves[actions[j].r].token, APP_WORKFLOW);
    assert Does(ws[j], actions[j], ws[j + 1]);
    hide ApprovalLedger.Next, Take;
  }

  /** What `discard` does: Stop, Pause and shutdown revoke every open workflow prompt. */
  predicate Discards(a: Action) {
    a.OfLedger? && a.step.DropSome? && a.step.rule == OtherKinds(APP_WORKFLOW)
  }

  /** A prompt that is settled for any other reason than an answer has started nothing and never will. */
  lemma SettledUnansweredNeverStarts(ws: seq<Runtime>, actions: seq<Action>, i: nat, j: nat, id: string,
                                     reason: string)
    requires IsHistory(ws, actions) && i <= j < |ws|
    requires Settlement(id, reason) in ws[i].ledger.history && reason != STALE_USED
    ensures ws[j].started[id] == 0
  {
    var ls, steps := LedgerRun(ws, actions);
    SettledUntaken(ls, steps, i, j, id, reason);
    RuntimeInvRun(ws, actions, j);
    hide IsHistory, Inv;
  }

  /** Stop reaches every open prompt: a prompt open at that moment is open no longer, and its step has not
      started and never starts, whatever answers were under way or come later. */
  lemma StoppedPromptNeverStarts(ws: seq<Runtime>, actions: seq<Action>, i: nat, j: nat, t: Ticket)
    requires IsHistory(ws, actions) && i < j < |ws| && Discards(actions[i])
    requires t in ws[i].ledger.l.open && t.kind.AppWorkflow?
    ensures t !in ws[i + 1].ledger.l.open
    ensures ws[j].started[t.id] == 0
  {
    RuntimeInvRun(ws, actions, i);
    assert Does(ws[i], actions[i], ws[i + 1]);
    var w, s := ws[i].ledger, actions[i].step;
    RevokedIsSettled(w, APP_WORKFLOW, s.reason, t);
    assert ws[i + 1].ledger == Dropped(w, OtherKinds(APP_WORKFLOW), s.reason);
    hide IsHistory, Inv, Dropped, ApprovalLedger.Next;
    SettledUnansweredNeverStarts(ws, actions, i + 1, j, t.id, s.reason);
  }

  // -------------------------------------------------------------- how an answer ends

  predicate Ended(pc: Pc) {
    pc.Refused? || pc.Declined? || pc.Started?
  }

  lemma {:induction false} EndedStays(ws: seq<Runtime>, actions: seq<Action>, i: nat, j: nat, r: nat)
    requires IsHistory(ws, actions) && i <= j < |ws| && r in ws[i].resolves && Ended(ws[i].resolves[r].pc)
    ensures r in ws[j].resolves && ws[j].resolves[r] == ws[i].resolves[r]
    decreases j
  {
    hide ApprovalLedger.Next, PcAfter, LedgerStep;
    if i < j {
      EndedStays(ws, actions, i, j - 1, r);
      assert Does(ws[j - 1], actions[j - 1], ws[j]);
    }
  }

  /** An answer that finds the runtime paused, its prompt gone, or its secret not accepted is refused for good,
      and consumes no prompt. */
  lemma RefusedForGood(ws: seq<Runtime>, actions: seq<Action>, i: nat, j: nat)
    requires IsHistory(ws, actions) && i < j < |ws|
    requires
      || (actions[i].LookAtPause? && ws[i].paused)
      || (actions[i].CheckSecret? && !actions[i].accepted)
      || (actions[i].FindPrompt? && actions[i].r in ws[i].resolves
          && Found(ws[i], ws[i].resolves[actions[i].r].token) == [])
    ensures actions[i].r in ws[j].resolves && ws[j].resolves[actions[i].r].pc.Refused?
    ensures ws[i + 1].started == ws[i].started && ws[i + 1].ledger.taken == ws[i].ledger.taken
  {
    assert Does(ws[i], actions[i], ws[i + 1]);
    hide Found, Drop, IsHistory;
    EndedStays(ws, actions, i + 1, j, actions[i].r);
  }

  lemma Extend(ws: seq<Runtime>, actions: seq<Action>, a: Action) returns (vs: seq<Runtime>, more: seq<Action>)
    requires IsHistory(ws, actions) && Can(ws[|actions|], a)
    ensures IsHistory(vs, more) && |vs| == |more| + 1 && vs[|more|] == After(ws[|actions|], a)
  {
    hide After, Can;
    vs, more := ws + [After(ws[|actions|], a)], actions + [a];
    forall i | 0 <= i < |more| ensures Does(vs[i], more[i], vs[i + 1]) {
      if i < |actions| {
        assert Does(ws[i], actions[i], ws[i + 1]);
      }
    }
  }

  /** What is found is the open prompt of that identity, and finding it leaves it open. */
  lemma FindsOpen(w: World, t: Ticket)
    requires Inv(w) && t in w.l.open && w.now < t.expiresAt
    ensures Find(Expire(w.l, w.now).open, t.id) == [t]
    ensures var d := Next(w, DropSome(Unexpired(w.now), STALE_EXPIRED));
            t in d.l.open && d.now == w.now && d.l.closed == w.l.closed
  {
    SelectMembers(w.l.open, Unexpired(w.now), true);
    var found := Find(Expire(w.l, w.now).open, t.id);
    assert t in Expire(w.l, w.now).open;
    assert found[0] in w.l.open;
  }

  /** The answer `r` to the open prompt `t` stands at `pc`. */
  ghost predicate Answering(w: Runtime, r: nat, t: Ticket, approved: bool, pc: Pc) {
    && t in w.ledger.l.open && t.kind.AppWorkflow? && w.ledger.now < t.expiresAt && !w.ledger.l.closed
    && WellFormedId(t.id) && t.payload.WorkflowStep? && !w.paused
    && r in w.resolves && w.resolves[r].token == t.id && w.resolves[r].approved == approved && w.resolves[r].pc == pc
  }

  lemma LookStep(w: Runtime, r: nat, t: Ticket, approved: bool)
    requires Answering(w, r, t, approved, New)
    ensures var v := After(w, LookAtPause(r));
            Answering(v, r, t, approved, Opening) && v.started == w.started && v.ledger.taken == w.ledger.taken
  {
    hide WellFormedId;
  }

  lemma SecretStep(w: Runtime, r: nat, t: Ticket, approved: bool)
    requires Answering(w, r, t, approved, Verifying(t.payload))
    ensures var v := After(w, CheckSecret(r, true));
            && Answering(v, r, t, approved, Taking(t.payload))
            && v.started == w.started && v.ledger.taken == w.ledger.taken
  {
    hide WellFormedId;
  }

  lemma FindStep(w: Runtime, r: nat, t: Ticket, approved: bool)
    requires Inv(w.ledger) && Answering(w, r, t, approved, Opening)
    ensures var v := After(w, FindPrompt(r));
            && Answering(v, r, t, approved,
                 if approved && NeedsSecret(t.payload.phase) then Verifying(t.payload) else Taking(t.payload))
            && v.started == w.started && v.ledger.taken == w.ledger.taken
  {
    FindsOpen(w.ledger, t);
    hide Inv, Find, Drop, WellFormedId;
  }

  lemma TakeNow(w: Runtime, r: nat, t: Ticket, approved: bool)
    requires Inv(w.ledger) && Answering(w, r, t, approved, Taking(t.payload))
    ensures var v := After(w, TakePrompt(r));
            && r in v.resolves && v.resolves[r].pc == (if approved then Started(t.payload) else Declined)
            && v.started == (if approved then w.started + multiset{t.id} else w.started)
            && v.ledger.taken == w.ledger.taken + multiset{t.id} && t !in v.ledger.l.open
  {
    hide Inv, Take, ApprovalLedger.Next, WellFormedId;
    TakesIt(w.ledger, t);
  }

  lemma TakesIt(w: World, t: Ticket)
    requires Inv(w) && t in w.l.open && t.kind.AppWorkflow? && w.now < t.expiresAt
    requires !w.l.closed && WellFormedId(t.id)
    ensures Take(w.l, t.id, APP_WORKFLOW, w.now).1 == Ok(t)
    ensures var v := Next(w, TakeOne(t.id, APP_WORKFLOW)); t !in v.l.open && v.taken == w.taken + multiset{t.id}
  {
    assert w.issued[t.id] == t;
    hide Inv, Take, ApprovalLedger.Next, WellFormedId;
    TakenExactly(w, t.id, APP_WORKFLOW);
    TakenWasIssued(w, t.id);
  }

  /** The answer goes on to the moment it takes the prompt, if nothing comes in between. */
  lemma ToTaking(ws: seq<Runtime>, actions: seq<Action>, r: nat, t: Ticket, approved: bool)
    returns (vs: seq<Runtime>, more: seq<Action>)
    requires IsHistory(ws, actions) && Answering(ws[|actions|], r, t, approved, New)
    ensures IsHistory(vs, more) && Answering(vs[|more|], r, t, approved, Taking(t.payload))
    ensures var w, v := ws[|actions|], vs[|more|]; v.started == w.started && v.ledger.taken == w.ledger.taken
  {
    assert |ws| == |actions| + 1;
    hide After, IsHistory, Inv, RuntimeInv, WellFormedId, Found, PcAfter, NeedsSecret;
    assert Can(ws[|actions|], LookAtPause(r));
    LookStep(ws[|actions|], r, t, approved);
    vs, more := Extend(ws, actions, LookAtPause(r));
    RuntimeInvRun(vs, more, |more|);
    FindStep(vs[|more|], r, t, approved);
    vs, more := Extend(vs, more, FindPrompt(r));
    if approved && NeedsSecret(t.payload.phase) {
      SecretStep(vs[|more|], r, t, approved);
      vs, more := Extend(vs, more, CheckSecret(r, true));
    }
  }

  /** An answer in time is not lost: from every history, an answer to an open prompt, while the runtime is
      neither paused nor shut down and with the secret accepted where its phase needs one, goes on to start
      the step prompted for if it approves, and to close the prompt without starting anything if not. */
  lemma AnswerTakesEffect(ws: seq<Runtime>, actions: seq<Action>, r: nat, t: Ticket, approved: bool)
    returns (vs: seq<Runtime>, more: seq<Action>)
    requires IsHistory(ws, actions) && r !in ws[|actions|].resolves
    requires !ws[|actions|].paused && t in ws[|actions|].ledger.l.open && t.kind.AppWorkflow?
    requires ws[|actions|].ledger.now < t.expiresAt
    ensures IsHistory(vs, more) && r in vs[|more|].resolves
    ensures var w, v := ws[|actions|], vs[|more|];
            && v.resolves[r].pc == (if approved then Started(t.payload) else Declined)
            && v.started == (if approved then w.started + multiset{t.id} else w.started)
            && v.ledger.taken == w.ledger.taken + multiset{t.id} && t !in v.ledger.l.open
  {
    assert |ws| == |actions| + 1;
    Arrives(ws, actions, r, t, approved);
    hide After, IsHistory, Inv, RuntimeInv, WellFormedId, Found, PcAfter;
    vs, more := Extend(ws, actions, Answer(r, t.id, approved));
    vs, more := ToTaking(vs, more, r, t, approved);
    RuntimeInvRun(vs, more, |more|);
    TakeNow(vs[|more|], r, t, approved);
    vs, more := Extend(vs, more, TakePrompt(r));
  }

  lemma Arrives(ws: seq<Runtime>, actions: seq<Action>, r: nat, t: Ticket, approved: bool)
    requires IsHistory(ws, actions) && r !in ws[|actions|].resolves
    requires !ws[|actions|].paused && t in ws[|actions|].ledger.l.open && t.kind.AppWorkflow?
    requires ws[|actions|].ledger.now < t.expiresAt
    ensures var w := ws[|actions|]; var v := After(w, Answer(r, t.id, approved));
            && Answering(v, r, t, approved, New)
            && v.started == w.started && v.ledger.taken == w.ledger.taken
  {
    RuntimeInvRun(ws, actions, |actions|);
    var ls, steps := LedgerRun(ws, actions);
    OpenIsWellFormed(ls, steps, |steps|);
    assert ws[|actions|].ledger.issued[t.id] == t;
    hide IsHistory, Inv, WellFormedId;
  }
}
