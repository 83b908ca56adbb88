/** Single-use identities of prompts that wait on a person.

    Python dictionaries keep insertion order, and the ledger relies on it twice: for the most recent
    open ticket and for forgetting the oldest settlement first. Both dictionaries are sequences here. */
module ApprovalLedger {

  const MAX_REMEMBERED_SETTLED: nat := 256
  const STALE_MALFORMED: string := "malformed"
  const STALE_UNKNOWN: string := "unknown"
  const STALE_USED: string := "already_answered"
  const STALE_EXPIRED: string := "expired"
  const STALE_CLOSED: string := "runtime_shutdown"
  const STALE_WRONG_KIND: string := "wrong_kind"

  datatype Kind = PaintDraw | PaintUndo | ScreenRead | FileAction | AppWorkflow | HistoryUndo | MediaAction

  /** The payload of a workflow prompt names the step it approves; other payloads are opaque here. */
  datatype Phase = TelegramInspect | TelegramDownload | Print | Browser
  datatype Payload = WorkflowStep(requestId: string, phase: Phase) | Opaque(n: nat)

  datatype Ticket = Ticket(id: string, kind: Kind, payload: Payload, expiresAt: real)
  datatype Settlement = Settlement(id: string, reason: string)

  datatype Ledger = Ledger(open: seq<Ticket>, settled: seq<Settlement>, closed: bool)

  datatype Result<T> = Ok(value: T) | Stale(reason: string) | BadGenerator

  predicate WellFormedId(id: string) {
    && 22 <= |id| <= 64
    && forall c | c in id :: 'A' <= c <= 'Z' || 'a' <= c <= 'z' || '0' <= c <= '9' || c == '_' || c == '-'
  }

  // --------------------------------------------------------------- the two tables

  function Ids(tickets: seq<Ticket>): set<string> {
    set t | t in tickets :: t.id
  }

  function SettledIds(settled: seq<Settlement>): set<string> {
    set s | s in settled :: s.id
  }

  ghost predicate Distinct(tickets: seq<Ticket>) {
    forall i, j | 0 <= i < j < |tickets| :: tickets[i].id != tickets[j].id
  }

  /** Which tickets stay open when others are settled. */
  datatype Rule = Unexpired(now: real) | OtherThan(id: string) | OtherKinds(kinds: set<Kind>) | NoTicket

  predicate Stays(rule: Rule, t: Ticket) {
    match rule
    case Unexpired(now) => now < t.expiresAt
    case OtherThan(id) => t.id != id
    case OtherKinds(kinds) => t.kind !in kinds
    case NoTicket => false
  }

  /** The tickets that stay, or those that go, in their order. */
  function Select(tickets: seq<Ticket>, rule: Rule, stays: bool): seq<Ticket> {
    if tickets == [] then []
    else (if Stays(rule, tickets[0]) == stays then [tickets[0]] else []) + Select(tickets[1..], rule, stays)
  }

  function Without(settled: seq<Settlement>, id: string): seq<Settlement> {
    if settled == [] then []
    else (if settled[0].id == id then [] else [settled[0]]) + Without(settled[1..], id)
  }

  /** The most recent settlements, at most as many as are remembered. */
  function Recent(settled: seq<Settlement>): seq<Settlement> {
    if |settled| > MAX_REMEMBERED_SETTLED then settled[|settled| - MAX_REMEMBERED_SETTLED..] else settled
  }

  function Remember(settled: seq<Settlement>, id: string, reason: string): seq<Settlement> {
    Recent(Without(settled, id) + [Settlement(id, reason)])
  }

  function RememberAll(settled: seq<Settlement>, tickets: seq<Ticket>, reason: string): seq<Settlement>
    decreases |tickets|
  {
    if tickets == [] then settled
    else RememberAll(Remember(settled, tickets[0].id, reason), tickets[1..], reason)
  }

  function LookUp(settled: seq<Settlement>, id: string): string {
    if settled == [] then STALE_UNKNOWN
    else if settled[0].id == id then settled[0].reason
    else LookUp(settled[1..], id)
  }

  function Find(open: seq<Ticket>, id: string): (t: seq<Ticket>)
    ensures |t| <= 1
    ensures t == [] <==> id !in Ids(open)
    ensures t != [] ==> t[0] in open && t[0].id == id
  {
    if open == [] then []
    else if open[0].id == id then [open[0]]
    else
      assert open == [open[0]] + open[1..];
      Find(open[1..], id)
  }

  // ---------------------------------------------------------- what each call does

  /** Settles the tickets that do not stay, in the order they were issued. */
  function Drop(l: Ledger, rule: Rule, reason: string): Ledger {
    l.(open := Select(l.open, rule, true),
       settled := RememberAll(l.settled, Select(l.open, rule, false), reason))
  }

  function Expire(l: Ledger, now: real): Ledger {
    Drop(l, Unexpired(now), STALE_EXPIRED)
  }

  function Issue(l: Ledger, t: Ticket): Result<Ledger> {
    if l.closed then Stale(STALE_CLOSED)
    else if !WellFormedId(t.id) || t.id in Ids(l.open) || t.id in SettledIds(l.settled) then BadGenerator
    else Ok(l.(open := l.open + [t]))
  }

  /** An empty `kinds` stands for "any kind"; callers never name none. */
  function Take(l: Ledger, id: string, kinds: set<Kind>, now: real): (Ledger, Result<Ticket>) {
    if !WellFormedId(id) then (l, Stale(STALE_MALFORMED))
    else if l.closed then (l, Stale(STALE_CLOSED))
    else
      var e := Expire(l, now);
      var found := Find(e.open, id);
      if found == [] then (e, Stale(LookUp(e.settled, id)))
      else if kinds != {} && found[0].kind !in kinds then (e, Stale(STALE_WRONG_KIND))
      else (Drop(e, OtherThan(id), STALE_USED), Ok(found[0]))
  }

  function Close(l: Ledger): Ledger {
    Drop(l, NoTicket, STALE_CLOSED).(closed := true)
  }

  // --------------------------------------------------------- the ledger as an object

  class ApprovalLedgerStore {
    var open: seq<Ticket>
    var settled: seq<Settlement>
    var closed: bool

    function State(): Ledger
      reads this
    {
      Ledger(open, settled, closed)
    }

    constructor ()
      ensures State() == Ledger([], [], false)
    {
      open, settled, closed := [], [], false;
    }

    method SettleLocked(id: string, reason: string)
      modifies this`settled
      ensures settled == Remember(old(settled), id, reason)
    {
      settled := Without(settled, id);
      settled := settled + [Settlement(id, reason)];
      ghost var all := settled;
      while |settled| > MAX_REMEMBERED_SETTLED
        invariant |settled| <= |all| && settled == all[|all| - |settled|..]
        invariant |settled| == |all| || |settled| >= MAX_REMEMBERED_SETTLED
      {
        settled := settled[1..];
      }
    }

    method SettleAt(k: nat, ghost before: seq<Ticket>, ghost from: seq<Ticket>, reason: string)
      requires open == before + from && k == |before| && from != []
      modifies this`open, this`settled
      ensures open == before + from[1..] && settled == Remember(old(settled), from[0].id, reason)
    {
      hide Remember;
      var t := open[k];
      open := open[..k] + open[k + 1..];
      SettleLocked(t.id, reason);
    }

    /** The loops of expiry, of revocation by kind and of close: settle every ticket that goes. */
    method DropLocked(rule: Rule, reason: string)
      modifies this`open, this`settled
      ensures State() == Drop(old(State()), rule, reason)
    {
      hide Remember, RememberAll, Stays, Select;
      var todo, kept := open, 0;
      ghost var stayed: seq<Ticket> := [];
      while todo != []
        invariant closed == old(closed) && kept == |stayed| && open == stayed + todo
        invariant Select(old(open), rule, true) == stayed + Select(todo, rule, true)
        invariant RememberAll(settled, Select(todo, rule, false), reason)
               == RememberAll(old(settled), Select(old(open), rule, false), reason)
        decreases |todo|
      {
        var t := todo[0];
        DropOne(settled, todo, rule, reason);
        StayOne(stayed, todo, rule);
        if Stays(rule, t) {
          kept, stayed := kept + 1, stayed + [t];
        } else {
          SettleAt(kept, stayed, todo, reason);
        }
        todo := todo[1..];
      }
      RememberNothing(settled, rule, reason);
    }

    method IssueTicket(t: Ticket) returns (r: Result<()>)
      modifies this`open
      ensures var next := Issue(old(State()), t);
              if next.Ok? then r == Ok(()) && State() == next.value
              else State() == old(State()) && r == if next.Stale? then Stale(next.reason) else BadGenerator
    {
      if closed {
        return Stale(STALE_CLOSED);
      }
      if !WellFormedId(t.id) || t.id in Ids(open) || t.id in SettledIds(settled) {
        return BadGenerator;
      }
      open := open + [t];
      return Ok(());
    }

    method TakeTicket(id: string, kinds: set<Kind>, now: real) returns (r: Result<Ticket>)
      modifies this`open, this`settled
      ensures (State(), r) == Take(old(State()), id, kinds, now)
    {
      if !WellFormedId(id) {
        return Stale(STALE_MALFORMED);
      }
      if closed {
        return Stale(STALE_CLOSED);
      }
      DropLocked(Unexpired(now), STALE_EXPIRED);
      var found := Find(open, id);
      if found == [] {
        return Stale(LookUp(settled, id));
      }
      if kinds != {} && found[0].kind !in kinds {
        return Stale(STALE_WRONG_KIND);
      }
      DropLocked(OtherThan(id), STALE_USED);
      return Ok(found[0]);
    }

    method RevokeWhere(rule: Rule, reason: string) returns (revoked: seq<Ticket>)
      modifies this`open, this`settled
      ensures State() == Drop(old(State()), rule, reason)
      ensures revoked == Select(old(open), rule, false)
    {
      revoked := Select(open, rule, false);
      DropLocked(rule, reason);
    }

    method CloseLedger() returns (revoked: seq<Ticket>)
      modifies this
      ensures State() == Close(old(State())) && revoked == old(open)
    {
      closed := true;
      revoked := open;
      DropLocked(NoTicket, STALE_CLOSED);
    }
  }

  lemma RememberNothing(settled: seq<Settlement>, rule: Rule, reason: string)
    ensures Select([], rule, true) == [] && RememberAll(settled, Select([], rule, false), reason) == settled
  {}

  lemma StayOne(stayed: seq<Ticket>, todo: seq<Ticket>, rule: Rule)
    requires todo != []
    ensures stayed + Select(todo, rule, true)
         == (if Stays(rule, todo[0]) then stayed + [todo[0]] else stayed) + Select(todo[1..], rule, true)
    ensures stayed + todo == stayed + [todo[0]] + todo[1..]
  {
    hide Stays;
    var rest := Select(todo[1..], rule, true);
    assert Select(todo, rule, true) == if Stays(rule, todo[0]) then [todo[0]] + rest else rest;
    hide Select;
    Shift(stayed, todo[0], rest);
    Shift(stayed, todo[0], todo[1..]);
    assert [todo[0]] + todo[1..] == todo;
  }

  lemma Shift<T>(a: seq<T>, x: T, b: seq<T>)
    ensures a + ([x] + b) == (a + [x]) + b
  {}

  lemma DropOne(settled: seq<Settlement>, todo: seq<Ticket>, rule: Rule, reason: string)
    requires todo != []
    ensures RememberAll(settled, Select(todo, rule, false), reason)
         == RememberAll(if Stays(rule, todo[0]) then settled else Remember(settled, todo[0].id, reason),
                        Select(todo[1..], rule, false), reason)
  {
    hide Stays, Remember;
    var rest := Select(todo[1..], rule, false);
    if !Stays(rule, todo[0]) {
      assert ([todo[0]] + rest)[1..] == rest;
    } else {
      assert [] + rest == rest;
    }
  }

  lemma {:induction false} SelectMembers(tickets: seq<Ticket>, rule: Rule, stays: bool)
    ensures forall t :: t in Select(tickets, rule, stays) <==> t in tickets && Stays(rule, t) == stays
  {
    if tickets != [] {
      SelectMembers(tickets[1..], rule, stays);
      assert tickets == [tickets[0]] + tickets[1..];
    }
  }

  lemma {:induction false} SelectDistinct(tickets: seq<Ticket>, rule: Rule, stays: bool)
    requires Distinct(tickets)
    ensures Distinct(Select(tickets, rule, stays))
  {
    if tickets != [] {
      SelectDistinct(tickets[1..], rule, stays);
      SelectMembers(tickets[1..], rule, stays);
      var rest := Select(tickets[1..], rule, stays);
      forall i | 0 <= i < |rest| ensures rest[i].id != tickets[0].id {
        assert rest[i] in tickets[1..];
      }
    }
  }

  // ------------------------------------------------------------------- whole runs

  /** `issued` is every ticket ever issued, `history` every settlement ever made, in order, and
      `taken` how often each identity was taken. */
  datatype World = World(l: Ledger, now: real, issued: map<string, Ticket>, history: seq<Settlement>,
                         taken: multiset<string>)

  datatype Step =
    | Tick(seconds: real)
    | IssueOne(t: Ticket)
    | TakeOne(id: string, kinds: set<Kind>)
    | DropSome(rule: Rule, reason: string)     // revoke, revoke_kinds, and every look that expires
    | CloseAll

  function Start(): World {
    World(Ledger([], [], false), 0.0, map[], [], multiset{})
  }

  /** The generator never repeats an identity. */
  predicate Possible(w: World, s: Step) {
    match s
    case Tick(seconds) => seconds >= 0.0
    case IssueOne(t) => t.id !in w.issued
    case DropSome(rule, reason) =>
      (rule.Unexpired? ==> rule.now == w.now && reason == STALE_EXPIRED) && reason != STALE_USED
    case _ => true
  }

  function Settlements(tickets: seq<Ticket>, reason: string): seq<Settlement> {
    if tickets == [] then [] else [Settlement(tickets[0].id, reason)] + Settlements(tickets[1..], reason)
  }

  function Dropped(w: World, rule: Rule, reason: string): World {
    w.(l := Drop(w.l, rule, reason), history := w.history + Settlements(Select(w.l.open, rule, false), reason))
  }

  predicate Takes(w: World, id: string, kinds: set<Kind>) {
    Take(w.l, id, kinds, w.now).1.Ok?
  }

  function Next(w: World, s: Step): World {
    match s
    case Tick(seconds) => w.(now := w.now + seconds)
    case IssueOne(t) =>
      var r := Issue(w.l, t);
      if r.Ok? then w.(l := r.value, issued := w.issued[t.id := t]) else w
    case TakeOne(id, kinds) =>
      if w.l.closed || !WellFormedId(id) then w
      else
        var e := Dropped(w, Unexpired(w.now), STALE_EXPIRED);
        if Takes(w, id, kinds) then Dropped(e, OtherThan(id), STALE_USED).(taken := w.taken + multiset{id}) else e
    case DropSome(rule, reason) => Dropped(w, rule, reason)
    case CloseAll => var d := Dropped(w, NoTicket, STALE_CLOSED); d.(l := d.l.(closed := true))
  }

  ghost predicate Follows(w: World, s: Step, v: World) {
    Possible(w, s) && v == Next(w, s)
  }

  ghost predicate IsRun(ws: seq<World>, steps: seq<Step>) {
    && |ws| == |steps| + 1 && ws[0] == Start()
    && forall i | 0 <= i < |steps| :: Follows(ws[i], steps[i], ws[i + 1])
  }

  /** The steps act on the ledger as its operations do. */
  lemma NextIsTheOperation(w: World, s: Step)
    ensures s.IssueOne? ==> Next(w, s).l == var r := Issue(w.l, s.t); if r.Ok? then r.value else w.l
    ensures s.TakeOne? ==> Next(w, s).l == Take(w.l, s.id, s.kinds, w.now).0
    ensures s.DropSome? ==> Next(w, s).l == Drop(w.l, s.rule, s.reason)
    ensures s.CloseAll? ==> Next(w, s).l == Close(w.l)
  {}

  // ---------------------------------------------------------------- the invariant

  ghost predicate NoTwice(history: seq<Settlement>) {
    forall i, j | 0 <= i < j < |history| :: history[i].id != history[j].id
  }

  lemma {:induction false} SettlementsOf(tickets: seq<Ticket>, reason: string)
    ensures |Settlements(tickets, reason)| == |tickets|
    ensures forall i | 0 <= i < |tickets| :: Settlements(tickets, reason)[i] == Settlement(tickets[i].id, reason)
  {
    if tickets != [] {
      SettlementsOf(tickets[1..], reason);
    }
  }

  lemma {:induction false} WithoutAbsent(settled: seq<Settlement>, id: string)
    requires forall s | s in settled :: s.id != id
    ensures Without(settled, id) == settled
  {
    if settled != [] {
      WithoutAbsent(settled[1..], id);
    }
  }

  lemma RememberIsRecent(history: seq<Settlement>, id: string, reason: string)
    requires forall s | s in history :: s.id != id
    ensures Remember(Recent(history), id, reason) == Recent(history + [Settlement(id, reason)])
  {
    WithoutAbsent(Recent(history), id);
    RecentPlusOne(history, Settlement(id, reason));
  }

  lemma RecentPlusOne(history: seq<Settlement>, last: Settlement)
    ensures Recent(Recent(history) + [last]) == Recent(history + [last])
  {
    var n := |history|;
    if n > MAX_REMEMBERED_SETTLED {
      SuffixPlusOne(history, n - MAX_REMEMBERED_SETTLED, last);
    }
  }

  lemma SuffixPlusOne<T>(s: seq<T>, k: nat, last: T)
    requires k < |s|
    ensures (s[k..] + [last])[1..] == (s + [last])[k + 1..]
  {}

  lemma {:induction false} RememberAllIsRecent(history: seq<Settlement>, tickets: seq<Ticket>, reason: string)
    requires Distinct(tickets) && forall t, s | t in tickets && s in history :: t.id != s.id
    ensures RememberAll(Recent(history), tickets, reason) == Recent(history + Settlements(tickets, reason))
    decreases |tickets|
  {
    hide Recent, Remember, Without;
    if tickets == [] {
      assert history + Settlements(tickets, reason) == history;
    } else {
      SettlementsFirst(history, tickets, reason);
      hide Settlements;
      var first := Settlement(tickets[0].id, reason);
      assert tickets[0] in tickets;
      RememberIsRecent(history, tickets[0].id, reason);
      forall t, s | t in tickets[1..] && s in history + [first] ensures t.id != s.id {
        assert t in tickets;
      }
      assert Distinct(tickets[1..]);
      hide Distinct;
      RememberAllIsRecent(history + [first], tickets[1..], reason);
    }
  }

  lemma SettlementsFirst(history: seq<Settlement>, tickets: seq<Ticket>, reason: string)
    requires tickets != []
    ensures history + Settlements(tickets, reason) ==
            history + [Settlement(tickets[0].id, reason)] + Settlements(tickets[1..], reason)
  {
    var rest := Settlements(tickets[1..], reason);
    assert Settlements(tickets, reason) == [Settlement(tickets[0].id, reason)] + rest;
    hide Settlements;
    Shift(history, Settlement(tickets[0].id, reason), rest);
  }

  ghost predicate Apart(open: seq<Ticket>, history: seq<Settlement>) {
    forall t, s | t in open && s in history :: t.id != s.id
  }

  /** The table part of the invariant survives settling any tickets for any reason. */
  ghost predicate TablesInv(w: World) {
    && Distinct(w.l.open) && NoTwice(w.history) && Apart(w.l.open, w.history)
    && w.l.settled == Recent(w.history)
    && (forall t | t in w.l.open :: t.id in w.issued && w.issued[t.id] == t)
    && (forall s | s in w.history :: s.id in w.issued)
  }

  lemma DropKeepsTables(w: World, rule: Rule, reason: string)
    requires TablesInv(w)
    ensures TablesInv(Dropped(w, rule, reason))
  {
    hide Recent, RememberAll, Stays;
    var gone := Select(w.l.open, rule, false);
    SelectMembers(w.l.open, rule, true);
    SelectMembers(w.l.open, rule, false);
    SelectDistinct(w.l.open, rule, true);
    SelectDistinct(w.l.open, rule, false);
    SettlementsOf(gone, reason);
    RememberAllIsRecent(w.history, gone, reason);
    DropKeepsApart(w, rule, reason);
    DropKeepsNoTwice(w.history, gone, reason);
  }

  lemma DropKeepsApart(w: World, rule: Rule, reason: string)
    requires Apart(w.l.open, w.history) && Distinct(w.l.open)
    ensures Apart(Select(w.l.open, rule, true), w.history + Settlements(Select(w.l.open, rule, false), reason))
  {
    var gone := Select(w.l.open, rule, false);
    SettlementsOf(gone, reason);
    SelectMembers(w.l.open, rule, true);
    SelectMembers(w.l.open, rule, false);
    forall t, s | t in Select(w.l.open, rule, true) && s in w.history + Settlements(gone, reason) ensures t.id != s.id {
      if s !in w.history {
        var i :| 0 <= i < |gone| && Settlements(gone, reason)[i] == s;
        assert gone[i] in gone && t != gone[i];
      }
    }
  }

  lemma DropKeepsNoTwice(history: seq<Settlement>, gone: seq<Ticket>, reason: string)
    requires NoTwice(history) && Distinct(gone) && Apart(gone, history)
    ensures NoTwice(history + Settlements(gone, reason))
  {
    SettlementsOf(gone, reason);
    var h := history + Settlements(gone, reason);
    forall i, j | 0 <= i < j < |h| ensures h[i].id != h[j].id {
      if i < |history| <= j {
        assert history[i] in history && gone[j - |history|] in gone;
      }
    }
  }

  /** Whatever was issued is either open or settled, and taken at most once. */
  ghost predicate Inv(w: World) {
    && TablesInv(w) && TakenInv(w)
    && (forall id | id in w.issued :: id in Ids(w.l.open) || id in SettledIds(w.history))
    && (w.l.closed ==> w.l.open == [])
  }

  ghost predicate TakenInv(w: World) {
    forall id :: w.taken[id] == if Settlement(id, STALE_USED) in w.history then 1 else 0
  }

  lemma DropKeepsInv(w: World, rule: Rule, reason: string)
    requires Inv(w) && reason != STALE_USED
    ensures Inv(Dropped(w, rule, reason))
  {
    hide Recent, RememberAll, Stays;
    var gone := Select(w.l.open, rule, false);
    DropKeepsTables(w, rule, reason);
    SettlementsOf(gone, reason);
    DropKeepsIssued(w, rule, reason);
    forall id ensures Settlement(id, STALE_USED) in Dropped(w, rule, reason).history
                      <==> Settlement(id, STALE_USED) in w.history {}
  }

  lemma DropKeepsIssued(w: World, rule: Rule, reason: string)
    requires forall id | id in w.issued :: id in Ids(w.l.open) || id in SettledIds(w.history)
    ensures var d := Dropped(w, rule, reason);
            forall id | id in d.issued :: id in Ids(d.l.open) || id in SettledIds(d.history)
  {
    var d := Dropped(w, rule, reason);
    var gone := Select(w.l.open, rule, false);
    SettlementsOf(gone, reason);
    SelectMembers(w.l.open, rule, true);
    SelectMembers(w.l.open, rule, false);
    forall id | id in d.issued ensures id in Ids(d.l.open) || id in SettledIds(d.history) {
      if id in Ids(w.l.open) {
        var t :| t in w.l.open && t.id == id;
        if !Stays(rule, t) {
          var i :| 0 <= i < |gone| && gone[i] == t;
          assert Settlements(gone, reason)[i] in d.history;
        } else {
          assert t in d.l.open;
        }
      } else {
        var s :| s in w.history && s.id == id;
        assert s in d.history;
      }
    }
  }

  lemma TakeSettles(w: World, id: string)
    requires id in Ids(w.l.open)
    ensures var d := Dropped(w, OtherThan(id), STALE_USED);
            forall x :: Settlement(x, STALE_USED) in d.history <==> Settlement(x, STALE_USED) in w.history || x == id
  {
    var d := Dropped(w, OtherThan(id), STALE_USED);
    var gone := Select(w.l.open, OtherThan(id), false);
    SelectMembers(w.l.open, OtherThan(id), false);
    SettlementsOf(gone, STALE_USED);
    var t :| t in w.l.open && t.id == id;
    var i :| 0 <= i < |gone| && gone[i] == t;
    assert Settlements(gone, STALE_USED)[i] == Settlement(id, STALE_USED);
    forall x | Settlement(x, STALE_USED) in Settlements(gone, STALE_USED) ensures x == id {
      var j :| 0 <= j < |gone| && Settlements(gone, STALE_USED)[j] == Settlement(x, STALE_USED);
      assert gone[j] in gone;
    }
  }

  /** Taking an open identity settles it, and nothing else, as used. */
  lemma TakeKeepsInv(w: World, id: string)
    requires Inv(w) && id in Ids(w.l.open)
    ensures Inv(Dropped(w, OtherThan(id), STALE_USED).(taken := w.taken + multiset{id}))
    ensures w.taken[id] == 0
  {
    hide Recent, RememberAll, Select, Settlements, Stays;
    var t :| t in w.l.open && t.id == id;
    assert Settlement(id, STALE_USED) !in w.history;
    DropKeepsTables(w, OtherThan(id), STALE_USED);
    DropKeepsIssued(w, OtherThan(id), STALE_USED);
    TakeSettles(w, id);
  }

  lemma TakeStep(w: World, id: string, kinds: set<Kind>)
    requires Inv(w)
    ensures Inv(Next(w, TakeOne(id, kinds)))
    ensures Takes(w, id, kinds) ==> w.taken[id] == 0 && forall s | s in w.history :: s.id != id
  {
    hide Recent, RememberAll, Stays;
    if !w.l.closed {
      var e := Dropped(w, Unexpired(w.now), STALE_EXPIRED);
      DropKeepsInv(w, Unexpired(w.now), STALE_EXPIRED);
      if Takes(w, id, kinds) {
        assert id in Ids(e.l.open);
        TakeKeepsInv(e, id);
        SelectMembers(w.l.open, Unexpired(w.now), true);
        var t :| t in e.l.open && t.id == id;
        assert t in w.l.open;
      }
    }
  }

  lemma InvStep(w: World, s: Step)
    requires Inv(w) && Possible(w, s)
    ensures Inv(Next(w, s))
  {
    hide Recent, RememberAll;
    match s
    case Tick(_) =>
    case IssueOne(t) => IssueStep(w, t);
    case TakeOne(id, kinds) => TakeStep(w, id, kinds);
    case DropSome(rule, reason) => DropKeepsInv(w, rule, reason);
    case CloseAll =>
      DropKeepsInv(w, NoTicket, STALE_CLOSED);
      SelectMembers(w.l.open, NoTicket, true);
      Inhabited(Select(w.l.open, NoTicket, true));
  }

  lemma Inhabited(tickets: seq<Ticket>)
    ensures tickets != [] ==> exists t :: t in tickets
  {
    if tickets != [] {
      assert tickets[0] in tickets;
    }
  }

  lemma IssueStep(w: World, t: Ticket)
    requires Inv(w) && Possible(w, IssueOne(t))
    ensures Inv(Next(w, IssueOne(t)))
  {
    hide Recent;
    var v := Next(w, IssueOne(t));
    if Issue(w.l, t).Ok? {
      assert v.l.open == w.l.open + [t];
      forall id | id in v.issued ensures id in Ids(v.l.open) || id in SettledIds(v.history) {
        if id == t.id {
          assert t in v.l.open;
        } else if id in Ids(w.l.open) {
          var u :| u in w.l.open && u.id == id;
          assert u in v.l.open;
        }
      }
    }
  }

  lemma {:induction false} InvRun(ws: seq<World>, steps: seq<Step>, i: nat)
    requires IsRun(ws, steps) && i < |ws|
    ensures Inv(ws[i])
  {
    hide Next, Possible, Inv;
    if i == 0 {
      InvStart();
    } else {
      InvRun(ws, steps, i - 1);
      assert Follows(ws[i - 1], steps[i - 1], ws[i]);
      InvStep(ws[i - 1], steps[i - 1]);
    }
  }

  lemma InvStart()
    ensures Inv(Start())
  {}

  // ------------------------------------------------ what becomes of the open tickets

  /** `added` settles exactly these tickets, in their order, for this reason. */
  ghost predicate Settles(added: seq<Settlement>, gone: seq<Ticket>, reason: string) {
    |added| == |gone| && forall i | 0 <= i < |gone| :: added[i] == Settlement(gone[i].id, reason)
  }

  /** Revoking kinds: a ticket stays open exactly if its kind is not among them; the tickets returned are
      exactly the others, each once, and each is settled with the reason given. */
  lemma RevokedExactly(w: World, kinds: set<Kind>, reason: string)
    requires Inv(w)
    ensures var d, gone := Dropped(w, OtherKinds(kinds), reason), Select(w.l.open, OtherKinds(kinds), false);
            && (forall t :: t in d.l.open <==> t in w.l.open && t.kind !in kinds)
            && (forall t :: t in gone <==> t in w.l.open && t.kind in kinds) && Distinct(gone)
            && w.history <= d.history && Settles(d.history[|w.history|..], gone, reason)
            && d.l.settled == Recent(d.history) && d.l.closed == w.l.closed
  {
    var gone := Select(w.l.open, OtherKinds(kinds), false);
    SelectMembers(w.l.open, OtherKinds(kinds), true);
    SelectMembers(w.l.open, OtherKinds(kinds), false);
    SelectDistinct(w.l.open, OtherKinds(kinds), false);
    SettlementsOf(gone, reason);
    DropKeepsTables(w, OtherKinds(kinds), reason);
    hide Recent, RememberAll, Stays, Select, Settlements;
  }

  lemma RevokedIsSettled(w: World, kinds: set<Kind>, reason: string, t: Ticket)
    requires Inv(w) && t in w.l.open && t.kind in kinds
    ensures var d := Dropped(w, OtherKinds(kinds), reason);
            t !in d.l.open && Settlement(t.id, reason) in d.history
  {
    RevokedExactly(w, kinds, reason);
    var d, gone := Dropped(w, OtherKinds(kinds), reason), Select(w.l.open, OtherKinds(kinds), false);
    hide Dropped, Select, Inv;
    var k :| 0 <= k < |gone| && gone[k] == t;
    assert d.history[|w.history|..][k] == Settlement(t.id, reason);
  }

  /** Expiry: a ticket stays open exactly while the clock has not reached its time; the others are settled
      as expired. */
  lemma ExpiredExactly(w: World)
    requires Inv(w)
    ensures var d, gone := Dropped(w, Unexpired(w.now), STALE_EXPIRED), Select(w.l.open, Unexpired(w.now), false);
            && (forall t :: t in d.l.open <==> t in w.l.open && w.now < t.expiresAt)
            && (forall t :: t in gone <==> t in w.l.open && t.expiresAt <= w.now)
            && w.history <= d.history && Settles(d.history[|w.history|..], gone, STALE_EXPIRED)
  {
    var gone := Select(w.l.open, Unexpired(w.now), false);
    SelectMembers(w.l.open, Unexpired(w.now), true);
    SelectMembers(w.l.open, Unexpired(w.now), false);
    SettlementsOf(gone, STALE_EXPIRED);
  }

  /** A take succeeds exactly for an open, unexpired ticket of an accepted kind in an open ledger; then that
      ticket goes, settled as answered, and no other unexpired one. */
  lemma TakenExactly(w: World, id: string, kinds: set<Kind>)
    requires Inv(w)
    ensures Takes(w, id, kinds) <==>
              && !w.l.closed && WellFormedId(id)
              && exists t :: t in w.l.open && t.id == id && w.now < t.expiresAt && (kinds == {} || t.kind in kinds)
    ensures Takes(w, id, kinds) ==>
              var v := Next(w, TakeOne(id, kinds));
              && (forall t :: t in v.l.open <==> t in w.l.open && w.now < t.expiresAt && t.id != id)
              && Settlement(id, STALE_USED) in v.history && v.taken == w.taken + multiset{id}
  {
    hide Recent, RememberAll;
    var e := Dropped(w, Unexpired(w.now), STALE_EXPIRED);
    SelectMembers(w.l.open, Unexpired(w.now), true);
    SelectMembers(e.l.open, OtherThan(id), true);
    if t :| t in w.l.open && t.id == id && w.now < t.expiresAt && (kinds == {} || t.kind in kinds) {
      assert t in e.l.open;
      assert forall u | u in w.l.open && u.id == id :: u == t;
    }
    if Takes(w, id, kinds) {
      TakeSettles(e, id);
    }
  }

  /** Closing leaves nothing open and settles every open ticket, in order, as closed over. */
  lemma ClosedExactly(w: World)
    requires Inv(w)
    ensures var v := Next(w, CloseAll);
            && v.l.closed && v.l.open == [] && w.history <= v.history
            && Settles(v.history[|w.history|..], w.l.open, STALE_CLOSED)
  {
    NoneStays(w.l.open);
    SettlementsOf(w.l.open, STALE_CLOSED);
    hide Recent, RememberAll, Select, Settlements, Stays;
  }

  lemma {:induction false} NoneStays(tickets: seq<Ticket>)
    ensures Select(tickets, NoTicket, true) == [] && Select(tickets, NoTicket, false) == tickets
  {
    if tickets != [] {
      NoneStays(tickets[1..]);
      assert tickets == [tickets[0]] + tickets[1..];
    }
  }

  // ----------------------------------------------------------------- main results

  lemma {:induction false} HistoryGrows(ws: seq<World>, steps: seq<Step>, i: nat, j: nat)
    requires IsRun(ws, steps) && i <= j < |ws|
    ensures ws[i].history <= ws[j].history && (ws[i].l.closed ==> ws[j].l.closed)
    decreases j
  {
    if i < j {
      HistoryGrows(ws, steps, i, j - 1);
      assert Follows(ws[j - 1], steps[j - 1], ws[j]);
    }
  }

  /** An identity that was taken, revoked, expired or closed over, for whatever reason and however long
      ago, is never taken again, also when it was forgotten among the settled; and none is taken after
      close. */
  lemma NeverTakenAfterSettled(ws: seq<World>, steps: seq<Step>, i: nat, j: nat, id: string, kinds: set<Kind>)
    requires IsRun(ws, steps) && i <= j < |ws|
    requires id in SettledIds(ws[i].history) || ws[i].l.closed
    ensures !Takes(ws[j], id, kinds)
  {
    HistoryGrows(ws, steps, i, j);
    InvRun(ws, steps, j);
    TakeStep(ws[j], id, kinds);
    if id in SettledIds(ws[i].history) {
      var s :| s in ws[i].history && s.id == id;
      assert s in ws[j].history;
    }
  }

  /** Every open ticket has an identity that `take` accepts, in a ledger that is open. */
  lemma {:induction false} OpenIsWellFormed(ws: seq<World>, steps: seq<Step>, i: nat)
    requires IsRun(ws, steps) && i < |ws|
    ensures forall t | t in ws[i].l.open :: WellFormedId(t.id) && !ws[i].l.closed
  {
    hide Inv;
    if i > 0 {
      OpenIsWellFormed(ws, steps, i - 1);
      assert Follows(ws[i - 1], steps[i - 1], ws[i]);
      OpenShrinks(ws[i - 1], steps[i - 1]);
    }
  }

  /** Only an issue opens a ticket, and only close closes. */
  lemma OpenShrinks(w: World, s: Step)
    ensures forall t | t in Next(w, s).l.open ::
              t in w.l.open || (s.IssueOne? && t == s.t && WellFormedId(t.id) && !w.l.closed)
    ensures Next(w, s).l.open != [] ==> Next(w, s).l.closed == w.l.closed
  {
    hide Recent, RememberAll, WellFormedId;
    match s
    case DropSome(rule, _) => SelectMembers(w.l.open, rule, true);
    case TakeOne(id, _) =>
      var e := Dropped(w, Unexpired(w.now), STALE_EXPIRED);
      SelectMembers(w.l.open, Unexpired(w.now), true);
      SelectMembers(e.l.open, OtherThan(id), true);
    case CloseAll => NoneStays(w.l.open);
    case _ =>
  }

  /** A ticket settled for any other reason than an answer was never taken, and never will be. */
  lemma SettledUntaken(ws: seq<World>, steps: seq<Step>, i: nat, j: nat, id: string, reason: string)
    requires IsRun(ws, steps) && i <= j < |ws| && Settlement(id, reason) in ws[i].history && reason != STALE_USED
    ensures ws[j].taken[id] == 0
  {
    HistoryGrows(ws, steps, i, j);
    InvRun(ws, steps, j);
    assert Settlement(id, reason) in ws[j].history;
  }

  /** A take that succeeds names an issued identity of an accepted kind, before its expiry, and returns
      the very ticket that was issued under it. */
  lemma TakesOnlyLiveTickets(ws: seq<World>, steps: seq<Step>, i: nat, id: string, kinds: set<Kind>)
    requires IsRun(ws, steps) && i < |ws| && Takes(ws[i], id, kinds)
    ensures id in ws[i].issued && ws[i].taken[id] == 0
    ensures var t := ws[i].issued[id];
            Take(ws[i].l, id, kinds, ws[i].now).1 == Ok(t) && ws[i].now < t.expiresAt
            && (kinds == {} || t.kind in kinds)
  {
    InvRun(ws, steps, i);
    TakeStep(ws[i], id, kinds);
    SelectMembers(ws[i].l.open, Unexpired(ws[i].now), true);
    var e := Expire(ws[i].l, ws[i].now);
    var found := Find(e.open, id);
    assert found[0] in ws[i].l.open;
  }

  /** Over every run of issue, take, revoke, expiry, eviction and close: each identity is taken at most
      once, open and settled identities stay apart, and the settled table holds exactly the most
      recent settlements, at most 256. */
  lemma LedgerSafe(ws: seq<World>, steps: seq<Step>, i: nat)
    requires IsRun(ws, steps) && i < |ws|
    ensures forall id :: ws[i].taken[id] <= 1
    ensures Ids(ws[i].l.open) !! SettledIds(ws[i].l.settled)
    ensures ws[i].l.settled == Recent(ws[i].history) && |ws[i].l.settled| <= MAX_REMEMBERED_SETTLED
    ensures ws[i].issued.Keys == Ids(ws[i].l.open) + SettledIds(ws[i].history)
  {
    InvRun(ws, steps, i);
    forall s | s in ws[i].l.settled ensures s in ws[i].history {}
  }

  lemma {:induction false} LookUpTells(settled: seq<Settlement>, id: string)
    ensures LookUp(settled, id) == STALE_UNKNOWN || Settlement(id, LookUp(settled, id)) in settled
    ensures id in SettledIds(settled) ==> Settlement(id, LookUp(settled, id)) in settled
  {
    if settled != [] {
      LookUpTells(settled[1..], id);
      assert settled == [settled[0]] + settled[1..];
    }
  }

  /** A refused take of an identity that is not open gives the true reason while it is remembered, and
      "unknown" otherwise; a take of the wrong kind changes nothing beyond expiry. */
  lemma RefusalTellsWhy(w: World, id: string, kinds: set<Kind>)
    requires WellFormedId(id) && !w.l.closed && !Takes(w, id, kinds)
    ensures var e := Expire(w.l, w.now); var r := Take(w.l, id, kinds, w.now);
            && r.0 == e && r.1.Stale?
            && (id in Ids(e.open) ==> r.1.reason == STALE_WRONG_KIND)
            && (id !in Ids(e.open) ==> (r.1.reason == STALE_UNKNOWN || Settlement(id, r.1.reason) in e.settled))
            && (id !in Ids(e.open) && id in SettledIds(e.settled) ==> Settlement(id, r.1.reason) in e.settled)
  {
    LookUpTells(Expire(w.l, w.now).settled, id);
  }
}
