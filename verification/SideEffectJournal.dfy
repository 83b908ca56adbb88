/** The durable journal of external side effects, shared by processes that may crash.

    Every read-modify-write of the journal holds the process lock and the file lock, so it is one
    atomic step; only saving has an inside, because the file is replaced first and the marker that
    says "this journal was in use" is written after it. Entry details and times are left out. */
module SideEffectJournal {

  import opened Options

  datatype EntryState = Submitting | Confirmed | Uncertain | NotSubmitted | Acknowledged

  predicate Unresolved(s: EntryState) {
    s.Submitting? || s.Uncertain?
  }

  /** The process a `begin` was recorded for: `pid:created`, either part possibly unreadable. */
  datatype Owner = Owner(pid: Option<nat>, started: string)
  datatype Entry = Entry(contentKey: string, state: EntryState, owner: Owner)
  type Entries = map<string, Entry>

  datatype File = Missing | Damaged | Holds(entries: Entries)

  datatype Refusal = BadArgument | Unavailable | AlreadyAttempted | ContentUnresolved
                   | NeverBegun | AlreadySettled | OnlyConfirm | NotUncertain | Broken

  datatype Result<T> = Ok(value: T) | Err(refusal: Refusal)

  // ------------------------------------------------------- what each call does

  function Load(file: File, marker: bool): Result<Entries> {
    match file
    case Holds(entries) => Ok(entries)
    case Damaged => Err(Unavailable)
    case Missing => if marker then Err(Unavailable) else Ok(map[])
  }

  ghost predicate Blocked(entries: Entries, content: string) {
    exists k :: k in entries && entries[k].contentKey == content && Unresolved(entries[k].state)
  }

  ghost function Begun(entries: Entries, op: string, content: string, owner: Owner): Result<Entries> {
    if op == "" || content == "" then Err(BadArgument)
    else if op in entries then Err(AlreadyAttempted)
    else if Blocked(entries, content) then Err(ContentUnresolved)
    else Ok(entries[op := Entry(content, Submitting, owner)])
  }

  function Settled(entries: Entries, op: string, state: EntryState): Result<Entries> {
    if state.Submitting? || state.Acknowledged? then Err(BadArgument)
    else if op !in entries then Err(NeverBegun)
    else if !Unresolved(entries[op].state) then Err(AlreadySettled)
    else if entries[op].state.Uncertain? && !state.Confirmed? then Err(OnlyConfirm)
    else Ok(entries[op := entries[op].(state := state)])
  }

  function Released(entries: Entries, op: string): Result<Entries> {
    if op !in entries || !entries[op].state.Uncertain? then Err(NotUncertain)
    else Ok(entries[op := entries[op].(state := Acknowledged)])
  }

  /** What the operating system answers about the owner of an entry. */
  datatype Answer = NoPsutil | NoSuchProcess | Denied | Runs(created: string)

  /** False only when the recorded process has certainly ended. */
  function OwnerAlive(owner: Owner, answer: Answer): bool {
    match owner.pid
    case None => true
    case Some(_) =>
      match answer
      case NoSuchProcess => false
      case Runs(created) => owner.started == "" || created == owner.started
      case _ => true
  }

  predicate Interrupted(e: Entry, answer: Answer) {
    e.state.Submitting? && !OwnerAlive(e.owner, answer)
  }

  function Reconciled(entries: Entries, answers: map<string, Answer>): Entries {
    map k | k in entries ::
      if k in answers && Interrupted(entries[k], answers[k]) then entries[k].(state := Uncertain) else entries[k]
  }

  /** What lies on the disk: the journal and, beside it, the marker that it was in use. */
  datatype Disk = Disk(file: File, marker: bool)

  /** How a save goes: the file cannot be replaced; the process dies or the disk fails before the save
      is over; or the save returns, and then the marker stands. */
  datatype Luck = Unwritten | Unmarked | Finished

  function Reading(d: Disk): Result<Entries> {
    Load(d.file, d.marker)
  }

  /** Writes the entries, if there are any to write. A call whose save does not return has not returned
      either. */
  function Written(d: Disk, next: Result<Entries>, luck: Luck): (Disk, Result<()>) {
    if next.Err? then (d, Err(next.refusal))
    else match luck
      case Unwritten => (d, Err(Broken))
      case Unmarked => (d.(file := Holds(next.value)), Err(Broken))
      case Finished => (Disk(Holds(next.value), true), Ok(()))
  }

  ghost function AfterBegin(d: Disk, op: string, content: string, owner: Owner, luck: Luck): (Disk, Result<()>) {
    Written(d, if op == "" || content == "" then Err(BadArgument)
               else if Reading(d).Err? then Reading(d) else Begun(Reading(d).value, op, content, owner), luck)
  }

  function AfterSettle(d: Disk, op: string, state: EntryState, luck: Luck): (Disk, Result<()>) {
    Written(d, if state.Submitting? || state.Acknowledged? then Err(BadArgument)
               else if Reading(d).Err? then Reading(d) else Settled(Reading(d).value, op, state), luck)
  }

  function AfterAcknowledge(d: Disk, op: string, luck: Luck): (Disk, Result<()>) {
    Written(d, if Reading(d).Err? then Reading(d) else Released(Reading(d).value, op), luck)
  }

  /** Nothing is written when no attempt was interrupted. */
  function AfterReconcile(d: Disk, answers: map<string, Answer>, luck: Luck): (Disk, Result<()>) {
    if Reading(d).Ok? && Reconciled(Reading(d).value, answers) == Reading(d).value then (d, Ok(()))
    else Written(d, if Reading(d).Err? then Reading(d) else Ok(Reconciled(Reading(d).value, answers)), luck)
  }

  // ------------------------------------------------------ the journal as an object

  class Journal {
    var file: File
    var marker: bool

    ghost function Contents(): Disk
      reads this
    {
      Disk(file, marker)
    }

    constructor ()
      ensures Contents() == Disk(Missing, false)
    {
      file, marker := Missing, false;
    }

    method Save(entries: Entries, luck: Luck) returns (r: Result<()>)
      modifies this
      ensures (Contents(), r) == Written(old(Contents()), Ok(entries), luck)
    {
      if luck.Unwritten? {
        return Err(Broken);
      }
      file := Holds(entries);
      if luck.Unmarked? {
        return Err(Broken);
      }
      if !marker {
        marker := true;
      }
      r := Ok(());
    }

    method Begin(op: string, content: string, owner: Owner, luck: Luck) returns (r: Result<()>)
      modifies this
      ensures (Contents(), r) == AfterBegin(old(Contents()), op, content, owner, luck)
    {
      if op == "" || content == "" {
        return Err(BadArgument);
      }
      var loaded := Load(file, marker);
      if loaded.Err? {
        return Err(loaded.refusal);
      }
      var entries := loaded.value;
      if op in entries {
        return Err(AlreadyAttempted);
      }
      var todo := entries.Keys;
      while todo != {}
        invariant todo <= entries.Keys
        invariant forall k | k in entries && k !in todo ::
                    !(entries[k].contentKey == content && Unresolved(entries[k].state))
      {
        var k :| k in todo;
        if entries[k].contentKey == content && Unresolved(entries[k].state) {
          return Err(ContentUnresolved);
        }
        todo := todo - {k};
      }
      r := Save(entries[op := Entry(content, Submitting, owner)], luck);
    }

    method Settle(op: string, state: EntryState, luck: Luck) returns (r: Result<()>)
      modifies this
      ensures (Contents(), r) == AfterSettle(old(Contents()), op, state, luck)
    {
      if state.Submitting? || state.Acknowledged? {
        return Err(BadArgument);
      }
      var loaded := Load(file, marker);
      if loaded.Err? {
        return Err(loaded.refusal);
      }
      var next := Settled(loaded.value, op, state);
      if next.Err? {
        return Err(next.refusal);
      }
      r := Save(next.value, luck);
    }

    /** Settles, and looks again if that was refused. The two hold the lock one after the other: `later`
        is what other processes have left the journal as in between, if they acted. An argument error
        and a failed save pass through without a second look. */
    method SettleIfUnresolved(op: string, state: EntryState, luck: Luck, later: Option<Disk>)
      returns (r: Result<bool>)
      modifies this
      ensures var tried := AfterSettle(old(Contents()), op, state, luck);
              var found := if later.Some? then later.value else old(Contents());
              if tried.1.Ok? then r == Ok(true) && Contents() == tried.0
              else if tried.1.refusal.BadArgument? || tried.1.refusal.Broken? then
                r == Err(tried.1.refusal) && Contents() == tried.0
              else
                && Contents() == found
                && (r == Ok(false) <==> Reading(found).Ok? && op in Reading(found).value
                                        && !Unresolved(Reading(found).value[op].state))
                && (r != Ok(false) ==> r == Err(if Reading(found).Err? then Unavailable else tried.1.refusal))
    {
      var tried := Settle(op, state, luck);
      if tried.Ok? {
        return Ok(true);
      }
      if tried.refusal.BadArgument? || tried.refusal.Broken? {
        return Err(tried.refusal);
      }
      if later.Some? {
        file, marker := later.value.file, later.value.marker;
      }
      var loaded := Load(file, marker);
      if loaded.Err? {
        return Err(loaded.refusal);
      }
      if op !in loaded.value || Unresolved(loaded.value[op].state) {
        return Err(tried.refusal);
      }
      return Ok(false);
    }

    method Acknowledge(op: string, luck: Luck) returns (r: Result<()>)
      modifies this
      ensures (Contents(), r) == AfterAcknowledge(old(Contents()), op, luck)
    {
      var loaded := Load(file, marker);
      if loaded.Err? {
        return Err(loaded.refusal);
      }
      var next := Released(loaded.value, op);
      if next.Err? {
        return Err(next.refusal);
      }
      r := Save(next.value, luck);
    }

    /** `answers` holds what the system said about each entry's owner when the loop asked. */
    method ReconcileInterrupted(answers: map<string, Answer>, luck: Luck) returns (r: Result<set<string>>)
      requires Reading(Contents()).Ok? ==> Reading(Contents()).value.Keys <= answers.Keys
      modifies this
      ensures var after := AfterReconcile(old(Contents()), answers, luck);
              && Contents() == after.0
              && (r.Ok? <==> after.1.Ok?)
              && (r.Err? ==> r.refusal == after.1.refusal)
              && (r.Ok? ==> var entries := Reading(old(Contents())).value;
                            r.value == set k | k in entries && Interrupted(entries[k], answers[k]))
    {
      var loaded := Load(file, marker);
      if loaded.Err? {
        return Err(loaded.refusal);
      }
      var entries := loaded.value;
      var changed := {};
      var todo := entries.Keys;
      while todo != {}
        invariant todo <= loaded.value.Keys && entries.Keys == loaded.value.Keys
        invariant changed == set k | k in loaded.value && k !in todo && Interrupted(loaded.value[k], answers[k])
        invariant forall k | k in entries ::
                    entries[k] == if k in changed then loaded.value[k].(state := Uncertain) else loaded.value[k]
      {
        var k :| k in todo;
        todo := todo - {k};
        if Interrupted(entries[k], answers[k]) {
          entries := entries[k := entries[k].(state := Uncertain)];
          changed := changed + {k};
        }
      }
      assert entries == Reconciled(loaded.value, answers);
      assert changed == set k | k in loaded.value && Interrupted(loaded.value[k], answers[k]);
      if changed != {} {
        assert entries != loaded.value by {
          var k :| k in changed;
          assert entries[k] != loaded.value[k];
        }
        var saved := Save(entries, luck);
        if saved.Err? {
          return Err(saved.refusal);
        }
      } else {
        assert entries == loaded.value;
      }
      return Ok(changed);
    }
  }

  // ----------------------------------------------------------- many processes

  /** A process is its id and its start time, as the operating system reports it. */
  datatype Process = Process(pid: nat, created: string)

  /** `granted` is history: how often a `begin` of each operation returned. Only then does its caller go on
      to print or download; a begin that dies or raises lets nothing happen. */
  datatype World = World(disk: Disk, live: set<Process>, granted: multiset<string>)

  /** `named` tells whether the start time of the process could be read when it began. */
  datatype Step =
    | Spawn(p: Process)
    | Crash(p: Process)
    | Begin(p: Process, named: bool, op: string, content: string, luck: Luck)
    | Settle(op: string, state: EntryState, luck: Luck)
    | Acknowledge(op: string, luck: Luck)
    | Reconcile(answers: map<string, Answer>, luck: Luck)
    | Lose
    | Damage
    | LoseMarker

  const START := World(Disk(Missing, false), {}, multiset{})

  /** The system never says of a running process that it is gone or started at another time. */
  ghost predicate Truthful(live: set<Process>, owner: Owner, answer: Answer) {
    forall p | p in live && owner.pid == Some(p.pid) ::
      answer.NoPsutil? || answer.Denied? || answer == Runs(p.created)
  }

  ghost predicate Possible(w: World, s: Step) {
    match s
    case Spawn(p) => forall q | q in w.live :: q.pid != p.pid
    case Begin(p, _, _, _, _) => p in w.live
    case Reconcile(answers, _) =>
      Reading(w.disk).Ok? ==>
        forall k | k in Reading(w.disk).value ::
          k in answers && Truthful(w.live, Reading(w.disk).value[k].owner, answers[k])
    case Lose => !w.disk.file.Missing?
    case Damage => !w.disk.file.Missing?
    case _ => true
  }

  function OwnerOf(p: Process, named: bool): Owner {
    Owner(Some(p.pid), if named then p.created else "")
  }

  ghost function Next(w: World, s: Step): World {
    match s
    case Spawn(p) => w.(live := w.live + {p})
    case Crash(p) => w.(live := w.live - {p})
    case Begin(p, named, op, content, luck) =>
      var (disk, r) := AfterBegin(w.disk, op, content, OwnerOf(p, named), luck);
      w.(disk := disk, granted := if r.Ok? then w.granted + multiset{op} else w.granted)
    case Settle(op, state, luck) => w.(disk := AfterSettle(w.disk, op, state, luck).0)
    case Acknowledge(op, luck) => w.(disk := AfterAcknowledge(w.disk, op, luck).0)
    case Reconcile(answers, luck) => w.(disk := AfterReconcile(w.disk, answers, luck).0)
    case Lose => w.(disk := w.disk.(file := Missing))
    case Damage => w.(disk := w.disk.(file := Damaged))
    case LoseMarker => w.(disk := w.disk.(marker := false))
  }

  ghost predicate Follows(w: World, s: Step, v: World) {
    Possible(w, s) && v == Next(w, s)
  }

  ghost predicate IsRun(ws: seq<World>, steps: seq<Step>) {
    && |ws| == |steps| + 1 && ws[0] == START
    && forall i | 0 <= i < |steps| :: Follows(ws[i], steps[i], ws[i + 1])
  }

  // ----------------------------------------------------- one unresolved attempt

  ghost predicate OneUnresolved(entries: Entries) {
    forall k, l | k in entries && l in entries && k != l && entries[k].contentKey == entries[l].contentKey ::
      !(Unresolved(entries[k].state) && Unresolved(entries[l].state))
  }

  lemma BeginKeeps(entries: Entries, op: string, content: string, owner: Owner)
    requires OneUnresolved(entries) && Begun(entries, op, content, owner).Ok?
    ensures var after := Begun(entries, op, content, owner).value;
            OneUnresolved(after) && after.Keys == entries.Keys + {op} && op !in entries
  {
    var after := Begun(entries, op, content, owner).value;
    forall k, l | k in after && l in after && k != l && after[k].contentKey == after[l].contentKey
      ensures !(Unresolved(after[k].state) && Unresolved(after[l].state))
    {
      assert !Blocked(entries, content);
    }
  }

  lemma ReconcileKeeps(entries: Entries, answers: map<string, Answer>)
    requires OneUnresolved(entries)
    ensures OneUnresolved(Reconciled(entries, answers)) && Reconciled(entries, answers).Keys == entries.Keys
  {}

  ghost predicate UnresolvedInv(d: Disk) {
    d.file.Holds? ==> OneUnresolved(d.file.entries)
  }

  lemma SettlingKeeps(entries: Entries, op: string, state: EntryState)
    requires OneUnresolved(entries)
    ensures Settled(entries, op, state).Ok? ==> OneUnresolved(Settled(entries, op, state).value)
    ensures Released(entries, op).Ok? ==> OneUnresolved(Released(entries, op).value)
  {}

  lemma UnresolvedStep(w: World, s: Step)
    requires UnresolvedInv(w.disk)
    ensures UnresolvedInv(Next(w, s).disk)
  {
    hide OneUnresolved, Begun, Settled, Released, Reconciled;
    if Reading(w.disk).Ok? {
      var entries := Reading(w.disk).value;
      match s
      case Begin(p, named, op, content, _) =>
        if Begun(entries, op, content, OwnerOf(p, named)).Ok? {
          BeginKeeps(entries, op, content, OwnerOf(p, named));
        }
      case Settle(op, state, _) => SettlingKeeps(entries, op, state);
      case Acknowledge(op, _) => SettlingKeeps(entries, op, Confirmed);
      case Reconcile(answers, _) => ReconcileKeeps(entries, answers);
      case _ =>
    }
  }

  /** While any attempt for some content is unresolved, no other attempt for it is: in any state any set
      of processes can reach, whatever crashes, is lost or is damaged. */
  lemma {:induction false} OneUnresolvedPerContent(ws: seq<World>, steps: seq<Step>, i: nat)
    requires IsRun(ws, steps) && i < |ws|
    ensures ws[i].disk.file.Holds? ==> OneUnresolved(ws[i].disk.file.entries)
  {
    hide Next, Possible, OneUnresolved;
    if i > 0 {
      OneUnresolvedPerContent(ws, steps, i - 1);
      assert Follows(ws[i - 1], steps[i - 1], ws[i]);
      UnresolvedStep(ws[i - 1], steps[i - 1]);
    }
  }

  // ---------------------------------------------------------- granted once, ever

  /** The journal and its marker are both gone, so it reads as empty. */
  predicate Blank(d: Disk) {
    d.file.Missing? && !d.marker
  }

  /** It reads as empty although attempts were granted. */
  predicate Forgotten(w: World) {
    Blank(w.disk) && w.granted != multiset{}
  }

  ghost predicate GrantInv(w: World) {
    && (forall op :: w.granted[op] <= 1)
    && (w.disk.file.Holds? ==> forall op | op in w.granted :: op in w.disk.file.entries)
  }

  lemma GrantStep(w: World, s: Step)
    requires GrantInv(w) && !Forgotten(w)
    ensures GrantInv(Next(w, s))
  {
    hide Blocked, OwnerAlive;
  }

  lemma {:induction false} GrantRun(ws: seq<World>, steps: seq<Step>, i: nat)
    requires IsRun(ws, steps) && i < |ws| && forall k | 0 <= k < i :: !Forgotten(ws[k])
    ensures GrantInv(ws[i])
  {
    hide Next, Possible;
    if i > 0 {
      GrantRun(ws, steps, i - 1);
      assert Follows(ws[i - 1], steps[i - 1], ws[i]);
      GrantStep(ws[i - 1], steps[i - 1]);
    }
  }

  lemma MarkedStep(w: World, s: Step)
    requires (w.granted != multiset{} ==> w.disk.marker) && !s.LoseMarker?
    ensures Next(w, s).granted != multiset{} ==> Next(w, s).disk.marker
  {
    hide Blocked, OwnerAlive, Reconciled;
  }

  /** As long as nobody removes the marker nothing granted is forgotten, whenever the journal itself is
      lost or damaged: a begin that returns has left the marker. */
  lemma {:induction false} NeverForgotten(ws: seq<World>, steps: seq<Step>, i: nat)
    requires IsRun(ws, steps) && i < |ws| && forall k | 0 <= k < i :: !steps[k].LoseMarker?
    ensures ws[i].granted != multiset{} ==> ws[i].disk.marker
  {
    hide Next, Possible;
    if i > 0 {
      NeverForgotten(ws, steps, i - 1);
      assert Follows(ws[i - 1], steps[i - 1], ws[i]);
      MarkedStep(ws[i - 1], steps[i - 1]);
    }
  }

  /** Each operation is granted at most once ever, over every run of any processes with crashes, failed
      writes, losses and damage, while the marker is not removed by hand. */
  lemma GrantedAtMostOnce(ws: seq<World>, steps: seq<Step>, i: nat, op: string)
    requires IsRun(ws, steps) && i < |ws| && forall k | 0 <= k < i :: !steps[k].LoseMarker?
    ensures ws[i].granted[op] <= 1
  {
    forall k | 0 <= k < i ensures !Forgotten(ws[k]) {
      NeverForgotten(ws, steps, k);
    }
    GrantRun(ws, steps, i);
  }

  lemma Extend(ws: seq<World>, steps: seq<Step>, s: Step) returns (vs: seq<World>, more: seq<Step>)
    requires IsRun(ws, steps) && Possible(ws[|steps|], s)
    ensures IsRun(vs, more) && vs[|more|] == Next(ws[|steps|], s) && ws <= vs && steps <= more
  {
    hide Next, Possible;
    vs, more := ws + [Next(ws[|steps|], s)], steps + [s];
    forall i | 0 <= i < |more| ensures Follows(vs[i], more[i], vs[i + 1]) {
      if i < |steps| {
        assert Follows(ws[i], steps[i], ws[i + 1]);
      }
    }
  }

  /** Without journal and marker everything can be granted again: every run that ends forgotten goes on
      to grant any operation once more. */
  lemma ForgottenIsGrantedAgain(ws: seq<World>, steps: seq<Step>, op: string)
    returns (vs: seq<World>, more: seq<Step>)
    requires IsRun(ws, steps) && Blank(ws[|steps|].disk) && op != ""
    ensures IsRun(vs, more) && ws <= vs && vs[|more|].granted == ws[|steps|].granted + multiset{op}
    ensures vs[|more|].disk.file.Holds?
  {
    var pid := FreshPid(ws[|steps|].live);
    var p := Process(pid, "0.000");
    vs, more := Extend(ws, steps, Spawn(p));
    vs, more := Extend(vs, more, Begin(p, true, op, "content", Finished));
  }

  lemma {:induction false} FreshPid(live: set<Process>) returns (pid: nat)
    ensures forall q | q in live :: q.pid < pid
  {
    if live == {} {
      pid := 0;
    } else {
      var q :| q in live;
      var rest := FreshPid(live - {q});
      pid := if rest > q.pid then rest else q.pid + 1;
    }
  }

  /** An operation is granted at most once in every run of a kind exactly when no run of the kind forgets:
      loses the journal and its marker after a grant. */
  lemma GrantedOnceExactly(forgets: bool)
    ensures (forall ws: seq<World>, steps: seq<Step> | IsRun(ws, steps) && (forgets || NoneForgotten(ws)) ::
               GrantedOnce(ws))
            <==> !forgets
  {
    if forgets {
      var ws: seq<World>, steps: seq<Step> := [START], [];
      ws, steps := ForgottenIsGrantedAgain(ws, steps, "op");
      ws, steps := Extend(ws, steps, Lose);
      ws, steps := Extend(ws, steps, LoseMarker);
      ws, steps := ForgottenIsGrantedAgain(ws, steps, "op");
      assert |ws| == |steps| + 1 && ws[|steps|].granted["op"] == 2;
    } else {
      hide IsRun, Forgotten;
      forall ws: seq<World>, steps: seq<Step> | IsRun(ws, steps) && NoneForgotten(ws) ensures GrantedOnce(ws) {
        forall i | 0 <= i < |ws| ensures forall op :: ws[i].granted[op] <= 1 {
          GrantRun(ws, steps, i);
        }
      }
    }
  }

  ghost predicate GrantedOnce(ws: seq<World>) {
    forall i | 0 <= i < |ws| :: forall op :: ws[i].granted[op] <= 1
  }

  predicate NoneForgotten(ws: seq<World>) {
    forall k | 0 <= k < |ws| :: !Forgotten(ws[k])
  }

  /** What may become of an entry: an unclear outcome is never turned into "did not happen". */
  predicate MayBecome(s: EntryState, t: EntryState) {
    s == t || s.Submitting? || (s.Uncertain? && (t.Confirmed? || t.Acknowledged?))
  }

  ghost predicate Keeps(before: Entries, after: Entries) {
    forall k | k in before ::
      && k in after && after[k] == before[k].(state := after[k].state)
      && MayBecome(before[k].state, after[k].state)
  }

  lemma StepKeeps(w: World, s: Step)
    requires w.disk.file.Holds? && Next(w, s).disk.file.Holds?
    ensures Keeps(w.disk.file.entries, Next(w, s).disk.file.entries)
  {
    hide Begun, Settled, Released, Reconciled, Keeps;
    var entries := w.disk.file.entries;
    match s
    case Begin(p, named, op, content, _) => ChangesKeep(entries, op, content, OwnerOf(p, named), Confirmed, map[]);
    case Settle(op, state, _) => ChangesKeep(entries, op, "", Owner(None, ""), state, map[]);
    case Reconcile(answers, _) => ChangesKeep(entries, "", "", Owner(None, ""), Confirmed, answers);
    case Acknowledge(op, _) => ChangesKeep(entries, op, "", Owner(None, ""), Confirmed, map[]);
    case _ => ChangesKeep(entries, "", "", Owner(None, ""), Confirmed, map[]);
  }

  /** Whatever is written keeps what was there. */
  lemma ChangesKeep(entries: Entries, op: string, content: string, owner: Owner, state: EntryState,
                    answers: map<string, Answer>)
    ensures Keeps(entries, entries)
    ensures Begun(entries, op, content, owner).Ok? ==> Keeps(entries, Begun(entries, op, content, owner).value)
    ensures Settled(entries, op, state).Ok? ==> Keeps(entries, Settled(entries, op, state).value)
    ensures Released(entries, op).Ok? ==> Keeps(entries, Released(entries, op).value)
    ensures Keeps(entries, Reconciled(entries, answers))
  {
    hide Blocked, OwnerAlive;
  }

  /** A file that is gone or damaged does not come back: nothing is written without loading first, and a
      missing file loads only without its marker. */
  lemma HeldBefore(w: World, s: Step)
    requires Next(w, s).disk.file.Holds? && !Blank(w.disk)
    ensures w.disk.file.Holds?
  {
    hide Blocked, OwnerAlive;
  }

  /** The marker alone keeps the journal from reading as empty. */
  lemma {:induction false} MarkerStays(ws: seq<World>, steps: seq<Step>, i: nat, j: nat)
    requires IsRun(ws, steps) && i <= j < |ws| && ws[i].disk.marker && forall k | i <= k < j :: !steps[k].LoseMarker?
    ensures ws[j].disk.marker
    decreases j
  {
    hide Possible, Blocked, OwnerAlive, Reconciled;
    if i < j {
      MarkerStays(ws, steps, i, j - 1);
      assert Follows(ws[j - 1], steps[j - 1], ws[j]);
    }
  }

  /** Between two points of a run, as long as journal and marker are not both gone in between, no entry
      disappears or changes its content or owner, and its state only moves forward: from uncertain only
      to confirmed or acknowledged. */
  lemma {:induction false} EntriesNeverDisappear(ws: seq<World>, steps: seq<Step>, i: nat, j: nat)
    requires IsRun(ws, steps) && i <= j < |ws| && forall k | i <= k < j :: !Blank(ws[k].disk)
    requires ws[i].disk.file.Holds? && ws[j].disk.file.Holds?
    ensures Keeps(ws[i].disk.file.entries, ws[j].disk.file.entries)
    decreases j
  {
    hide Next, Possible;
    if i < j {
      assert Follows(ws[j - 1], steps[j - 1], ws[j]);
      HeldBefore(ws[j - 1], steps[j - 1]);
      EntriesNeverDisappear(ws, steps, i, j - 1);
      StepKeeps(ws[j - 1], steps[j - 1]);
    }
  }

  /** So from the moment a begin has returned its entry is there whenever the journal can be read, while
      the marker is not removed. */
  lemma GrantedStaysOnRecord(ws: seq<World>, steps: seq<Step>, i: nat, j: nat, op: string)
    requires IsRun(ws, steps) && i <= j < |ws| && forall k | 0 <= k < j :: !steps[k].LoseMarker?
    requires op in ws[i].granted && Reading(ws[j].disk).Ok?
    ensures op in Reading(ws[j].disk).value
  {
    hide Next, Possible;
    NeverForgotten(ws, steps, i);
    MarkerStays(ws, steps, i, j);
    GrantsGrow(ws, steps, i, j);
    forall k | 0 <= k < j ensures !Forgotten(ws[k]) {
      NeverForgotten(ws, steps, k);
    }
    GrantRun(ws, steps, j);
  }

  lemma {:induction false} GrantsGrow(ws: seq<World>, steps: seq<Step>, i: nat, j: nat)
    requires IsRun(ws, steps) && i <= j < |ws|
    ensures ws[i].granted <= ws[j].granted
    decreases j
  {
    hide Possible, AfterBegin, AfterSettle, AfterAcknowledge, AfterReconcile;
    if i < j {
      assert Follows(ws[j - 1], steps[j - 1], ws[j]);
      GrantsGrow(ws, steps, i, j - 1);
    }
  }

  /** An entry whose begin did not return may vanish: the file is lost before its first marker. It is then
      recorded again, but granted only once. */
  lemma UnmarkedEntryVanishes() returns (ws: seq<World>, steps: seq<Step>)
    ensures IsRun(ws, steps) && |ws| == |steps| + 1 && |ws| == 5 && forall k | 0 <= k < 4 :: !steps[k].LoseMarker?
    ensures ws[2].disk.file == Holds(map["op" := Entry("content", Submitting, OwnerOf(Process(1, "0.000"), true))])
    ensures ws[4].disk.file == Holds(map["op" := Entry("other", Submitting, OwnerOf(Process(1, "0.000"), true))])
    ensures ws[4].granted == multiset{"op"}
  {
    hide Blocked;
    var p := Process(1, "0.000");
    var owner := OwnerOf(p, true);
    NothingBlocks("content");
    NothingBlocks("other");
    var w1 := START.(live := {p});
    var w2 := w1.(disk := Disk(Holds(map["op" := Entry("content", Submitting, owner)]), false));
    var w4 := World(Disk(Holds(map["op" := Entry("other", Submitting, owner)]), true), {p}, multiset{"op"});
    ws, steps := [START, w1, w2, w1, w4],
                 [Spawn(p), Begin(p, true, "op", "content", Unmarked), Lose, Begin(p, true, "op", "other", Finished)];
    assert Next(START, Spawn(p)) == w1 && Next(w1, steps[1]) == w2 && Next(w2, Lose) == w1 && Next(w1, steps[3]) == w4;
  }

  lemma NothingBlocks(content: string)
    ensures !Blocked(map[], content)
  {}

  // ------------------------------------------------------ what a call that returns has written

  /** Exactly one entry is another one now; the others, and the set of operations, are as before. */
  ghost predicate OnlyChanged(before: Entries, after: Entries, op: string, e: Entry) {
    && op in before && after.Keys == before.Keys && after[op] == e
    && forall k | k in before && k != op :: after[k] == before[k]
  }

  /** A settle returns exactly for an outcome that may follow the recorded state, and then the entry has
      just that outcome, its content and its owner, and nothing else has changed. */
  lemma SettleRecords(d: Disk, op: string, state: EntryState, luck: Luck)
    ensures AfterSettle(d, op, state, luck).1.Ok? <==>
              && d.file.Holds? && op in d.file.entries && luck.Finished?
              && d.file.entries[op].state in {Submitting, Uncertain}
              && (state.Confirmed? || (d.file.entries[op].state.Submitting? && state in {Uncertain, NotSubmitted}))
    ensures AfterSettle(d, op, state, luck).1.Ok? ==>
              var after, e := AfterSettle(d, op, state, luck).0, d.file.entries[op];
              && after.marker && after.file.Holds?
              && OnlyChanged(d.file.entries, after.file.entries, op, Entry(e.contentKey, state, e.owner))
  {}

  /** A release returns exactly for an uncertain entry, and acknowledges just that one. */
  lemma AcknowledgeRecords(d: Disk, op: string, luck: Luck)
    ensures AfterAcknowledge(d, op, luck).1.Ok? <==>
              d.file.Holds? && op in d.file.entries && d.file.entries[op].state.Uncertain? && luck.Finished?
    ensures AfterAcknowledge(d, op, luck).1.Ok? ==>
              var after, e := AfterAcknowledge(d, op, luck).0, d.file.entries[op];
              && after.marker && after.file.Holds?
              && OnlyChanged(d.file.entries, after.file.entries, op, Entry(e.contentKey, Acknowledged, e.owner))
  {}

  /** A begin returns exactly for an operation not on record whose content has no open attempt, in a journal
      that can be read or was never used; and then it has added its attempt, and nothing else. */
  lemma BeginRecords(d: Disk, op: string, content: string, owner: Owner, luck: Luck)
    ensures var before := if d.file.Holds? then d.file.entries else map[];
            AfterBegin(d, op, content, owner, luck).1.Ok? <==>
              && op != "" && content != "" && luck.Finished? && (d.file.Holds? || Blank(d)) && op !in before
              && forall k | k in before && before[k].contentKey == content ::
                   before[k].state in {Confirmed, NotSubmitted, Acknowledged}
    ensures AfterBegin(d, op, content, owner, luck).1.Ok? ==>
              var before := if d.file.Holds? then d.file.entries else map[];
              AfterBegin(d, op, content, owner, luck).0
                == Disk(Holds(before[op := Entry(content, Submitting, owner)]), true)
  {}

  /** A reconciliation that returns has made exactly the interrupted attempts uncertain. */
  lemma ReconcileRecords(d: Disk, answers: map<string, Answer>, luck: Luck)
    requires d.file.Holds? && d.file.entries.Keys <= answers.Keys
    ensures var (after, r) := AfterReconcile(d, answers, luck);
            r.Ok? ==>
              && after.file.Holds? && after.file.entries.Keys == d.file.entries.Keys
              && forall k | k in d.file.entries ::
                   var e := d.file.entries[k];
                   after.file.entries[k] == if e.state.Submitting? && !OwnerAlive(e.owner, answers[k])
                                            then Entry(e.contentKey, Uncertain, e.owner) else e
  {
    hide OwnerAlive;
  }

  /** When none was interrupted nothing is written, so no failing save can matter. */
  lemma NothingToReconcile(d: Disk, answers: map<string, Answer>, luck: Luck)
    requires Reading(d).Ok?
    requires forall k | k in Reading(d).value && k in answers :: !Interrupted(Reading(d).value[k], answers[k])
    ensures AfterReconcile(d, answers, luck) == (d, Ok(()))
  {
    hide OwnerAlive;
  }

  // -------------------------------------------------------- an open outcome blocks a repeat

  /** A call that writes a final outcome of the entry, one its state allows. */
  predicate Closes(state: EntryState, s: Step, op: string) {
    || (s.Settle? && s.op == op && !s.luck.Unwritten?
        && (s.state.Confirmed? || (state.Submitting? && s.state.NotSubmitted?)))
    || (s.Acknowledge? && s.op == op && !s.luck.Unwritten?)
  }

  lemma OpenStep(w: World, s: Step, op: string, first: EntryState)
    requires w.disk.file.Holds? && Next(w, s).disk.file.Holds? && op in w.disk.file.entries
    requires Unresolved(w.disk.file.entries[op].state)
    requires first.Uncertain? ==> w.disk.file.entries[op].state.Uncertain?
    requires Unresolved(first) && !Closes(first, s, op)
    ensures var entries := Next(w, s).disk.file.entries;
            && op in entries && entries[op].contentKey == w.disk.file.entries[op].contentKey
            && Unresolved(entries[op].state) && (first.Uncertain? ==> entries[op].state.Uncertain?)
  {
    hide Blocked, OwnerAlive;
  }

  lemma {:induction false} StaysOpen(ws: seq<World>, steps: seq<Step>, i: nat, j: nat, op: string)
    requires IsRun(ws, steps) && i <= j < |ws| && forall k | i <= k < j :: !Blank(ws[k].disk)
    requires ws[i].disk.file.Holds? && op in ws[i].disk.file.entries && Unresolved(ws[i].disk.file.entries[op].state)
    requires forall k | i <= k < j :: !Closes(ws[i].disk.file.entries[op].state, steps[k], op)
    requires ws[j].disk.file.Holds?
    ensures var before, after := ws[i].disk.file.entries, ws[j].disk.file.entries;
            && op in after && after[op].contentKey == before[op].contentKey && Unresolved(after[op].state)
            && (before[op].state.Uncertain? ==> after[op].state.Uncertain?)
    decreases j
  {
    hide Next, Possible, Closes, Blocked;
    if i < j {
      assert Follows(ws[j - 1], steps[j - 1], ws[j]);
      HeldBefore(ws[j - 1], steps[j - 1]);
      StaysOpen(ws, steps, i, j - 1, op);
      OpenStep(ws[j - 1], steps[j - 1], op, ws[i].disk.file.entries[op].state);
    }
  }

  /** While an outcome is open, no other attempt for the same content is granted, by any process, whatever
      is lost or damaged, until that very entry is confirmed, found not submitted (from submitting only) or
      acknowledged; with the journal and its marker both gone nothing is remembered. */
  lemma OpenOutcomeBlocks(ws: seq<World>, steps: seq<Step>, i: nat, j: nat, op: string)
    requires IsRun(ws, steps) && i <= j < |steps| && forall k | i <= k <= j :: !Blank(ws[k].disk)
    requires ws[i].disk.file.Holds? && op in ws[i].disk.file.entries && Unresolved(ws[i].disk.file.entries[op].state)
    requires steps[j].Begin? && steps[j].content == ws[i].disk.file.entries[op].contentKey
    requires ws[j + 1].granted != ws[j].granted
    ensures exists k :: i <= k < j && Closes(ws[i].disk.file.entries[op].state, steps[k], op)
  {
    hide Possible;
    var s := steps[j];
    assert Follows(ws[j], s, ws[j + 1]);
    BeginRecords(ws[j].disk, s.op, s.content, OwnerOf(s.p, s.named), s.luck);
    hide AfterBegin;
    if forall k | i <= k < j :: !Closes(ws[i].disk.file.entries[op].state, steps[k], op) {
      StaysOpen(ws, steps, i, j, op);
    }
  }

  /** So after a settle as uncertain returned, its content is not begun again before somebody confirms or
      acknowledges that entry. */
  lemma UncertainBlocks(ws: seq<World>, steps: seq<Step>, i: nat, j: nat, op: string)
    requires IsRun(ws, steps) && i < j < |steps| && forall k | i < k <= j :: !Blank(ws[k].disk)
    requires steps[i].Settle? && steps[i].op == op && steps[i].state.Uncertain?
    requires AfterSettle(ws[i].disk, op, Uncertain, steps[i].luck).1.Ok?
    requires ws[i].disk.file.Holds? && op in ws[i].disk.file.entries
    requires steps[j].Begin? && steps[j].content == ws[i].disk.file.entries[op].contentKey
    requires ws[j + 1].granted != ws[j].granted
    ensures exists k :: i < k < j && ((steps[k].Settle? && steps[k].op == op && steps[k].state.Confirmed?)
                                      || (steps[k].Acknowledge? && steps[k].op == op))
  {
    hide Possible;
    assert Follows(ws[i], steps[i], ws[i + 1]);
    SettleRecords(ws[i].disk, op, Uncertain, steps[i].luck);
    hide Next, AfterSettle;
    OpenOutcomeBlocks(ws, steps, i + 1, j, op);
    var k :| i + 1 <= k < j && Closes(ws[i + 1].disk.file.entries[op].state, steps[k], op);
  }

  // ------------------------------------------------------------ live attempts

  ghost predicate OwnedBy(p: Process, owner: Owner) {
    owner.pid == Some(p.pid) && (owner.started == "" || owner.started == p.created)
  }

  /** The oracle is sound: no truthful answer declares a running owner gone. */
  lemma OracleSound(live: set<Process>, p: Process, owner: Owner, answer: Answer)
    requires p in live && OwnedBy(p, owner) && Truthful(live, owner, answer)
    ensures OwnerAlive(owner, answer)
  {}

  /** "Gone" needs proof: an owner that is known, and a process that is not there or is another one. */
  lemma GoneNeedsProof(owner: Owner, answer: Answer)
    ensures !OwnerAlive(owner, answer) ==>
              owner.pid.Some? && (answer.NoSuchProcess?
                                  || (answer.Runs? && owner.started != "" && answer.created != owner.started))
  {}

  /** And it is exact where the system knows: of an owner whose start time was recorded, a definite and
      true answer says "gone" exactly if no running process is that owner. */
  lemma OracleExact(live: set<Process>, owner: Owner, answer: Answer)
    requires owner.pid.Some? && owner.started != "" && Truthful(live, owner, answer)
    requires answer.NoSuchProcess? || (answer.Runs? && Process(owner.pid.value, answer.created) in live)
    ensures OwnerAlive(owner, answer) <==> exists p :: p in live && OwnedBy(p, owner)
  {
    if OwnerAlive(owner, answer) {
      assert OwnedBy(Process(owner.pid.value, answer.created), owner);
    }
  }

  lemma LiveAttemptStep(w: World, s: Step, op: string, p: Process)
    requires w.disk.file.Holds? && Next(w, s).disk.file.Holds? && Possible(w, s)
    requires op in w.disk.file.entries && w.disk.file.entries[op].state.Submitting?
    requires p in w.live && OwnedBy(p, w.disk.file.entries[op].owner) && !(s.Settle? && s.op == op)
    ensures op in Next(w, s).disk.file.entries && Next(w, s).disk.file.entries[op] == w.disk.file.entries[op]
  {
    hide Blocked, OwnerAlive;
    if s.Reconcile? {
      OracleSound(w.live, p, w.disk.file.entries[op].owner, s.answers[op]);
    }
  }

  /** While its owner lives and nobody settles it, an attempt stays exactly as it was begun, however
      often other processes reconcile in between, as long as the journal is not gone with its marker. */
  lemma {:induction false} LiveAttemptUntouched(ws: seq<World>, steps: seq<Step>, i: nat, j: nat,
                                                op: string, p: Process)
    requires IsRun(ws, steps) && i <= j < |ws| && forall k | i <= k < j :: !Blank(ws[k].disk)
    requires ws[i].disk.file.Holds? && ws[j].disk.file.Holds?
    requires op in ws[i].disk.file.entries && ws[i].disk.file.entries[op].state.Submitting?
    requires OwnedBy(p, ws[i].disk.file.entries[op].owner)
    requires forall k | i <= k < j :: p in ws[k].live && !(steps[k].Settle? && steps[k].op == op)
    ensures op in ws[j].disk.file.entries && ws[j].disk.file.entries[op] == ws[i].disk.file.entries[op]
    decreases j
  {
    hide Next, Possible;
    if i < j {
      assert Follows(ws[j - 1], steps[j - 1], ws[j]);
      HeldBefore(ws[j - 1], steps[j - 1]);
      LiveAttemptUntouched(ws, steps, i, j - 1, op, p);
      LiveAttemptStep(ws[j - 1], steps[j - 1], op, p);
    }
  }
}
