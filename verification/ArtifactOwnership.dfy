/** Who owns every artifact: ownership moves from Qronos to the user, and never back.

    A save may fail after the change in memory; a restart loads what was saved last. */
module ArtifactOwnership {

  import opened Options

  datatype Owner = Qronos | User

  datatype Component = Memory | VisionTemp | ImageTemp | FilesystemMetadata | LogsAndTemp

  const COMPONENTS := [Memory, VisionTemp, ImageTemp, FilesystemMetadata, LogsAndTemp]

  /** `path` is the resolved path. */
  datatype Record = Record(id: string, path: string, owner: Owner, component: Component, size: int, created: real,
                           transferred: Option<real>)

  datatype Error = NegativeSize | PathRegistered | DuplicateId | UnknownId | AlreadyUsers | NoSuchFile
                 | DestinationRegistered | NotMeasured | UserOwned | SaveFailed

  datatype Result<T> = Ok(value: T) | Err(error: Error)

  // ---------------------------------------------------------------- the records

  /** The records in their order; ids and paths are distinct. */
  ghost predicate WellFormed(records: seq<Record>) {
    forall i, j | 0 <= i < j < |records| :: records[i].id != records[j].id && records[i].path != records[j].path
  }

  /** The first record that matches. */
  function Find(records: seq<Record>, matches: Record -> bool): (k: Option<nat>)
    ensures k.Some? ==> k.value < |records| && matches(records[k.value])
    ensures k.None? ==> forall r | r in records :: !matches(r)
  {
    if records == [] then None
    else if matches(records[0]) then Some(0)
    else
      var k := Find(records[1..], matches);
      if k.Some? then Some(k.value + 1) else None
  }

  function FindId(records: seq<Record>, id: string): (k: Option<nat>)
    ensures k.Some? ==> k.value < |records| && records[k.value].id == id
    ensures k.None? ==> forall r | r in records :: r.id != id
  {
    Find(records, (r: Record) => r.id == id)
  }

  function FindPath(records: seq<Record>, path: string): (k: Option<nat>)
    ensures k.Some? ==> k.value < |records| && records[k.value].path == path
    ensures k.None? ==> forall r | r in records :: r.path != path
  {
    Find(records, (r: Record) => r.path == path)
  }

  function Registered(records: seq<Record>, r: Record): Result<seq<Record>> {
    if r.size < 0 then Err(NegativeSize)
    else if FindPath(records, r.path).Some? then Err(PathRegistered)
    else if FindId(records, r.id).Some? then Err(DuplicateId)
    else Ok(records + [r])
  }

  /** `measured` is what the file system says of the destination, `file` whether it is a file there. */
  function Transferred(records: seq<Record>, id: string, path: string, at: real, size: Option<int>, file: bool,
                       measured: Option<nat>): Result<seq<Record>> {
    var k := FindId(records, id);
    if k.None? then Err(UnknownId)
    else if records[k.value].owner == User then Err(AlreadyUsers)
    else if !file then Err(NoSuchFile)
    else
      var clash := FindPath(records, path);
      if clash.Some? && records[clash.value].id != id then Err(DestinationRegistered)
      else if size.None? && measured.None? then Err(NotMeasured)
      else
        var now := if size.Some? then size.value else measured.value;
        Ok(records[k.value := records[k.value].(path := path, owner := User, size := now, transferred := Some(at))])
  }

  function Forgotten(records: seq<Record>, id: string): Result<seq<Record>> {
    var k := FindId(records, id);
    if k.None? then Ok(records)
    else if records[k.value].owner == User then Err(UserOwned)
    else Ok(records[..k.value] + records[k.value + 1..])
  }

  predicate Stays(r: Record, present: string -> bool) {
    r.owner == User || present(r.path)
  }

  /** Qronos's records whose files are gone are dropped. */
  function Pruned(records: seq<Record>, present: string -> bool): seq<Record> {
    if records == [] then []
    else (if Stays(records[0], present) then [records[0]] else []) + Pruned(records[1..], present)
  }

  function Missing(records: seq<Record>, present: string -> bool): seq<Record> {
    if records == [] then []
    else (if Stays(records[0], present) then [] else [records[0]]) + Missing(records[1..], present)
  }

  // ---------------------------------------------------------------------- quota

  function Counted(r: Record, component: Option<Component>): int {
    if r.owner == Qronos && (component.None? || r.component == component.value) then r.size else 0
  }

  function Quota(records: seq<Record>, component: Option<Component>): int {
    if records == [] then 0 else Counted(records[0], component) + Quota(records[1..], component)
  }

  function OverComponents(records: seq<Record>, components: seq<Component>): int {
    if components == [] then 0
    else Quota(records, Some(components[0])) + OverComponents(records, components[1..])
  }

  // --------------------------------------------------------------- the registry

  class Registry {
    var records: seq<Record>
    var saved: seq<Record>

    constructor (loaded: seq<Record>)
      ensures records == loaded && saved == loaded
    {
      records, saved := loaded, loaded;
    }

    method Persist(fails: bool) returns (ok: bool)
      modifies this`saved
      ensures ok == !fails && saved == if fails then old(saved) else records
    {
      if fails {
        return false;
      }
      saved := records;
      ok := true;
    }

    method Register(r: Record, fails: bool) returns (result: Result<Record>)
      requires r.owner == Qronos && r.transferred.None?
      modifies this
      ensures var change := Registered(old(records), r);
              if change.Err? then result == Err(change.error) && records == old(records) && saved == old(saved)
              else records == change.value && (result == if fails then Err(SaveFailed) else Ok(r))
                   && saved == if fails then old(saved) else records
    {
      if r.size < 0 {
        return Err(NegativeSize);
      }
      if FindPath(records, r.path).Some? {
        return Err(PathRegistered);
      }
      if FindId(records, r.id).Some? {
        return Err(DuplicateId);
      }
      records := records + [r];
      var ok := Persist(fails);
      result := if ok then Ok(r) else Err(SaveFailed);
    }

    method TransferToUser(id: string, path: string, at: real, size: Option<int>, file: bool, measured: Option<nat>,
                          fails: bool)
      returns (result: Result<Record>)
      modifies this
      ensures var change := Transferred(old(records), id, path, at, size, file, measured);
              if change.Err? then result == Err(change.error) && records == old(records) && saved == old(saved)
              else records == change.value && (result.Ok? <==> !fails)
                   && (result.Ok? ==> result.value in records && result.value.id == id && result.value.owner == User)
                   && saved == if fails then old(saved) else records
    {
      var k := FindId(records, id);
      if k.None? {
        return Err(UnknownId);
      }
      var record := records[k.value];
      if record.owner == User {
        return Err(AlreadyUsers);
      }
      if !file {
        return Err(NoSuchFile);
      }
      var clash := FindPath(records, path);
      if clash.Some? && records[clash.value].id != id {
        return Err(DestinationRegistered);
      }
      if size.None? && measured.None? {
        return Err(NotMeasured);
      }
      var now := if size.Some? then size.value else measured.value;
      record := record.(path := path, owner := User, size := now, transferred := Some(at));
      records := records[k.value := record];
      assert records[k.value] == record;
      var ok := Persist(fails);
      result := if ok then Ok(record) else Err(SaveFailed);
    }

    method Forget(id: string, fails: bool) returns (result: Result<bool>)
      modifies this
      ensures var change := Forgotten(old(records), id);
              if change.Err? then result == Err(change.error) && records == old(records) && saved == old(saved)
              else records == change.value
                   && (FindId(old(records), id).None? ==> result == Ok(false) && saved == old(saved))
                   && (FindId(old(records), id).Some? ==>
                         (result.Ok? <==> !fails) && saved == if fails then old(saved) else records)
    {
      var k := FindId(records, id);
      if k.None? {
        return Ok(false);
      }
      if records[k.value].owner == User {
        return Err(UserOwned);
      }
      records := records[..k.value] + records[k.value + 1..];
      var ok := Persist(fails);
      result := if ok then Ok(true) else Err(SaveFailed);
    }

    method PruneMissing(present: string -> bool, fails: bool) returns (removed: seq<Record>, ok: bool)
      modifies this
      ensures records == Pruned(old(records), present) && removed == Missing(old(records), present)
      ensures if removed == [] then ok && saved == old(saved)
              else ok == !fails && saved == if fails then old(saved) else records
    {
      hide Pruned, Missing;
      removed := [];
      var todo, kept: seq<Record> := records, [];
      assert [] + Pruned(todo, present) == Pruned(todo, present);
      assert [] + Missing(todo, present) == Missing(todo, present);
      while todo != []
        invariant kept + Pruned(todo, present) == Pruned(old(records), present)
        invariant removed + Missing(todo, present) == Missing(old(records), present)
        invariant records == old(records) && saved == old(saved)
        decreases |todo|
      {
        var record := todo[0];
        PrunedFirst(todo, present, kept);
        MissingFirst(todo, present, removed);
        if record.owner == Qronos && !present(record.path) {
          removed := removed + [record];
        } else {
          kept := kept + [record];
        }
        todo := todo[1..];
      }
      PruneNone(present, kept, removed);
      records := kept;
      ok := true;
      if removed != [] {
        ok := Persist(fails);
      }
    }
  }

  lemma Shift(a: seq<Record>, r: Record, b: seq<Record>)
    ensures a + ([r] + b) == (a + [r]) + b
  {
  }

  lemma PrunedFirst(todo: seq<Record>, present: string -> bool, kept: seq<Record>)
    requires todo != []
    ensures kept + Pruned(todo, present) ==
            (if Stays(todo[0], present) then kept + [todo[0]] else kept) + Pruned(todo[1..], present)
  {
    hide Stays;
    var rest := Pruned(todo[1..], present);
    assert Pruned(todo, present) == if Stays(todo[0], present) then [todo[0]] + rest else rest;
    hide Pruned;
    Shift(kept, todo[0], rest);
  }

  lemma MissingFirst(todo: seq<Record>, present: string -> bool, removed: seq<Record>)
    requires todo != []
    ensures removed + Missing(todo, present) ==
            (if Stays(todo[0], present) then removed else removed + [todo[0]]) + Missing(todo[1..], present)
  {
    hide Stays;
    var rest := Missing(todo[1..], present);
    assert Missing(todo, present) == if Stays(todo[0], present) then rest else [todo[0]] + rest;
    hide Missing;
    Shift(removed, todo[0], rest);
  }

  lemma PruneNone(present: string -> bool, kept: seq<Record>, removed: seq<Record>)
    ensures kept + Pruned([], present) == kept && removed + Missing([], present) == removed
  {
  }

  /** Exactly Qronos's records without a file go; the user's all stay. */
  lemma {:induction false} PruneTakesExactly(records: seq<Record>, present: string -> bool)
    ensures forall r :: r in Pruned(records, present) <==> r in records && (r.owner == User || present(r.path))
    ensures forall r :: r in Missing(records, present) <==> r in records && r.owner == Qronos && !present(r.path)
  {
    if records != [] {
      PruneTakesExactly(records[1..], present);
      assert records == [records[0]] + records[1..];
    }
  }

  // ------------------------------------------------------------ what a change leaves

  /** A registration is accepted exactly for a new path and identity of no negative size; then that record is
      there, and all that were. */
  lemma RegistersExactly(records: seq<Record>, r: Record)
    ensures Registered(records, r).Ok? <==> r.size >= 0 && forall q | q in records :: q.path != r.path && q.id != r.id
    ensures Registered(records, r).Ok? ==>
              forall q :: q in Registered(records, r).value <==> q in records || q == r
  {}

  /** Forgetting is refused exactly for the user's record; otherwise no record has that identity any more,
      and all others stay. */
  lemma ForgetsExactly(records: seq<Record>, id: string)
    requires WellFormed(records)
    ensures Forgotten(records, id).Err? <==> exists q :: q in records && q.id == id && q.owner == User
    ensures Forgotten(records, id).Ok? ==>
              forall q :: q in Forgotten(records, id).value <==> q in records && q.id != id
  {
    var k := FindId(records, id);
    if k.Some? {
      var a, b := records[..k.value], records[k.value + 1..];
      assert records == a + [records[k.value]] + b;
      forall q | q in a || q in b ensures q.id != id {
        var i :| 0 <= i < |records| && i != k.value && records[i] == q;
      }
      forall q | q in records && q.id == id ensures q == records[k.value] {}
    }
  }

  /** A transfer is accepted exactly for Qronos's record and a file at a destination no other record has; then
      that record is the user's, with the new path, size and time and nothing else new, and the others stay. */
  lemma TransfersExactly(records: seq<Record>, id: string, path: string, at: real, size: Option<int>, file: bool,
                         measured: Option<nat>)
    requires WellFormed(records)
    ensures Transferred(records, id, path, at, size, file, measured).Ok? <==>
              && (exists q :: q in records && q.id == id && q.owner == Qronos) && file
              && (forall q | q in records && q.path == path :: q.id == id) && (size.Some? || measured.Some?)
    ensures Transferred(records, id, path, at, size, file, measured).Ok? ==>
              var now := if size.Some? then size.value else measured.value;
              forall q :: q in Transferred(records, id, path, at, size, file, measured).value <==>
                || (q in records && q.id != id)
                || exists was :: was in records && was.id == id
                                 && q == Record(id, path, User, was.component, now, was.created, Some(at))
  {
    var k := FindId(records, id);
    if k.Some? {
      var was := records[k.value];
      forall q | q in records && q.id == id ensures q == was {}
      forall q | q in records && q.path == path
        ensures FindPath(records, path).Some? && records[FindPath(records, path).value] == q
      {}
      if Transferred(records, id, path, at, size, file, measured).Ok? {
        var now := if size.Some? then size.value else measured.value;
        var becomes := Record(id, path, User, was.component, now, was.created, Some(at));
        ReplacedHolds(records, k.value, becomes);
      }
    }
  }

  lemma ReplacedHolds(records: seq<Record>, k: nat, r: Record)
    requires k < |records| && WellFormed(records)
    ensures forall q :: q in records[k := r] <==> (q in records && q.id != records[k].id) || q == r
  {
    var a, b := records[..k], records[k + 1..];
    assert records[k := r] == a + [r] + b && records == a + [records[k]] + b;
    forall q | q in a || q in b ensures q.id != records[k].id {
      var i :| 0 <= i < |records| && i != k && records[i] == q;
    }
  }

  // ------------------------------------------------------------------ the quota

  lemma {:induction false} QuotaAppend(a: seq<Record>, b: seq<Record>, component: Option<Component>)
    ensures Quota(a + b, component) == Quota(a, component) + Quota(b, component)
  {
    if a == [] {
      assert a + b == b;
    } else {
      assert (a + b)[1..] == a[1..] + b;
      QuotaAppend(a[1..], b, component);
    }
  }

  lemma QuotaReplace(records: seq<Record>, k: nat, r: Record, component: Option<Component>)
    requires k < |records|
    ensures Quota(records[k := r], component) ==
            Quota(records, component) - Counted(records[k], component) + Counted(r, component)
  {
    var a, b := records[..k], records[k + 1..];
    assert records == a + ([records[k]] + b) && records[k := r] == a + ([r] + b);
    QuotaAppend(a, [records[k]] + b, component);
    QuotaAppend(a, [r] + b, component);
    QuotaAppend([records[k]], b, component);
    QuotaAppend([r], b, component);
    assert [records[k]][1..] == [] && [r][1..] == [];
  }

  /** The budgets of the components add up to the total. */
  lemma {:induction false} QuotasAddUp(records: seq<Record>)
    ensures OverComponents(records, COMPONENTS) == Quota(records, None)
  {
    assert COMPONENTS[1..] == [VisionTemp, ImageTemp, FilesystemMetadata, LogsAndTemp];
    assert COMPONENTS[1..][1..] == [ImageTemp, FilesystemMetadata, LogsAndTemp];
    assert COMPONENTS[1..][1..][1..] == [FilesystemMetadata, LogsAndTemp];
    assert COMPONENTS[1..][1..][1..][1..] == [LogsAndTemp];
    assert COMPONENTS[1..][1..][1..][1..][1..] == [];
    OverThe(records);
    FiveParts(records);
  }

  lemma OverThe(records: seq<Record>)
    ensures OverComponents(records, COMPONENTS) ==
            Quota(records, Some(Memory)) + Quota(records, Some(VisionTemp)) + Quota(records, Some(ImageTemp))
            + Quota(records, Some(FilesystemMetadata)) + Quota(records, Some(LogsAndTemp))
  {
    hide Quota;
    var c := COMPONENTS;
    assert OverComponents(records, c[1..][1..][1..][1..][1..]) == 0;
    assert OverComponents(records, c[1..][1..][1..][1..]) == Quota(records, Some(LogsAndTemp));
    assert OverComponents(records, c[1..][1..][1..]) ==
           Quota(records, Some(FilesystemMetadata)) + OverComponents(records, c[1..][1..][1..][1..]);
    assert OverComponents(records, c[1..][1..]) ==
           Quota(records, Some(ImageTemp)) + OverComponents(records, c[1..][1..][1..]);
    assert OverComponents(records, c[1..]) == Quota(records, Some(VisionTemp)) + OverComponents(records, c[1..][1..]);
  }

  lemma {:induction false} FiveParts(records: seq<Record>)
    ensures Quota(records, None) ==
            Quota(records, Some(Memory)) + Quota(records, Some(VisionTemp)) + Quota(records, Some(ImageTemp))
            + Quota(records, Some(FilesystemMetadata)) + Quota(records, Some(LogsAndTemp))
  {
    if records != [] {
      FiveParts(records[1..]);
    }
  }

  /** A transfer takes exactly the record's old size out of the budgets it counted in, whatever size the
      file has now. */
  lemma TransferLowersQuota(records: seq<Record>, id: string, path: string, at: real, size: Option<int>, file: bool,
                            measured: Option<nat>, component: Option<Component>)
    requires Transferred(records, id, path, at, size, file, measured).Ok?
    ensures var after := Transferred(records, id, path, at, size, file, measured).value;
            var r := records[FindId(records, id).value];
            Quota(after, component) == Quota(records, component)
                                       - if component.None? || component.value == r.component then r.size else 0
  {
    var k := FindId(records, id).value;
    var after := Transferred(records, id, path, at, size, file, measured).value;
    QuotaReplace(records, k, after[k], component);
  }

  // ----------------------------------------------------------------------- runs

  datatype State = State(records: seq<Record>, saved: seq<Record>)

  datatype Step =
    | Register(r: Record, fails: bool)
    | Transfer(id: string, path: string, at: real, size: Option<int>, file: bool, measured: Option<nat>, fails: bool)
    | Forget(id: string, fails: bool)
    | Prune(present: string -> bool, fails: bool)
    | Restart

  function Change(s: State, step: Step): Result<seq<Record>> {
    match step
    case Register(r, _) => Registered(s.records, r.(owner := Qronos, transferred := None))
    case Transfer(id, path, at, size, file, measured, _) => Transferred(s.records, id, path, at, size, file, measured)
    case Forget(id, _) => Forgotten(s.records, id)
    case Prune(present, _) => Ok(Pruned(s.records, present))
    case Restart => Ok(s.saved)
  }

  function Next(s: State, step: Step): State {
    if Change(s, step).Err? then s
    else
      var records := Change(s, step).value;
      State(records, if step.Restart? || step.fails || records == s.records then s.saved else records)
  }

  function After(loaded: seq<Record>, steps: seq<Step>): State {
    if steps == [] then State(loaded, loaded)
    else Next(After(loaded, steps[..|steps| - 1]), steps[|steps| - 1])
  }

  lemma {:induction false} PrunedWellFormed(records: seq<Record>, present: string -> bool)
    requires WellFormed(records)
    ensures WellFormed(Pruned(records, present))
  {
    if records != [] {
      var rest := Pruned(records[1..], present);
      PruneTakesExactly(records[1..], present);
      PrunedWellFormed(records[1..], present);
      forall r | r in rest ensures r.id != records[0].id && r.path != records[0].path {
        var i :| 0 <= i < |records| - 1 && records[1..][i] == r;
        assert records[i + 1] == r;
      }
    }
  }

  lemma ChangeWellFormed(s: State, step: Step)
    requires WellFormed(s.records) && WellFormed(s.saved)
    ensures Change(s, step).Ok? ==> WellFormed(Change(s, step).value)
  {
    match step
    case Register(r, _) =>
      if Change(s, step).Ok? {
        forall i | 0 <= i < |s.records| ensures s.records[i].id != r.id && s.records[i].path != r.path {
          assert s.records[i] in s.records;
        }
      }
    case Transfer(id, path, _, _, _, _, _) =>
      if Change(s, step).Ok? {
        forall i | 0 <= i < |s.records| && s.records[i].id != id ensures s.records[i].path != path {
          assert s.records[i] in s.records;
        }
      }
    case Forget(id, _) =>
    case Prune(present, _) =>
      PrunedWellFormed(s.records, present);
    case Restart =>
  }

  /** From a well-formed store, ids and paths stay pairwise distinct, in memory and as saved. */
  lemma {:induction false} StaysWellFormed(loaded: seq<Record>, steps: seq<Step>)
    requires WellFormed(loaded)
    ensures var s := After(loaded, steps); WellFormed(s.records) && WellFormed(s.saved)
  {
    hide WellFormed, Change;
    if steps != [] {
      StaysWellFormed(loaded, steps[..|steps| - 1]);
      ChangeWellFormed(After(loaded, steps[..|steps| - 1]), steps[|steps| - 1]);
    }
  }

  /** A user's record stays as it is through any change. */
  /** A record has a time of transfer exactly if it is the user's. */
  ghost predicate TimesFit(records: seq<Record>) {
    forall r | r in records :: r.transferred.Some? <==> r.owner == User
  }

  lemma TimesFitStep(s: State, step: Step)
    requires TimesFit(s.records) && TimesFit(s.saved)
    ensures TimesFit(Next(s, step).records) && TimesFit(Next(s, step).saved)
  {
    if step.Prune? {
      PruneTakesExactly(s.records, step.present);
    }
  }

  lemma {:induction false} TimesFitAlways(loaded: seq<Record>, steps: seq<Step>)
    requires TimesFit(loaded)
    ensures TimesFit(After(loaded, steps).records) && TimesFit(After(loaded, steps).saved)
  {
    hide Next, TimesFit;
    if steps != [] {
      TimesFitAlways(loaded, steps[..|steps| - 1]);
      TimesFitStep(After(loaded, steps[..|steps| - 1]), steps[|steps| - 1]);
    }
  }

  lemma UserRecordStays(s: State, step: Step, r: Record)
    requires r in s.records && r in s.saved && r.owner == User
    ensures r in Next(s, step).records && r in Next(s, step).saved
  {
    var change := Change(s, step);
    if change.Ok? {
      match step
      case Register(_, _) =>
      case Transfer(id, path, at, size, file, measured, _) =>
        var k := FindId(s.records, id).value;
        var i :| 0 <= i < |s.records| && s.records[i] == r;
        assert i != k && change.value[i] == r;
      case Forget(id, _) =>
        var k := FindId(s.records, id);
        if k.Some? {
          var i :| 0 <= i < |s.records| && s.records[i] == r;
          assert i != k.value && r in s.records[..k.value] + s.records[k.value + 1..];
        }
      case Prune(present, _) =>
        PruneTakesExactly(s.records, present);
      case Restart =>
    }
  }

  lemma {:induction false} OnceUsersAlwaysUsers(loaded: seq<Record>, steps: seq<Step>, i: nat, r: Record)
    requires i <= |steps| && r.owner == User
    requires var s := After(loaded, steps[..i]); r in s.records && r in s.saved
    ensures var s := After(loaded, steps); r in s.records && r in s.saved
    decreases |steps|
  {
    if i == |steps| {
      assert steps[..i] == steps;
    } else {
      assert steps[..|steps| - 1][..i] == steps[..i];
      OnceUsersAlwaysUsers(loaded, steps[..|steps| - 1], i, r);
      UserRecordStays(After(loaded, steps[..|steps| - 1]), steps[|steps| - 1], r);
    }
  }

  lemma TransferSaves(s: State, transfer: Step)
    requires transfer.Transfer? && !transfer.fails && Change(s, transfer).Ok?
    ensures var r := Change(s, transfer).value[FindId(s.records, transfer.id).value];
            && r in Next(s, transfer).records && r in Next(s, transfer).saved
            && r.id == transfer.id && r.owner == User && r.path == transfer.path
  {
    var k := FindId(s.records, transfer.id).value;
    assert Change(s, transfer).value[k] != s.records[k];
  }

  /** Once a transfer has succeeded the file is the user's for good: through every later change, failed
      save and restart the record is there in memory and in the store. */
  lemma TransferIsForGood(loaded: seq<Record>, before: seq<Step>, transfer: Step, later: seq<Step>)
    requires transfer.Transfer? && !transfer.fails && Change(After(loaded, before), transfer).Ok?
    ensures var s := After(loaded, before + [transfer] + later);
            exists r :: r in s.records && r in s.saved
                        && r.id == transfer.id && r.owner == User && r.path == transfer.path
  {
    var s, steps := After(loaded, before), before + [transfer];
    var r := Change(s, transfer).value[FindId(s.records, transfer.id).value];
    TransferSaves(s, transfer);
    hide Change, Next;
    assert steps[..|steps| - 1] == before && After(loaded, steps) == Next(s, transfer);
    assert (steps + later)[..|steps|] == steps;
    OnceUsersAlwaysUsers(loaded, steps + later, |steps|, r);
  }

  /** While no save fails, the store always holds what memory holds. */
  lemma {:induction false} SavedIsMemory(loaded: seq<Record>, steps: seq<Step>)
    requires forall step | step in steps :: step.Restart? || !step.fails
    ensures After(loaded, steps).records == After(loaded, steps).saved
  {
    if steps != [] {
      assert steps[|steps| - 1] in steps;
      assert forall step | step in steps[..|steps| - 1] :: step in steps;
      SavedIsMemory(loaded, steps[..|steps| - 1]);
    }
  }

  // ------------------------------------------ exactly when a transfer outlives restarts

  /** A step that changes the records and whose save succeeds. */
  predicate Saves(s: State, step: Step) {
    !step.Restart? && !step.fails && Change(s, step).Ok? && Change(s, step).value != s.records
  }

  /** Some step saves before the first restart, or there is none. */
  predicate SavedInTime(s: State, steps: seq<Step>)
    decreases |steps|
  {
    steps == [] || Saves(s, steps[0]) || (!steps[0].Restart? && SavedInTime(Next(s, steps[0]), steps[1..]))
  }

  /** The record is there now and after every one of the steps. */
  ghost predicate StaysThrough(s: State, steps: seq<Step>, r: Record)
    decreases |steps|
  {
    r in s.records && (steps != [] ==> StaysThrough(Next(s, steps[0]), steps[1..], r))
  }

  /** What is saved as the user's is in memory too, and as the user's. */
  ghost predicate UsersInMemory(s: State) {
    forall r | r in s.saved && r.owner == User :: r in s.records
  }

  lemma UsersInMemoryStep(s: State, step: Step)
    requires UsersInMemory(s)
    ensures UsersInMemory(Next(s, step))
  {
    forall r | r in Next(s, step).saved && r.owner == User ensures r in Next(s, step).records {
      if r in s.saved {
        UserRecordStays(s, step, r);
      }
    }
  }

  lemma {:induction false} UsersInMemoryRun(loaded: seq<Record>, steps: seq<Step>)
    ensures UsersInMemory(After(loaded, steps))
  {
    hide Next, UsersInMemory;
    if steps == [] {
      SameInMemory(State(loaded, loaded));
    } else {
      UsersInMemoryRun(loaded, steps[..|steps| - 1]);
      UsersInMemoryStep(After(loaded, steps[..|steps| - 1]), steps[|steps| - 1]);
    }
  }

  lemma SameInMemory(s: State)
    requires s.records == s.saved
    ensures UsersInMemory(s)
  {
  }

  lemma {:induction false} StaysOnceSaved(s: State, steps: seq<Step>, r: Record)
    requires r in s.records && r in s.saved && r.owner == User
    ensures StaysThrough(s, steps, r)
    decreases |steps|
  {
    if steps != [] {
      UserRecordStays(s, steps[0], r);
      StaysOnceSaved(Next(s, steps[0]), steps[1..], r);
    }
  }

  /** In memory a user's record survives everything but a restart. */
  lemma MemoryKeeps(s: State, step: Step, r: Record)
    requires r in s.records && r.owner == User && !step.Restart?
    ensures r in Next(s, step).records && (Saves(s, step) ==> r in Next(s, step).saved)
  {
    var t := State(s.records, s.records);
    UserRecordStays(t, step, r);
    assert Change(t, step) == Change(s, step);
  }

  /** From a state in which the record is only in memory, it stays exactly if a save comes in time. */
  lemma {:induction false} StaysExactly(s: State, steps: seq<Step>, r: Record)
    requires r in s.records && r !in s.saved && r.owner == User
    ensures StaysThrough(s, steps, r) <==> SavedInTime(s, steps)
    decreases |steps|
  {
    hide Change;
    if steps != [] && !steps[0].Restart? {
      var next := Next(s, steps[0]);
      MemoryKeeps(s, steps[0], r);
      if Saves(s, steps[0]) {
        StaysOnceSaved(next, steps[1..], r);
      } else {
        StaysExactly(next, steps[1..], r);
      }
    } else if steps != [] {
      RestartForgets(s, steps[0]);
    }
  }

  lemma RestartForgets(s: State, step: Step)
    requires step.Restart?
    ensures Next(s, step).records == s.saved
  {
  }

  /** For every history before and after it, a transfer holds through the run exactly if its own save, or
      a later one before the first restart, succeeds. */
  lemma TransferStaysExactly(loaded: seq<Record>, before: seq<Step>, transfer: Step, later: seq<Step>)
    requires WellFormed(loaded) && transfer.Transfer? && Change(After(loaded, before), transfer).Ok?
    ensures var s := After(loaded, before);
            var r := Change(s, transfer).value[FindId(s.records, transfer.id).value];
            && r.id == transfer.id && r.owner == User && r.path == transfer.path
            && (StaysThrough(Next(s, transfer), later, r) <==>
                  !transfer.fails || SavedInTime(Next(s, transfer), later))
  {
    var s := After(loaded, before);
    var k := FindId(s.records, transfer.id).value;
    var r := Change(s, transfer).value[k];
    assert r != s.records[k] && r in Next(s, transfer).records;
    if !transfer.fails {
      StaysOnceSaved(Next(s, transfer), later, r);
    } else {
      UsersInMemoryRun(loaded, before);
      StaysWellFormed(loaded, before);
      StaysExactly(Next(s, transfer), later, r);
    }
  }

  /** A restart before any save gives the record back: nothing of that id is the user's any more. The
      caller was told that the save failed. */
  lemma FailedSaveIsUndone(loaded: seq<Record>, before: seq<Step>, transfer: Step, later: seq<Step>)
    requires WellFormed(loaded) && transfer.Transfer? && transfer.fails
    requires Change(After(loaded, before), transfer).Ok?
    requires UnsavedUntilRestart(Next(After(loaded, before), transfer), later)
    ensures forall r | r in Play(Next(After(loaded, before), transfer), later).records && r.id == transfer.id ::
              r.owner == Qronos
  {
    var s := After(loaded, before);
    UsersInMemoryRun(loaded, before);
    StaysWellFormed(loaded, before);
    RestartLoadsSaved(Next(s, transfer), later);
  }

  /** An instance: the only record is handed over, its save fails, and the program restarts. */
  lemma HandedOverAndBack(r: Record, path: string, at: real)
    requires r.owner == Qronos
    ensures var s := State([r], [r]);
            var transfer := Transfer(r.id, path, at, Some(1), true, None, true);
            && Next(s, transfer).records == [r.(path := path, owner := User, size := 1, transferred := Some(at))]
            && Play(s, [transfer, Restart]).records == [r]
  {
    var s, transfer := State([r], [r]), Transfer(r.id, path, at, Some(1), true, None, true);
    assert FindId([r], r.id) == Some(0);
    assert Next(s, transfer).saved == [r];
    assert Play(Next(s, transfer), [Restart]).records == [r];
  }

  function Play(s: State, steps: seq<Step>): State
    decreases |steps|
  {
    if steps == [] then s else Play(Next(s, steps[0]), steps[1..])
  }

  /** The steps end with their first restart, and none of them saves. */
  predicate UnsavedUntilRestart(s: State, steps: seq<Step>)
    decreases |steps|
  {
    && steps != [] && !Saves(s, steps[0])
    && if steps[0].Restart? then |steps| == 1 else UnsavedUntilRestart(Next(s, steps[0]), steps[1..])
  }

  lemma {:induction false} RestartLoadsSaved(s: State, steps: seq<Step>)
    requires UnsavedUntilRestart(s, steps)
    ensures Play(s, steps).records == s.saved
    decreases |steps|
  {
    hide Change;
    if steps[0].Restart? {
      RestartForgets(s, steps[0]);
      assert steps[1..] == [];
    } else {
      RestartLoadsSaved(Next(s, steps[0]), steps[1..]);
    }
  }

  /** The steps of `StaysThrough` are those of `After`. */
  lemma {:induction false} PlayIsAfter(loaded: seq<Record>, before: seq<Step>, later: seq<Step>)
    ensures Play(After(loaded, before), later) == After(loaded, before + later)
    decreases |later|
  {
    hide Next;
    if later == [] {
      assert before + later == before;
    } else {
      var more := before + [later[0]];
      assert more[..|more| - 1] == before && more + later[1..] == before + later;
      PlayIsAfter(loaded, more, later[1..]);
    }
  }
}
