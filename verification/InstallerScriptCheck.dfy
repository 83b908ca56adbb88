/** The static check of a generated installer script: every statement whose failure only raises the
    error flag is checked at once, and what that means for the runs of the script.

    A section is its list of stripped statements. `word` says which characters belong to a word. */
module InstallerScriptCheck {

  import opened Options

  // ------------------------------------------------------------- statements

  const STEP := "!insertmacro QRONOS_STEP "
  const COMPLETE := "!insertmacro QRONOS_INSTALL_COMPLETE"
  const FENCE := "!insertmacro NSIS_HOOK_PREINSTALL"
  const FOLDER := "SetOutPath $INSTDIR"

  const TEMPLATE_STEPS := ["the install folder", "the main program", "the uninstaller",
                           "the install location registration", "the Apps & features registration",
                           "the size registration", "the start menu shortcut", "the desktop shortcut"]

  predicate IsStep(s: string) {
    STEP <= s
  }

  /** Statements that never touch the error flag. */
  predicate IsNeutral(s: string) {
    s == "${EndIf}" || s == "!insertmacro MUI_STARTMENU_WRITE_END" || s == "!endif"
  }

  /** `w` starts the statement and ends at a word boundary. */
  predicate Opens(s: string, w: string, word: char -> bool) {
    w <= s && (|s| == |w| || !word(s[|w|]))
  }

  /** `Call CreateOrUpdate`, at least one word character, `Shortcut`, a word boundary. */
  predicate CallsShortcut(s: string, word: char -> bool) {
    var head, tail := "Call CreateOrUpdate", "Shortcut";
    && head <= s
    && exists k | |head| < k <= |s| :: (forall i | |head| <= i < k :: word(s[i])) && Opens(s[k..], tail, word)
  }

  /** Statements whose failure does nothing but raise the error flag. */
  predicate IsMaterial(s: string, word: char -> bool) {
    || Opens(s, "SetOutPath", word) || Opens(s, "File", word) || Opens(s, "CreateDirectory", word)
    || Opens(s, "WriteUninstaller", word) || Opens(s, "WriteRegStr", word) || Opens(s, "WriteRegDWORD", word)
    || Opens(s, "CreateShortcut", word) || CallsShortcut(s, word)
  }

  predicate Deletes(s: string) {
    "Delete " <= s || "RMDir " <= s || "RmDir " <= s
  }

  lemma KindsApart(s: string, word: char -> bool)
    requires IsMaterial(s, word)
    ensures !IsStep(s) && !IsNeutral(s)
  {
    assert s[0] in "SFCW";
    assert STEP[0] == '!';
  }

  // --------------------------------------------------------------- the scan

  /** The statement is followed by a step, with only neutral statements in between. */
  ghost predicate CheckedAt(install: seq<string>, i: nat) {
    exists j | i < j < |install| :: IsStep(install[j]) && forall k | i < k < j :: IsNeutral(install[k])
  }

  ghost predicate Checked(install: seq<string>, word: char -> bool) {
    forall i | 0 <= i < |install| && IsMaterial(install[i], word) :: CheckedAt(install, i)
  }

  /** The scan over the section: the first material statement that is not checked, if there is one. */
  method Scan(install: seq<string>, word: char -> bool) returns (unchecked: Option<string>)
    ensures unchecked.None? <==> Checked(install, word)
    ensures unchecked.Some? ==> exists i | 0 <= i < |install| ::
              install[i] == unchecked.value && IsMaterial(install[i], word) && !CheckedAt(install, i)
              && forall h | 0 <= h < i && IsMaterial(install[h], word) :: CheckedAt(install, h)
  {
    hide IsStep, IsNeutral, IsMaterial;
    var pending := None;
    ghost var at := 0;
    var i := 0;
    while i < |install|
      invariant i <= |install|
      invariant pending.Some? ==> at < i && IsMaterial(install[at], word) && pending == Some(install[at])
                                  && forall k | at < k < i :: IsNeutral(install[k]) && !IsStep(install[k])
      invariant forall h | 0 <= h < i && IsMaterial(install[h], word) && !(pending.Some? && h == at) ::
                  CheckedAt(install, h)
    {
      var statement := install[i];
      if IsStep(statement) {
        if pending.Some? {
          assert CheckedAt(install, at);
        }
        pending := None;
      } else if pending.Some? && !IsNeutral(statement) {
        assert !CheckedAt(install, at);
        return pending;
      }
      if IsMaterial(statement, word) {
        KindsApart(statement, word);
        pending := Some(statement);
        at := i;
      }
      i := i + 1;
    }
    if pending.Some? {
      assert !CheckedAt(install, at);
    }
    unchecked := pending;
  }

  // ------------------------------------------------------------ running a section

  /** `flag` is the error flag, `owed` a failed statement nobody has reacted to, `slipped` that a
      statement other than a neutral one ran all the same. */
  datatype State = State(pc: nat, flag: bool, owed: bool, slipped: bool, stopped: bool)

  const BEGIN := State(0, false, false, false, false)

  /** One statement. A material one may fail; any other kind may set or clear the flag and jump. A step
      tests and clears the flag and stops the installation if it was set. */
  ghost predicate Runs(install: seq<string>, word: char -> bool, a: State, b: State) {
    && !a.stopped && a.pc < |install|
    && var s := install[a.pc];
       if IsStep(s) then
         b == (if a.flag then a.(stopped := true) else a.(pc := a.pc + 1, slipped := a.slipped || a.owed))
       else if IsMaterial(s, word) then
         || b == a.(pc := a.pc + 1, slipped := a.slipped || a.owed)
         || b == a.(pc := a.pc + 1, flag := true, owed := true, slipped := a.slipped || a.owed)
       else if IsNeutral(s) then b == a.(pc := a.pc + 1)
       else b.pc <= |install| && b == a.(pc := b.pc, flag := b.flag, slipped := a.slipped || a.owed)
  }

  ghost predicate IsRun(install: seq<string>, word: char -> bool, run: seq<State>) {
    && run != [] && run[0] == BEGIN
    && forall i | 0 <= i < |run| - 1 :: Runs(install, word, run[i], run[i + 1])
  }

  /** No failure is passed over: nothing but neutral statements ran after it, and the section did not
      come to its end. */
  ghost predicate Careful(install: seq<string>, a: State) {
    !a.slipped && (a.pc == |install| ==> !a.owed)
  }

  /** The failure that is owed an answer will get it: only neutral statements lie before the next step. */
  ghost predicate Inv(install: seq<string>, word: char -> bool, a: State) {
    && a.pc <= |install| && !a.slipped
    && (a.owed && !a.stopped ==> a.flag && exists j | a.pc <= j < |install| ::
          IsStep(install[j]) && forall k | a.pc <= k < j :: IsNeutral(install[k]))
    && (a.stopped ==> a.pc < |install|)
  }

  lemma InvStep(install: seq<string>, word: char -> bool, a: State, b: State)
    requires Checked(install, word) && Inv(install, word, a) && Runs(install, word, a, b)
    ensures Inv(install, word, b)
  {
    hide IsStep, IsNeutral, IsMaterial;
    if IsMaterial(install[a.pc], word) {
      KindsApart(install[a.pc], word);
      assert CheckedAt(install, a.pc);
    }
    if a.owed {
      var j :| a.pc <= j < |install| && IsStep(install[j]) && forall k | a.pc <= k < j :: IsNeutral(install[k]);
      NeutralIsNoStep(install[a.pc]);
    }
  }

  lemma NeutralIsNoStep(s: string)
    ensures !(IsNeutral(s) && IsStep(s))
  {
    assert STEP[13] == 'Q';
  }

  lemma {:induction false} InvRun(install: seq<string>, word: char -> bool, run: seq<State>, i: nat)
    requires Checked(install, word) && IsRun(install, word, run) && i < |run|
    ensures Inv(install, word, run[i])
  {
    hide Checked, Runs, Inv;
    if i == 0 {
      InvBegin(install, word);
    } else {
      InvRun(install, word, run, i - 1);
      InvStep(install, word, run[i - 1], run[i]);
    }
  }

  lemma InvBegin(install: seq<string>, word: char -> bool)
    ensures Inv(install, word, BEGIN)
  {
  }

  /** A run without a failure reaches every statement. */
  lemma {:induction false} Reach(install: seq<string>, word: char -> bool, i: nat) returns (run: seq<State>)
    requires i <= |install|
    ensures IsRun(install, word, run) && run[|run| - 1] == BEGIN.(pc := i)
  {
    if i == 0 {
      run := [BEGIN];
    } else {
      run := Reach(install, word, i - 1);
      run := Extend(install, word, run, BEGIN.(pc := i));
    }
  }

  lemma Extend(install: seq<string>, word: char -> bool, run: seq<State>, b: State) returns (more: seq<State>)
    requires IsRun(install, word, run) && Runs(install, word, run[|run| - 1], b)
    ensures IsRun(install, word, more) && more[|more| - 1] == b
  {
    hide Runs;
    more := run + [b];
  }

  /** After a failure at `i` a run can go on through the neutral statements that follow. */
  lemma {:induction false} Drift(install: seq<string>, word: char -> bool, i: nat, j: nat) returns (run: seq<State>)
    requires i < j <= |install| && IsMaterial(install[i], word)
    requires forall k | i < k < j :: IsNeutral(install[k])
    ensures IsRun(install, word, run) && run[|run| - 1] == State(j, true, true, false, false)
  {
    hide IsStep, IsNeutral, IsMaterial;
    if j == i + 1 {
      KindsApart(install[i], word);
      run := Reach(install, word, i);
    } else {
      NeutralIsNoStep(install[j - 1]);
      if IsMaterial(install[j - 1], word) {
        KindsApart(install[j - 1], word);
      }
      run := Drift(install, word, i, j - 1);
    }
    run := Extend(install, word, run, State(j, true, true, false, false));
  }

  /** The first statement after `i` that is not neutral, or the end. */
  lemma {:induction false} FirstLoud(install: seq<string>, i: nat) returns (j: nat)
    requires i < |install|
    ensures i < j <= |install| && (forall k | i < k < j :: IsNeutral(install[k]))
    ensures j < |install| ==> !IsNeutral(install[j])
  {
    hide IsNeutral;
    j := i + 1;
    while j < |install| && IsNeutral(install[j])
      invariant i < j <= |install| && forall k | i < k < j :: IsNeutral(install[k])
    {
      j := j + 1;
    }
  }

  /** The scan passes a section exactly when no run of it, whatever fails and wherever its other
      statements jump, passes over a failure. */
  lemma ScanIsExact(install: seq<string>, word: char -> bool)
    ensures Checked(install, word) <==>
              forall run | IsRun(install, word, run) :: forall i | 0 <= i < |run| :: Careful(install, run[i])
  {
    hide IsStep, IsNeutral, IsMaterial, IsRun;
    if Checked(install, word) {
      forall run, i | IsRun(install, word, run) && 0 <= i < |run| ensures Careful(install, run[i]) {
        InvRun(install, word, run, i);
      }
    } else {
      var run := Slip(install, word);
    }
  }

  lemma Slip(install: seq<string>, word: char -> bool) returns (run: seq<State>)
    requires !Checked(install, word)
    ensures IsRun(install, word, run) && run != [] && !Careful(install, run[|run| - 1])
  {
    hide IsStep, IsNeutral, IsMaterial;
    var i :| 0 <= i < |install| && IsMaterial(install[i], word) && !CheckedAt(install, i);
    var j := FirstLoud(install, i);
    run := Drift(install, word, i, j);
    if j < |install| {
      assert !IsStep(install[j]);
      run := Extend(install, word, run, State(j + 1, true, true, true, false));
    }
  }

  // ---------------------------------------------------------- the required steps

  /** The name in a statement of the form `!insertmacro QRONOS_STEP "name"`. */
  function StepName(s: string): Option<string> {
    var head := STEP + "\"";
    if head <= s && |s| > |head| && s[|s| - 1] == '"' then Some(s[|head|..|s| - 1]) else None
  }

  /** Such a statement is a step, and names what stands between its quotes. */
  lemma StepIsNamed(name: string)
    ensures var s := STEP + "\"" + name + "\""; IsStep(s) && StepName(s) == Some(name)
  {
    var head, s := STEP + "\"", STEP + "\"" + name + "\"";
    assert s[..|head|] == head && s[|head|..|s| - 1] == name;
    assert s[..|STEP|] == STEP;
  }

  function StepNames(install: seq<string>): seq<string> {
    if install == [] then []
    else (if StepName(install[0]).Some? then [StepName(install[0]).value] else []) + StepNames(install[1..])
  }

  function IndexOf(names: seq<string>, name: string): (i: nat)
    ensures i <= |names| && (i < |names| <==> name in names) && (i < |names| ==> names[i] == name)
  {
    if names == [] || names[0] == name then 0 else IndexOf(names[1..], name) + 1
  }

  /** Where the step is first checked; the end if it never is. */
  function FirstStep(install: seq<string>, name: string): (i: nat)
    ensures i <= |install| && (i < |install| ==> StepName(install[i]) == Some(name))
    ensures forall k | 0 <= k < i :: StepName(install[k]) != Some(name)
  {
    if install == [] || StepName(install[0]) == Some(name) then 0 else FirstStep(install[1..], name) + 1
  }

  predicate StepsPass(install: seq<string>, template: seq<string>) {
    var names := StepNames(install);
    && (forall i | 0 <= i < |template| :: template[i] in names)
    && (forall i, j | 0 <= i < j < |template| :: IndexOf(names, template[i]) <= IndexOf(names, template[j]))
  }

  /** Positions among the steps are ordered as positions in the section. */
  lemma {:induction false} StepOrder(install: seq<string>, a: string, b: string)
    requires a != b
    ensures FirstStep(install, a) < |install| <==> a in StepNames(install)
    ensures FirstStep(install, a) < FirstStep(install, b) <==>
              IndexOf(StepNames(install), a) < IndexOf(StepNames(install), b)
  {
    if install != [] {
      StepOrder(install[1..], a, b);
      FirstOfRest(install, a);
      FirstOfRest(install, b);
      hide StepName, FirstStep, StepNames, IndexOf;
    }
  }

  lemma FirstOfRest(install: seq<string>, a: string)
    requires install != []
    ensures FirstStep(install, a) == if StepName(install[0]) == Some(a) then 0 else FirstStep(install[1..], a) + 1
    ensures IndexOf(StepNames(install), a) ==
            if StepName(install[0]).None? then IndexOf(StepNames(install[1..]), a)
            else if StepName(install[0]) == Some(a) then 0
            else IndexOf(StepNames(install[1..]), a) + 1
    ensures a in StepNames(install) <==> StepName(install[0]) == Some(a) || a in StepNames(install[1..])
  {
    hide StepName;
    var rest := StepNames(install[1..]);
    if StepName(install[0]).Some? {
      assert StepNames(install)[1..] == rest;
    } else {
      assert StepNames(install) == rest;
    }
  }

  /** Each step of the template is checked somewhere, and the first checks come strictly in its order. */
  ghost predicate InOrder(install: seq<string>, template: seq<string>) {
    && (forall i | 0 <= i < |template| :: FirstStep(install, template[i]) < |install|)
    && (forall i, j | 0 <= i < j < |template| :: FirstStep(install, template[i]) < FirstStep(install, template[j]))
  }

  lemma OrderCarries(install: seq<string>, template: seq<string>)
    requires forall i, j | 0 <= i < j < |template| :: template[i] != template[j]
    ensures StepsPass(install, template) <==> InOrder(install, template)
  {
    hide StepNames, FirstStep, IndexOf;
    var names := StepNames(install);
    forall i | 0 <= i < |template| ensures FirstStep(install, template[i]) < |install| <==> template[i] in names {
      StepOrder(install, template[i], template[i] + "x");
    }
    forall i, j | 0 <= i < j < |template| && template[i] in names && template[j] in names
      ensures FirstStep(install, template[i]) < FirstStep(install, template[j]) <==>
              IndexOf(names, template[i]) <= IndexOf(names, template[j])
    {
      StepOrder(install, template[i], template[j]);
    }
  }

  /** The check of the steps passes exactly when the required steps are first checked in the fixed
      order. */
  lemma StepsPassExactly(install: seq<string>)
    ensures StepsPass(install, TEMPLATE_STEPS) <==> InOrder(install, TEMPLATE_STEPS)
  {
    hide StepsPass, InOrder;
    OrderCarries(install, TEMPLATE_STEPS);
  }

  // ------------------------------------------------------------ the whole section

  datatype Verdict = Passed | FenceNotFirst | FolderNotOnce | Unchecked(statement: string) | StepMissing
                   | NotOneCompletion | ReceiptNotNext | DeletesOutside

  function Occurrences(s: seq<string>, x: string): nat {
    if s == [] then 0 else (if s[0] == x then 1 else 0) + Occurrences(s[1..], x)
  }

  ghost predicate ReceiptFollows(install: seq<string>) {
    exists i | 0 <= i < |install| - 2 ::
      install[i] == COMPLETE && install[i + 1] == "!ifmacrodef NSIS_HOOK_POSTINSTALL"
      && install[i + 2] == "!insertmacro NSIS_HOOK_POSTINSTALL"
  }

  /** The checks of the Install section in their order. It passes exactly when the fence runs first, the
      folder is set once, every material statement is checked, the required steps come in order, the one
      completion stands right before the receipt hook, and nothing is deleted. */
  method VerifyInstall(install: seq<string>, word: char -> bool) returns (verdict: Verdict)
    ensures verdict == Passed <==>
              && install != [] && install[0] == FENCE && Occurrences(install, FOLDER) == 1
              && Checked(install, word) && InOrder(install, TEMPLATE_STEPS)
              && Occurrences(install, COMPLETE) == 1 && ReceiptFollows(install)
              && (forall s | s in install :: !Deletes(s))
  {
    hide Checked, InOrder, StepsPass, Occurrences, Deletes;
    if install == [] || install[0] != FENCE {
      return FenceNotFirst;
    }
    if Occurrences(install, FOLDER) != 1 {
      return FolderNotOnce;
    }
    var unchecked := Scan(install, word);
    if unchecked.Some? {
      return Unchecked(unchecked.value);
    }
    StepsPassExactly(install);
    if !StepsPass(install, TEMPLATE_STEPS) {
      return StepMissing;
    }
    if Occurrences(install, COMPLETE) != 1 {
      return NotOneCompletion;
    }
    var at := IndexOf(install, COMPLETE);
    OnceAt(install, COMPLETE);
    if |install| < at + 3 || install[at + 1] != "!ifmacrodef NSIS_HOOK_POSTINSTALL"
       || install[at + 2] != "!insertmacro NSIS_HOOK_POSTINSTALL" {
      return ReceiptNotNext;
    }
    assert ReceiptFollows(install);
    if exists s | s in install :: Deletes(s) {
      return DeletesOutside;
    }
    verdict := Passed;
  }

  lemma {:induction false} OnceAt(s: seq<string>, x: string)
    requires Occurrences(s, x) == 1
    ensures IndexOf(s, x) < |s| && forall i | 0 <= i < |s| && s[i] == x :: i == IndexOf(s, x)
  {
    if s[0] == x {
      NoneLeft(s[1..], x);
      forall i | 0 < i < |s| ensures s[i] != x {
        assert s[i] == s[1..][i - 1];
      }
    } else {
      OnceAt(s[1..], x);
      forall i | 0 <= i < |s| && s[i] == x ensures i == IndexOf(s, x) {
        assert i > 0 && s[i] == s[1..][i - 1];
      }
    }
  }

  lemma {:induction false} NoneLeft(s: seq<string>, x: string)
    requires Occurrences(s, x) == 0
    ensures x !in s
  {
    if s != [] {
      NoneLeft(s[1..], x);
    }
  }

}
