/** The rotating log: one JSON text a line, a live file and one previous file.

    Each write is atomic; measuring, rotating and writing may each fail. */
module AppendOnlyLog {

  import opened Options
  import opened PythonText

  /** The lines of the two files, where they exist. */
  datatype Disk = Disk(live: Option<seq<string>>, previous: Option<seq<string>>)

  datatype Faults = Faults(folder: bool, measure: bool, rotate: bool, write: bool)

  function Lines(file: Option<seq<string>>): seq<string> {
    if file.Some? then file.value else []
  }

  function Utf8(c: char): nat {
    if c < '\U{80}' then 1 else if c < '\U{800}' then 2 else if c < '\U{10000}' then 3 else 4
  }

  function Bytes(s: string): nat {
    if s == "" then 0 else Utf8(s[0]) + Bytes(s[1..])
  }

  /** The size of a file: each line with its newline. */
  function Size(lines: seq<string>): nat {
    if lines == [] then 0 else Size(lines[..|lines| - 1]) + Bytes(lines[|lines| - 1]) + 1
  }

  // ---------------------------------------------------------------- appending

  function Rotated(d: Disk, cap: int, incoming: nat, f: Faults): Disk {
    if d.live.None? || f.measure || Size(d.live.value) + incoming <= cap || f.rotate then d
    else Disk(None, d.live)
  }

  predicate Fails(f: Faults) {
    f.folder || f.write
  }

  function Appended(d: Disk, cap: int, line: string, f: Faults): Disk {
    if f.folder then d
    else
      var r := Rotated(d, cap, Bytes(line) + 1, f);
      if f.write then r else r.(live := Some(Lines(r.live) + [line]))
  }

  class Log {
    const cap: int
    var live: Option<seq<string>>
    var previous: Option<seq<string>>

    ghost function Contents(): Disk
      reads this
    {
      Disk(live, previous)
    }

    constructor (cap: int, disk: Disk)
      ensures this.cap == cap && Contents() == disk
    {
      this.cap := cap;
      live, previous := disk.live, disk.previous;
    }

    method RotateIfNeeded(incoming: nat, f: Faults)
      modifies this
      ensures Contents() == Rotated(old(Contents()), cap, incoming, f)
    {
      if live.None? || f.measure {
        return;
      }
      if Size(live.value) + incoming <= cap {
        return;
      }
      if f.rotate {
        return;
      }
      previous := live;
      live := None;
    }

    method Append(line: string, f: Faults) returns (reached: bool)
      modifies this
      ensures Contents() == Appended(old(Contents()), cap, line, f)
      ensures reached == !Fails(f)
    {
      if f.folder {
        return false;
      }
      RotateIfNeeded(Bytes(line) + 1, f);
      if f.write {
        return false;
      }
      live := Some(Lines(live) + [line]);
      reached := true;
    }

    /** `read_records`: the lines of the live text that parse to a record. */
    method ReadRecords<R>(json: Json<R>) returns (records: seq<R>)
      ensures records == Records(json, Lines(live))
    {
      hide Blank, SplitLines, FileText, Parsed;
      records := [];
      var pieces := if live.None? then [] else SplitLines(FileText(live.value));
      ghost var all := pieces;
      assert [] + Parsed(json, all) == Parsed(json, all);
      NoLines(json, live);
      while pieces != []
        invariant Parsed(json, all) == records + Parsed(json, pieces)
        decreases |pieces|
      {
        var line := pieces[0];
        ParsedFirst(json, records, pieces);
        if !Blank(line) {
          var parsed := json.loads(line);
          if parsed.Some? {
            records := records + [parsed.value];
          }
        }
        pieces := pieces[1..];
      }
      ParsedNone(json, records);
    }
  }

  // ---------------------------------------------------------- what is never lost

  /** One call of `append`. */
  datatype Call = Call(line: string, faults: Faults)

  function After(cap: int, calls: seq<Call>): Disk {
    if calls == [] then Disk(None, None)
    else
      var last := calls[|calls| - 1];
      Appended(After(cap, calls[..|calls| - 1]), cap, last.line, last.faults)
  }

  /** The records that reached the file, in order. */
  function Written(calls: seq<Call>): seq<string> {
    if calls == [] then []
    else
      var last := calls[|calls| - 1];
      Written(calls[..|calls| - 1]) + if Fails(last.faults) then [] else [last.line]
  }

  lemma RotationKeeps(d: Disk, cap: int, incoming: nat, f: Faults, w: seq<string>, k: nat) returns (l: nat)
    requires k <= |w| && Lines(d.previous) + Lines(d.live) == w[k..]
    ensures l <= |w| && var r := Rotated(d, cap, incoming, f); Lines(r.previous) + Lines(r.live) == w[l..]
  {
    hide Size;
    var r := Rotated(d, cap, incoming, f);
    l := k;
    if r != d {
      l := k + |Lines(d.previous)|;
      assert w[l..] == w[k..][|Lines(d.previous)|..] == Lines(d.live);
      assert Lines(d.live) + [] == Lines(d.live);
    }
  }

  /** Whatever fails, the previous file followed by the live file is a contiguous suffix of the records
      written: nothing is missing between the oldest record kept and the newest. */
  lemma {:induction false} KeepsASuffix(cap: int, calls: seq<Call>) returns (k: nat)
    ensures k <= |Written(calls)|
    ensures var d := After(cap, calls); Lines(d.previous) + Lines(d.live) == Written(calls)[k..]
  {
    hide Rotated, Size, Bytes;
    if calls == [] {
      k := 0;
    } else {
      var before, last := calls[..|calls| - 1], calls[|calls| - 1];
      k := KeepsASuffix(cap, before);
      var d, w := After(cap, before), Written(before);
      var incoming := Bytes(last.line) + 1;
      k := WriteKeeps(d, cap, last, w, k);
    }
  }

  lemma WriteKeeps(d: Disk, cap: int, call: Call, w: seq<string>, k: nat) returns (l: nat)
    requires k <= |w| && Lines(d.previous) + Lines(d.live) == w[k..]
    ensures var after := w + if Fails(call.faults) then [] else [call.line];
            var e := Appended(d, cap, call.line, call.faults);
            l <= |after| && Lines(e.previous) + Lines(e.live) == after[l..]
  {
    hide Rotated, Size, Bytes;
    assert w + [] == w;
    l := k;
    if !call.faults.folder {
      l := RotationKeeps(d, cap, Bytes(call.line) + 1, call.faults, w, k);
      var r := Rotated(d, cap, Bytes(call.line) + 1, call.faults);
      if !call.faults.write {
        assert Lines(r.previous) + (Lines(r.live) + [call.line]) == w[l..] + [call.line] == (w + [call.line])[l..];
      }
    }
  }

  /** The live file is over its cap after a write only if that record alone is, or its measurement or
      its rotation failed. */
  lemma OverTheCapOnlyBy(cap: int, calls: seq<Call>, line: string, f: Faults)
    requires !Fails(f)
    ensures var d := Appended(After(cap, calls), cap, line, f);
            Size(Lines(d.live)) > cap ==> Bytes(line) + 1 > cap || f.measure || f.rotate
  {
    var d := After(cap, calls);
    var r := Rotated(d, cap, Bytes(line) + 1, f);
    assert Size([]) == 0;
  }

  /** The number of bytes UTF-8 gives a character is the least that holds its 7, 11, 16 or 21 bits. */
  lemma Utf8IsLeast(c: char)
    ensures var limits := [0, 0x80, 0x800, 0x1_0000, 0x11_0000];
            1 <= Utf8(c) <= 4 && limits[Utf8(c) - 1] <= c as int < limits[Utf8(c)]
  {}

  /** The size of a text is the sum over its characters. */
  lemma {:induction false} BytesAppend(a: string, b: string)
    ensures Bytes(a + b) == Bytes(a) + Bytes(b) && |a| <= Bytes(a) <= 4 * |a|
    ensures forall c :: Bytes([c]) == Utf8(c)
  {
    forall c ensures Bytes([c]) == Utf8(c) {
      assert [c][1..] == "";
    }
    if a == "" {
      assert a + b == b;
    } else {
      assert (a + b)[1..] == a[1..] + b;
      BytesAppend(a[1..], b);
    }
  }

  /** A file is rotated away exactly when it can be measured and replaced and would grow over the cap; else the
      previous file stays. And a record that can be written is the last line of the live file. */
  lemma RotatesExactly(d: Disk, cap: int, line: string, f: Faults)
    ensures var e := Appended(d, cap, line, f);
            var rotates := d.live.Some? && !f.folder && !f.measure && !f.rotate
                           && Size(d.live.value) + Bytes(line) + 1 > cap;
            && e.previous == (if rotates then d.live else d.previous)
            && Lines(e.live) == (if rotates then [] else Lines(d.live)) + (if Fails(f) then [] else [line])
  {
    hide Size, Bytes;
  }

  function TotalSize(calls: seq<Call>): nat {
    if calls == [] then 0 else TotalSize(calls[..|calls| - 1]) + Bytes(calls[|calls| - 1].line) + 1
  }

  /** Nothing is rotated away while the live file and what is to come fit the cap: over any stretch of calls
      the previous file stays as it was and the live file gains exactly the records written. */
  lemma {:induction false} WhatFitsStays(cap: int, before: seq<Call>, later: seq<Call>)
    requires Size(Lines(After(cap, before).live)) + TotalSize(later) <= cap
    ensures var d, e := After(cap, before), After(cap, before + later);
            && e.previous == d.previous && Lines(e.live) == Lines(d.live) + Written(later)
            && Size(Lines(e.live)) <= Size(Lines(d.live)) + TotalSize(later)
    decreases |later|
  {
    hide Appended, Bytes, Size;
    if later == [] {
      assert before + later == before;
      assert Lines(After(cap, before).live) + Written(later) == Lines(After(cap, before).live);
    } else {
      var init, last := later[..|later| - 1], later[|later| - 1];
      WhatFitsStays(cap, before, init);
      assert (before + later)[..|before + later| - 1] == before + init;
      var mid := After(cap, before + init);
      hide After;
      RoomForOne(mid, cap, last);
      assert Lines(After(cap, before).live) + (Written(init) + if Fails(last.faults) then [] else [last.line])
          == Lines(mid.live) + if Fails(last.faults) then [] else [last.line];
    }
  }

  lemma RoomForOne(d: Disk, cap: int, call: Call)
    requires Size(Lines(d.live)) + Bytes(call.line) + 1 <= cap
    ensures var e := Appended(d, cap, call.line, call.faults);
            && e.previous == d.previous
            && Lines(e.live) == Lines(d.live) + (if Fails(call.faults) then [] else [call.line])
            && Size(Lines(e.live)) <= Size(Lines(d.live)) + Bytes(call.line) + 1
  {
    RotatesExactly(d, cap, call.line, call.faults);
    SizeAppend(Lines(d.live), call.line);
    assert Lines(d.live) + [] == Lines(d.live);
    hide Appended, Bytes, Size;
  }

  lemma SizeAppend(lines: seq<string>, line: string)
    ensures Size(lines + [line]) == Size(lines) + Bytes(line) + 1
  {
    assert (lines + [line])[..|lines|] == lines;
  }

  // ------------------------------------------------------------------- reading

  /** JSON objects as the log writes and reads them; `loads` gives nothing for a line that is not one. */
  datatype Json<!R> = Json(dumps: R -> string, loads: string -> Option<R>)

  /** What the log relies on: a dump parses back, is not blank, and has its control characters escaped.
      The separators U+0085, U+2028 and U+2029 are left raw. */
  ghost predicate Lawful<R(!new)>(json: Json<R>) {
    forall r: R :: json.loads(json.dumps(r)) == Some(r) && !Blank(json.dumps(r))
                   && forall c | c in json.dumps(r) :: c >= ' '
  }

  predicate Blank(s: string) {
    forall c | c in s :: IsSpace(c)
  }

  function FileText(lines: seq<string>): string {
    if lines == [] then "" else lines[0] + "\n" + FileText(lines[1..])
  }

  /** The same pieces with one more character at the front. */
  function Grow(c: char, p: seq<string>): seq<string>
    requires |p| >= 1
  {
    p[0 := [c] + p[0]]
  }

  function Pieces(s: string): (p: seq<string>)
    ensures |p| >= 1
  {
    if s == "" then [""]
    else if EndsLine(s[0]) then [""] + Pieces(s[1..])
    else Grow(s[0], Pieces(s[1..]))
  }

  /** `str.splitlines`: a final line end opens no new line. */
  function SplitLines(s: string): seq<string> {
    var p := Pieces(s);
    if p[|p| - 1] == "" then p[..|p| - 1] else p
  }

  function Parsed<R>(json: Json<R>, lines: seq<string>): seq<R> {
    if lines == [] then []
    else
      var parsed := json.loads(lines[0]);
      (if !Blank(lines[0]) && parsed.Some? then [parsed.value] else []) + Parsed(json, lines[1..])
  }

  function Records<R>(json: Json<R>, live: seq<string>): seq<R> {
    Parsed(json, SplitLines(FileText(live)))
  }

  lemma NoLines<R>(json: Json<R>, file: Option<seq<string>>)
    ensures file.None? ==> Records(json, Lines(file)) == Parsed(json, [])
  {
  }

  lemma ParsedNone<R>(json: Json<R>, records: seq<R>)
    ensures records + Parsed(json, []) == records
  {
  }

  lemma ParsedFirst<R>(json: Json<R>, records: seq<R>, lines: seq<string>)
    requires lines != []
    ensures var parsed := json.loads(lines[0]);
            records + Parsed(json, lines)
            == (if !Blank(lines[0]) && parsed.Some? then records + [parsed.value] else records)
               + Parsed(json, lines[1..])
  {
  }

  lemma {:induction false} PiecesAround(a: string, c: char, b: string)
    requires EndsLine(c)
    ensures Pieces(a + [c] + b) == Pieces(a) + Pieces(b)
  {
    hide EndsLine;
    var s := a + [c] + b;
    if a == "" {
      assert s[1..] == b;
    } else {
      assert s[1..] == a[1..] + [c] + b;
      PiecesAround(a[1..], c, b);
      var p, q := Pieces(a[1..]), Pieces(b);
      if EndsLine(a[0]) {
        assert [""] + (p + q) == [""] + p + q;
      } else {
        assert Grow(a[0], p + q) == Grow(a[0], p) + q;
      }
    }
  }

  lemma {:induction false} ParsedAppend<R>(json: Json<R>, a: seq<string>, b: seq<string>)
    ensures Parsed(json, a + b) == Parsed(json, a) + Parsed(json, b)
  {
    hide Blank;
    if a == [] {
      assert a + b == b;
    } else {
      assert (a + b)[1..] == a[1..] + b;
      ParsedAppend(json, a[1..], b);
    }
  }

  /** What one line of the file contributes. */
  function Salvaged<R>(json: Json<R>, line: string): seq<R> {
    Parsed(json, Pieces(line))
  }

  function AllSalvaged<R>(json: Json<R>, lines: seq<string>): seq<R> {
    if lines == [] then [] else Salvaged(json, lines[0]) + AllSalvaged(json, lines[1..])
  }

  lemma {:induction false} TextPieces<R>(json: Json<R>, lines: seq<string>)
    ensures var p := Pieces(FileText(lines));
            p[|p| - 1] == "" && Parsed(json, p[..|p| - 1]) == AllSalvaged(json, lines)
  {
    if lines != [] {
      TextPieces(json, lines[1..]);
      var p, q := Pieces(lines[0]), Pieces(FileText(lines[1..]));
      assert EndsLine('\n');
      PiecesAround(lines[0], '\n', FileText(lines[1..]));
      assert (p + q)[..|p + q| - 1] == p + q[..|q| - 1];
      ParsedAppend(json, p, q[..|q| - 1]);
    }
  }

  predicate Raw(s: string) {
    exists c | c in s :: EndsLine(c)
  }

  lemma {:induction false} OnePiece(s: string)
    requires !Raw(s)
    ensures Pieces(s) == [s]
  {
    if s != "" {
      assert s[0] in s;
      assert forall c | c in s[1..] :: c in s;
      OnePiece(s[1..]);
      assert [s[0]] + s[1..] == s;
      assert Grow(s[0], [s[1..]]) == [s];
    }
  }

  function Dumps<R>(json: Json<R>, records: seq<R>): seq<string> {
    seq(|records|, i requires 0 <= i < |records| => json.dumps(records[i]))
  }

  /** Reading gives back exactly the live records when none of them holds a separator raw. */
  lemma {:induction false} ReadsTheLiveRecords<R(!new)>(json: Json<R>, records: seq<R>)
    requires Lawful(json) && forall r | r in records :: !Raw(json.dumps(r))
    ensures Records(json, Dumps(json, records)) == records
  {
    TextPieces(json, Dumps(json, records));
    AllIntact(json, records);
  }

  lemma {:induction false} AllIntact<R(!new)>(json: Json<R>, records: seq<R>)
    requires Lawful(json) && forall r | r in records :: !Raw(json.dumps(r))
    ensures AllSalvaged(json, Dumps(json, records)) == records
  {
    hide Raw, Blank;
    if records != [] {
      var r := records[0];
      assert r in records && Dumps(json, records)[1..] == Dumps(json, records[1..]);
      AllIntact(json, records[1..]);
      OnePiece(json.dumps(r));
      assert [json.dumps(r)][1..] == [] && Parsed(json, []) == [];
      assert Salvaged(json, json.dumps(r)) == [r];
      assert [r] + records[1..] == records;
    }
  }

  /** A dump cut at a separator never parses back to its own record: what is left of it is not the whole
      object. */
  ghost predicate CutsAreFatal<R(!new)>(json: Json<R>) {
    forall r, p | Raw(json.dumps(r)) && p in Pieces(json.dumps(r)) :: json.loads(p) != Some(r)
  }

  lemma {:induction false} ParsedFrom<R(!new)>(json: Json<R>, lines: seq<string>, r: R)
    requires r in Parsed(json, lines)
    ensures exists p | p in lines :: json.loads(p) == Some(r)
  {
    hide Blank;
    if json.loads(lines[0]) != Some(r) {
      ParsedFrom(json, lines[1..], r);
    }
  }

  /** Reading is faithful to every log of some kind of records exactly when no record of that kind holds
      U+0085, U+2028 or U+2029 (or another raw line end). */
  lemma ReadsExactly<R(!new)>(json: Json<R>, kind: iset<R>)
    requires Lawful(json) && CutsAreFatal(json)
    ensures (forall records: seq<R> | (forall r | r in records :: r in kind) ::
               Records(json, Dumps(json, records)) == records)
            <==> forall r | r in kind :: !Raw(json.dumps(r))
  {
    hide Records, Raw;
    forall records: seq<R> | (forall r | r in records :: r in kind) && (forall r | r in kind :: !Raw(json.dumps(r)))
      ensures Records(json, Dumps(json, records)) == records
    {
      ReadsTheLiveRecords(json, records);
    }
    forall r | r in kind && Raw(json.dumps(r)) ensures Records(json, Dumps(json, [r])) != [r] {
      CutRecordIsLost(json, r);
    }
    assert forall r | r in kind :: forall s | s in [r] :: s in kind;
  }

  lemma CutRecordIsLost<R(!new)>(json: Json<R>, r: R)
    requires CutsAreFatal(json) && Raw(json.dumps(r))
    ensures r !in Records(json, Dumps(json, [r]))
  {
    var line := json.dumps(r);
    TextPieces(json, Dumps(json, [r]));
    assert Dumps(json, [r]) == [line] && [line][1..] == [];
    assert AllSalvaged(json, [line]) == Salvaged(json, line) + AllSalvaged(json, []);
    if r in Salvaged(json, line) {
      ParsedFrom(json, Pieces(line), r);
    }
  }

  /** Worse than a lost record: with two separators in it, a record reads as one nobody wrote. */
  lemma MiddleIsForged<R(!new)>(json: Json<R>, a: string, b: string, c: string, forged: R)
    requires !Raw(a) && !Raw(b) && !Raw(c) && !Blank(b)
    requires json.loads(a).None? && json.loads(b) == Some(forged) && json.loads(c).None?
    ensures Records(json, [a + ['\U{85}'] + (b + ['\U{85}'] + c)]) == [forged]
  {
    hide Raw, Blank;
    var line := a + ['\U{85}'] + (b + ['\U{85}'] + c);
    TextPieces(json, [line]);
    PiecesAround(a, '\U{85}', b + ['\U{85}'] + c);
    PiecesAround(b, '\U{85}', c);
    OnePiece(a);
    OnePiece(b);
    OnePiece(c);
    assert [line][1..] == [] && Pieces(line) == [a] + ([b] + [c]);
    ParsedAppend(json, [a], [b] + [c]);
    ParsedAppend(json, [b], [c]);
  }

  /** Such a record: the object with the string `x`, separator, `{}`, separator, `y` reads as the empty
      object. */
  lemma SeparatorsForgeARecord<R(!new)>(json: Json<R>, r: R, empty: R)
    requires json.dumps(r) == "{\"a\": \"x" + ['\U{85}'] + ("{}" + ['\U{85}'] + "y\"}")
    requires json.loads("{\"a\": \"x").None? && json.loads("{}") == Some(empty) && json.loads("y\"}").None?
    ensures Records(json, [json.dumps(r)]) == [empty]
  {
    hide Records;
    assert "{}"[0] == '{' && '{' in "{}" && !IsSpace('{');
    MiddleIsForged(json, "{\"a\": \"x", "{}", "y\"}", empty);
  }
}
