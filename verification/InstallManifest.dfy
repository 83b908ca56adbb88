/** The ownership manifest of an installation: what `render` writes, `parse` reads back, and what a
    removal driven by it leaves behind.

    `device` says which stems Windows reserves for devices and `fold` is the case folding; both are
    arbitrary. The text is modelled before its UTF-16 encoding. */
module InstallManifest {

  datatype Names = Names(device: string -> bool, fold: string -> string)

  datatype Error = NotPlain(path: string) | BadName(path: string) | OnlyCaseDiffers | FileAndFolder
                 | NotAManifest | BadLine(line: string)

  datatype Result<T> = Ok(value: T) | Err(error: Error)

  const HEADER := "QRONOS-INSTALL-MANIFEST 1 com.qronos.agent"

  // ------------------------------------------------------------------- strings

  function SplitOn(s: string, c: char): (parts: seq<string>)
    ensures |parts| >= 1
  {
    if s == "" then [""]
    else
      var rest := SplitOn(s[1..], c);
      if s[0] == c then [""] + rest else [[s[0]] + rest[0]] + rest[1..]
  }

  function Join(parts: seq<string>, c: char): string {
    if parts == [] then ""
    else if |parts| == 1 then parts[0]
    else parts[0] + [c] + Join(parts[1..], c)
  }

  function Replace(s: string, from: char, to: char): (r: string)
    ensures |r| == |s|
  {
    seq(|s|, i requires 0 <= i < |s| => if s[i] == from then to else s[i])
  }

  predicate HasDots(s: string) {
    |s| >= 2 && ((s[0] == '.' && s[1] == '.') || HasDots(s[1..]))
  }

  function RStrip(s: string): string {
    if s != "" && s[|s| - 1] == ' ' then RStrip(s[..|s| - 1]) else s
  }

  predicate LexLess(a: string, b: string) {
    b != "" && (a == "" || a[0] < b[0] || (a[0] == b[0] && LexLess(a[1..], b[1..])))
  }

  function Count(s: string, c: char): nat {
    if s == "" then 0 else (if s[0] == c then 1 else 0) + Count(s[1..], c)
  }

  // --------------------------------------------------------------- one entry

  predicate Forbidden(c: char) {
    c in "<>:\"/\\|?*" || c < ' ' || c == '\U{7f}'
  }

  predicate NameOk(n: Names, part: string)
    requires part != ""
  {
    && (forall c | c in part :: !Forbidden(c))
    && part[0] != ' ' && part[|part| - 1] != ' ' && part[|part| - 1] != '.'
    && !n.device(RStrip(SplitOn(part, '.')[0]))
  }

  predicate Plain(c: char) {
    'A' <= c <= 'Z' || 'a' <= c <= 'z' || '0' <= c <= '9' || c == '-' || c == '_'
  }

  /** Ordinary names are accepted, unless the stem is a device, whatever the extension. */
  lemma OrdinaryNames(n: Names, part: string, extension: string)
    requires part != "" && forall c | c in part :: Plain(c)
    ensures NameOk(n, part) <==> !n.device(part)
    ensures n.device(part) ==> !NameOk(n, part + "." + extension)
  {
    assert part[0] in part && part[|part| - 1] in part;
    SplitOnce(part, '.', extension);
    assert RStrip(part) == part;
    hide Forbidden;
    forall c | c in part ensures !Forbidden(c) {
      PlainIsAllowed(c);
    }
  }

  lemma PlainIsAllowed(c: char)
    requires Plain(c)
    ensures !Forbidden(c)
  {}

  /** A name that Windows would change is refused: one that begins with a blank, or ends with a blank or a
      dot; and so is one with a character that Windows forbids. */
  lemma NamesRefused(n: Names, part: string)
    requires part != ""
    ensures !NameOk(n, " " + part) && !NameOk(n, part + " ") && !NameOk(n, part + ".")
    ensures forall c | c in part && (c < ' ' || c == '\U{7f}' || c in "<>:\"/\\|?*") :: !NameOk(n, part)
  {
    hide RStrip, SplitOn;
  }

  /** The parts of a POSIX path: empty ones and single dots drop out. */
  function Kept(parts: seq<string>): (kept: seq<string>)
    ensures forall p :: p in kept <==> p in parts && p != "" && p != "."
  {
    if parts == [] then []
    else (if parts[0] == "" || parts[0] == "." then [] else [parts[0]]) + Kept(parts[1..])
  }

  function CheckEntry(n: Names, path: string): Result<string> {
    var parts := Kept(SplitOn(path, '/'));
    if parts == [] || (path != "" && path[0] == '/') || '\\' in path || HasDots(path) then Err(NotPlain(path))
    else if exists p | p in parts :: !NameOk(n, p) then Err(BadName(path))
    else Ok(Join(parts, '\\'))
  }

  // ------------------------------------------------------------------- render

  /** Puts `x` into its place, once. */
  function Insert(before: (string, string) -> bool, x: string, s: seq<string>): seq<string> {
    if s == [] then [x]
    else if x == s[0] then s
    else if before(x, s[0]) then [x] + s
    else [s[0]] + Insert(before, x, s[1..])
  }

  /** The distinct elements of `xs` in order. */
  function Sorted(before: (string, string) -> bool, xs: seq<string>): seq<string> {
    if xs == [] then [] else Insert(before, xs[0], Sorted(before, xs[1..]))
  }

  predicate FileBefore(n: Names, a: string, b: string) {
    LexLess(n.fold(a), n.fold(b)) || (n.fold(a) == n.fold(b) && LexLess(a, b))
  }

  predicate FolderBefore(n: Names, a: string, b: string) {
    Count(a, '\\') > Count(b, '\\') || (Count(a, '\\') == Count(b, '\\') && FileBefore(n, a, b))
  }

  function CheckAll(n: Names, files: seq<string>): Result<seq<string>> {
    if files == [] then Ok([])
    else
      var first := CheckEntry(n, files[0]);
      if first.Err? then Err(first.error)
      else
        var rest := CheckAll(n, files[1..]);
        if rest.Err? then rest else Ok([first.value] + rest.value)
  }

  /** The folders above a backslash path, outermost first. */
  function Folders(path: string): seq<string> {
    var parts := SplitOn(path, '\\');
    seq(|parts| - 1, i requires 0 <= i < |parts| - 1 => Join(parts[..i + 1], '\\'))
  }

  function AllFolders(files: seq<string>): (all: seq<string>)
    ensures forall d :: d in all <==> exists f | f in files :: d in Folders(f)
  {
    if files == [] then [] else Folders(files[0]) + AllFolders(files[1..])
  }

  predicate CaseClash(n: Names, files: seq<string>) {
    exists i, j | 0 <= i < j < |files| :: n.fold(files[i]) == n.fold(files[j])
  }

  predicate KindClash(n: Names, files: seq<string>, folders: seq<string>) {
    exists f, d | f in files && d in folders :: n.fold(f) == n.fold(d)
  }

  function Marked(kind: char, paths: seq<string>): (lines: seq<string>)
    ensures |lines| == |paths| && forall i | 0 <= i < |paths| :: lines[i] == [kind, ' '] + paths[i]
  {
    seq(|paths|, i requires 0 <= i < |paths| => [kind, ' '] + paths[i])
  }

  function Text(lines: seq<string>): string {
    if lines == [] then "" else lines[0] + "\r\n" + Text(lines[1..])
  }

  function SortedFiles(n: Names, checked: seq<string>): seq<string> {
    Sorted((a, b) => FileBefore(n, a, b), checked)
  }

  function SortedFolders(n: Names, files: seq<string>): seq<string> {
    Sorted((a, b) => FolderBefore(n, a, b), AllFolders(files))
  }

  function Render(n: Names, files: seq<string>): Result<string> {
    var checked := CheckAll(n, files);
    if checked.Err? then Err(checked.error)
    else
      var fs := SortedFiles(n, checked.value);
      if CaseClash(n, fs) then Err(OnlyCaseDiffers)
      else if KindClash(n, fs, AllFolders(fs)) then Err(FileAndFolder)
      else Ok(Text([HEADER] + Marked('F', fs) + Marked('D', SortedFolders(n, fs))))
  }

  // -------------------------------------------------------------------- parse

  function SplitLines(s: string): (lines: seq<string>)
    ensures |lines| >= 1
  {
    if s == "" then [""]
    else if |s| >= 2 && s[0] == '\r' && s[1] == '\n' then [""] + SplitLines(s[2..])
    else
      var rest := SplitLines(s[1..]);
      [[s[0]] + rest[0]] + rest[1..]
  }

  datatype Lists = Lists(files: seq<string>, folders: seq<string>)

  /** The text before the first space, and the text after it. */
  function Partition(line: string): (string, string) {
    if line == "" then ("", "")
    else if line[0] == ' ' then ("", line[1..])
    else
      var (kind, rest) := Partition(line[1..]);
      ([line[0]] + kind, rest)
  }

  predicate LineOk(n: Names, line: string) {
    var (kind, path) := Partition(line);
    (kind == "F" || kind == "D") && CheckEntry(n, Replace(path, '\\', '/')) == Ok(path)
  }

  function ParseLines(n: Names, lines: seq<string>): Result<Lists> {
    if lines == [] then Ok(Lists([], []))
    else if !LineOk(n, lines[0]) then Err(BadLine(lines[0]))
    else
      var rest := ParseLines(n, lines[1..]);
      var (kind, path) := Partition(lines[0]);
      if rest.Err? then rest
      else if kind == "F" then Ok(Lists([path] + rest.value.files, rest.value.folders))
      else Ok(Lists(rest.value.files, [path] + rest.value.folders))
  }

  function Parse(n: Names, text: string): Result<Lists> {
    var lines := SplitLines(text);
    if lines[0] != HEADER || lines[|lines| - 1] != "" then Err(NotAManifest)
    else ParseLines(n, lines[1..|lines| - 1])
  }

  method ParseManifest(n: Names, text: string) returns (result: Result<Lists>)
    ensures result == Parse(n, text)
  {
    var lines := SplitLines(text);
    if lines[0] != HEADER || lines[|lines| - 1] != "" {
      return Err(NotAManifest);
    }
    hide CheckEntry, Partition, SplitLines, Replace, ParseLines;
    var files: seq<string>, folders: seq<string> := [], [];
    var todo := lines[1..|lines| - 1];
    ghost var all := todo;
    PrependedNothing(ParseLines(n, all));
    while todo != []
      invariant ParseLines(n, all) == Prepended(files, folders, ParseLines(n, todo))
    {
      var line := todo[0];
      var (kind, path) := Partition(line);
      PrependedStep(n, files, folders, todo);
      if (kind != "F" && kind != "D") || CheckEntry(n, Replace(path, '\\', '/')) != Ok(path) {
        return Err(BadLine(line));
      }
      if kind == "F" {
        files := files + [path];
      } else {
        folders := folders + [path];
      }
      todo := todo[1..];
    }
    result := Ok(Lists(files, folders));
    PrependedEnd(n, files, folders);
  }

  function Prepended(files: seq<string>, folders: seq<string>, rest: Result<Lists>): Result<Lists> {
    if rest.Err? then rest else Ok(Lists(files + rest.value.files, folders + rest.value.folders))
  }

  lemma PrependedNothing(r: Result<Lists>)
    ensures Prepended([], [], r) == r
  {
    if r.Ok? {
      assert [] + r.value.files == r.value.files && [] + r.value.folders == r.value.folders;
    }
  }

  lemma PrependedEnd(n: Names, files: seq<string>, folders: seq<string>)
    ensures Prepended(files, folders, ParseLines(n, [])) == Ok(Lists(files, folders))
  {
    assert files + [] == files && folders + [] == folders;
  }

  lemma PrependedStep(n: Names, files: seq<string>, folders: seq<string>, lines: seq<string>)
    requires lines != []
    ensures var (kind, path) := Partition(lines[0]);
            Prepended(files, folders, ParseLines(n, lines))
            == if !LineOk(n, lines[0]) then Err(BadLine(lines[0]))
               else if kind == "F" then Prepended(files + [path], folders, ParseLines(n, lines[1..]))
               else Prepended(files, folders + [path], ParseLines(n, lines[1..]))
  {
    hide LineOk, Partition;
    var (kind, path) := Partition(lines[0]);
    var rest := ParseLines(n, lines[1..]);
    if LineOk(n, lines[0]) && rest.Ok? {
      Regroup(files, path, rest.value.files);
      Regroup(folders, path, rest.value.folders);
    }
  }

  lemma Regroup(a: seq<string>, x: string, b: seq<string>)
    ensures a + ([x] + b) == a + [x] + b
  {}

  // ---------------------------------------------------------- splitting and joining

  lemma {:induction false} SplitOnce(a: string, c: char, b: string)
    requires c !in a
    ensures SplitOn(a, c) == [a] && SplitOn(a + [c] + b, c) == [a] + SplitOn(b, c)
  {
    var s := a + [c] + b;
    if a == "" {
      assert s[1..] == b;
    } else {
      assert s[1..] == a[1..] + [c] + b;
      SplitOnce(a[1..], c, b);
      assert [a[0]] + a[1..] == a;
    }
  }

  lemma {:induction false} SplitJoin(parts: seq<string>, c: char)
    requires parts != [] && forall p | p in parts :: c !in p
    ensures SplitOn(Join(parts, c), c) == parts
  {
    hide SplitOn;
    assert parts[0] in parts && parts == [parts[0]] + parts[1..];
    if |parts| == 1 {
      SplitOnce(parts[0], c, "");
    } else {
      assert forall p | p in parts[1..] :: p in parts;
      SplitJoin(parts[1..], c);
      SplitOnce(parts[0], c, Join(parts[1..], c));
    }
  }

  lemma {:induction false} JoinSplit(s: string, c: char)
    ensures Join(SplitOn(s, c), c) == s
  {
    if s != "" {
      JoinSplit(s[1..], c);
      var rest := SplitOn(s[1..], c);
      assert s == [s[0]] + s[1..];
      if s[0] == c {
        assert ([""] + rest)[1..] == rest;
      } else {
        assert ([[s[0]] + rest[0]] + rest[1..])[1..] == rest[1..];
        if |rest| > 1 {
          assert [s[0]] + (rest[0] + [c] + Join(rest[1..], c)) == [s[0]] + rest[0] + [c] + Join(rest[1..], c);
        }
      }
    }
  }

  /** A piece of a split holds no separator, and nothing the whole does not hold. */
  lemma {:induction false} SplitPieces(s: string, c: char, p: string)
    requires p in SplitOn(s, c)
    ensures c !in p && (forall x | x in p :: x in s) && (c != '.' && HasDots(p) ==> HasDots(s))
  {
    if s != "" {
      var rest := SplitOn(s[1..], c);
      if p in rest {
        SplitPieces(s[1..], c, p);
      } else if s[0] == c {
        assert p == "";
      } else {
        assert p == [s[0]] + rest[0];
        SplitPieces(s[1..], c, rest[0]);
        assert p[1..] == rest[0];
        FirstPiece(s[1..], c);
      }
    }
  }

  lemma FirstPiece(s: string, c: char)
    ensures SplitOn(s, c)[0] != "" ==> s != "" && SplitOn(s, c)[0][0] == s[0]
  {
  }

  lemma {:induction false} ReplaceJoin(parts: seq<string>, from: char, to: char)
    requires forall p | p in parts :: from !in p
    ensures Replace(Join(parts, from), from, to) == Join(parts, to)
  {
    if parts != [] {
      assert parts[0] in parts;
      assert Replace(parts[0], from, to) == parts[0];
    }
    if |parts| > 1 {
      ReplaceJoin(parts[1..], from, to);
      var first, rest := parts[0], Join(parts[1..], from);
      assert Replace(first + [from] + rest, from, to) == Replace(first, from, to) + [to] + Replace(rest, from, to);
    }
  }

  lemma {:induction false} JoinChars(parts: seq<string>, c: char, x: char)
    requires x in Join(parts, c)
    ensures x == c || exists p | p in parts :: x in p
  {
    if |parts| == 1 {
      assert parts[0] in parts;
    } else if x !in parts[0] && x != c {
      JoinChars(parts[1..], c, x);
      var p :| p in parts[1..] && x in p;
      assert p in parts;
    } else {
      assert parts[0] in parts;
    }
  }

  lemma {:induction false} JoinNoDots(parts: seq<string>, c: char)
    requires c != '.' && forall p | p in parts :: !HasDots(p)
    ensures !HasDots(Join(parts, c))
  {
    if |parts| == 1 {
      assert parts[0] in parts;
    } else if |parts| > 1 {
      JoinNoDots(parts[1..], c);
      assert parts[0] in parts;
      DotsAcross(parts[0], c, Join(parts[1..], c));
    }
  }

  lemma {:induction false} DotsAcross(a: string, c: char, b: string)
    requires c != '.' && !HasDots(a) && !HasDots(b)
    ensures !HasDots(a + [c] + b)
  {
    var s := a + [c] + b;
    if a == "" {
      assert s[1..] == b;
    } else {
      assert s[1..] == a[1..] + [c] + b;
      DotsAcross(a[1..], c, b);
    }
  }

  // ---------------------------------------------------------------- entries

  predicate Good(n: Names, part: string) {
    part != "" && NameOk(n, part) && !HasDots(part)
  }

  /** A backslash path of good names. */
  predicate IsEntry(n: Names, q: string) {
    forall p | p in SplitOn(q, '\\') :: Good(n, p)
  }

  lemma GoodPart(n: Names, part: string)
    requires Good(n, part)
    ensures '/' !in part && '\\' !in part && '\r' !in part && part != "."
  {
    assert Forbidden('/') && Forbidden('\\') && Forbidden('\r');
  }

  lemma EntryOf(n: Names, path: string)
    requires CheckEntry(n, path).Ok?
    ensures IsEntry(n, CheckEntry(n, path).value)
  {
    hide NameOk;
    var parts := Kept(SplitOn(path, '/'));
    forall p | p in parts ensures Good(n, p) && '\\' !in p {
      SplitPieces(path, '/', p);
      GoodPart(n, p);
    }
    SplitJoin(parts, '\\');
  }

  lemma {:induction false} KeptAll(parts: seq<string>)
    requires forall p | p in parts :: p != "" && p != "."
    ensures Kept(parts) == parts
  {
    if parts != [] {
      assert forall p | p in parts[1..] :: p in parts;
      KeptAll(parts[1..]);
      assert parts[0] in parts;
      assert parts == [parts[0]] + parts[1..];
    }
  }

  lemma JoinStarts(parts: seq<string>, c: char)
    requires parts != [] && parts[0] != ""
    ensures Join(parts, c) != "" && Join(parts, c)[0] == parts[0][0]
  {
  }

  /** An entry survives the round through slashes that `parse` puts it to. */
  lemma EntryStable(n: Names, q: string)
    requires IsEntry(n, q)
    ensures CheckEntry(n, Replace(q, '\\', '/')) == Ok(q)
  {
    hide NameOk, HasDots, Forbidden;
    var parts := SplitOn(q, '\\');
    forall p | p in parts ensures '/' !in p && '\\' !in p && p != "" && p != "." && !HasDots(p) {
      GoodPart(n, p);
    }
    JoinSplit(q, '\\');
    ReplaceJoin(parts, '\\', '/');
    var path := Join(parts, '/');
    SplitJoin(parts, '/');
    KeptAll(parts);
    JoinNoDots(parts, '/');
    assert parts[0] in parts;
    JoinStarts(parts, '/');
    assert parts[0][0] in parts[0];
    if '\\' in path {
      JoinChars(parts, '/', '\\');
    }
  }

  lemma EntryNoReturn(n: Names, q: string)
    requires IsEntry(n, q)
    ensures '\r' !in q
  {
    hide NameOk;
    JoinSplit(q, '\\');
    if '\r' in q {
      JoinChars(SplitOn(q, '\\'), '\\', '\r');
      var p :| p in SplitOn(q, '\\') && '\r' in p;
      GoodPart(n, p);
    }
  }

  lemma FolderIsEntry(n: Names, q: string, d: string)
    requires IsEntry(n, q) && d in Folders(q)
    ensures IsEntry(n, d)
  {
    hide NameOk;
    var parts := SplitOn(q, '\\');
    var k :| 0 <= k < |parts| - 1 && d == Join(parts[..k + 1], '\\');
    forall p | p in parts[..k + 1] ensures '\\' !in p && Good(n, p) {
      assert p in parts;
      GoodPart(n, p);
    }
    SplitJoin(parts[..k + 1], '\\');
  }

  // ------------------------------------------------------------------- order

  ghost predicate StrictTotal(before: (string, string) -> bool) {
    && (forall a :: !before(a, a))
    && (forall a, b, c :: before(a, b) && before(b, c) ==> before(a, c))
    && (forall a, b :: a != b ==> before(a, b) || before(b, a))
  }

  ghost predicate Ascending(before: (string, string) -> bool, s: seq<string>) {
    forall i, j | 0 <= i < j < |s| :: before(s[i], s[j])
  }

  lemma {:induction false} InsertMembers(before: (string, string) -> bool, x: string, s: seq<string>)
    ensures forall y :: y in Insert(before, x, s) <==> y == x || y in s
  {
    if s != [] {
      InsertMembers(before, x, s[1..]);
      assert s == [s[0]] + s[1..];
    }
  }

  lemma {:induction false} InsertSorts(before: (string, string) -> bool, x: string, s: seq<string>)
    requires StrictTotal(before) && Ascending(before, s)
    ensures Ascending(before, Insert(before, x, s))
  {
    if s != [] && x != s[0] {
      assert s == [s[0]] + s[1..];
      assert forall y | y in s[1..] :: before(s[0], y);
      if !before(x, s[0]) {
        InsertSorts(before, x, s[1..]);
        InsertMembers(before, x, s[1..]);
      }
    }
  }

  lemma {:induction false} SortedIsSorted(before: (string, string) -> bool, xs: seq<string>)
    requires StrictTotal(before)
    ensures Ascending(before, Sorted(before, xs))
    ensures forall y :: y in Sorted(before, xs) <==> y in xs
  {
    if xs != [] {
      SortedIsSorted(before, xs[1..]);
      InsertSorts(before, xs[0], Sorted(before, xs[1..]));
      InsertMembers(before, xs[0], Sorted(before, xs[1..]));
      hide Insert;
      assert xs == [xs[0]] + xs[1..];
    }
  }

  lemma {:induction false} LexTransitive(a: string, b: string, c: string)
    requires LexLess(a, b) && LexLess(b, c)
    ensures LexLess(a, c)
  {
    if a != "" && a[0] == b[0] == c[0] {
      LexTransitive(a[1..], b[1..], c[1..]);
    }
  }

  lemma {:induction false} LexConnected(a: string, b: string)
    ensures !LexLess(a, a) && (a != b ==> LexLess(a, b) || LexLess(b, a))
  {
    if a != "" {
      LexConnected(a[1..], if b == "" then b else b[1..]);
      assert a == [a[0]] + a[1..];
      assert b != "" ==> b == [b[0]] + b[1..];
    }
  }

  lemma FileBeforeIsOrder(n: Names)
    ensures StrictTotal((a, b) => FileBefore(n, a, b))
  {
    hide FileBefore;
    forall a ensures !FileBefore(n, a, a) {
      FileBeforeConnected(n, a, a);
    }
    forall a, b | a != b ensures FileBefore(n, a, b) || FileBefore(n, b, a) {
      FileBeforeConnected(n, a, b);
    }
    forall a, b, c | FileBefore(n, a, b) && FileBefore(n, b, c) ensures FileBefore(n, a, c) {
      FileBeforeTransitive(n, a, b, c);
    }
  }

  lemma FileBeforeConnected(n: Names, a: string, b: string)
    ensures !FileBefore(n, a, a) && (a != b ==> FileBefore(n, a, b) || FileBefore(n, b, a))
  {
    hide LexLess;
    LexConnected(a, b);
    LexConnected(n.fold(a), n.fold(b));
  }

  lemma FileBeforeTransitive(n: Names, a: string, b: string, c: string)
    requires FileBefore(n, a, b) && FileBefore(n, b, c)
    ensures FileBefore(n, a, c)
  {
    hide LexLess;
    if LexLess(n.fold(a), n.fold(b)) && LexLess(n.fold(b), n.fold(c)) {
      LexTransitive(n.fold(a), n.fold(b), n.fold(c));
    } else if n.fold(a) == n.fold(b) == n.fold(c) {
      LexTransitive(a, b, c);
    }
  }

  lemma FolderBeforeIsOrder(n: Names)
    ensures StrictTotal((a, b) => FolderBefore(n, a, b))
  {
    hide FileBefore, Count;
    FileBeforeIsOrder(n);
    var before := (a, b) => FileBefore(n, a, b);
    assert forall a, b :: before(a, b) == FileBefore(n, a, b);
  }

  // --------------------------------------------------------------- round trip

  lemma {:induction false} LineSplits(line: string, rest: string)
    requires '\r' !in line
    ensures SplitLines(line + "\r\n" + rest) == [line] + SplitLines(rest)
  {
    var s := line + "\r\n" + rest;
    if line == "" {
      assert s[2..] == rest;
    } else {
      assert s[1..] == line[1..] + "\r\n" + rest;
      LineSplits(line[1..], rest);
      assert s[0] == line[0] && line[0] in line && [line[0]] + line[1..] == line;
    }
  }

  lemma {:induction false} TextSplits(lines: seq<string>)
    requires forall line | line in lines :: '\r' !in line
    ensures SplitLines(Text(lines)) == lines + [""]
  {
    if lines != [] {
      assert lines[0] in lines && forall line | line in lines[1..] :: line in lines;
      TextSplits(lines[1..]);
      LineSplits(lines[0], Text(lines[1..]));
      assert [lines[0]] + (lines[1..] + [""]) == lines + [""];
    }
  }

  lemma MarkedLine(n: Names, kind: char, path: string)
    requires IsEntry(n, path) && (kind == 'F' || kind == 'D')
    ensures var line := [kind, ' '] + path;
            Partition(line) == ([kind], path) && LineOk(n, line) && '\r' !in line
  {
    hide IsEntry, CheckEntry;
    var line := [kind, ' '] + path;
    assert line[1..][1..] == path && line[1..][0] == ' ';
    assert Partition(line[1..]) == ("", path) && [kind] + "" == [kind];
    EntryStable(n, path);
    EntryNoReturn(n, path);
  }

  lemma ParsesFirst(n: Names, kind: char, path: string, lines: seq<string>)
    requires IsEntry(n, path) && (kind == 'F' || kind == 'D') && ParseLines(n, lines).Ok?
    ensures var rest := ParseLines(n, lines).value;
            ParseLines(n, [[kind, ' '] + path] + lines)
            == Ok(if kind == 'F' then Lists([path] + rest.files, rest.folders)
                  else Lists(rest.files, [path] + rest.folders))
  {
    hide IsEntry, LineOk, Partition;
    MarkedLine(n, kind, path);
    assert ([[kind, ' '] + path] + lines)[1..] == lines;
  }

  lemma {:induction false} ParsesKind(n: Names, kind: char, paths: seq<string>, lines: seq<string>)
    requires (forall q | q in paths :: IsEntry(n, q)) && (kind == 'F' || kind == 'D') && ParseLines(n, lines).Ok?
    ensures var rest := ParseLines(n, lines).value;
            ParseLines(n, Marked(kind, paths) + lines)
            == Ok(if kind == 'F' then Lists(paths + rest.files, rest.folders)
                  else Lists(rest.files, paths + rest.folders))
  {
    hide IsEntry, ParseLines;
    var rest := ParseLines(n, lines).value;
    if paths == [] {
      assert Marked(kind, paths) + lines == lines && [] + rest.files == rest.files && [] + rest.folders == rest.folders;
    } else {
      assert forall q | q in paths[1..] :: q in paths;
      var tail := Marked(kind, paths[1..]) + lines;
      ParsesKind(n, kind, paths[1..], lines);
      ParsesFirst(n, kind, paths[0], tail);
      assert Marked(kind, paths) + lines == [[kind, ' '] + paths[0]] + tail;
      assert [paths[0]] + (paths[1..] + rest.files) == paths + rest.files;
      assert [paths[0]] + (paths[1..] + rest.folders) == paths + rest.folders;
    }
  }

  lemma ParsesMarked(n: Names, fs: seq<string>, ds: seq<string>)
    requires forall q | q in fs + ds :: IsEntry(n, q)
    ensures ParseLines(n, Marked('F', fs) + Marked('D', ds)) == Ok(Lists(fs, ds))
  {
    hide IsEntry, ParseLines, Marked;
    ParsesNothing(n);
    ParsesKind(n, 'D', ds, []);
    assert Marked('D', ds) + [] == Marked('D', ds) && ds + [] == ds;
    ParsesKind(n, 'F', fs, Marked('D', ds));
    assert fs + [] == fs;
  }

  lemma ParsesNothing(n: Names)
    ensures ParseLines(n, []) == Ok(Lists([], []))
  {
  }

  lemma {:induction false} CheckAllGives(n: Names, files: seq<string>)
    ensures CheckAll(n, files).Ok? <==> forall p | p in files :: CheckEntry(n, p).Ok?
    ensures CheckAll(n, files).Ok? ==>
              forall q :: q in CheckAll(n, files).value <==> exists p | p in files :: CheckEntry(n, p) == Ok(q)
  {
    hide CheckEntry;
    if files != [] {
      CheckAllGives(n, files[1..]);
      assert files == [files[0]] + files[1..];
    }
  }

  /** The files of a manifest: exactly the checked payload paths, in strictly ascending folded order. */
  ghost predicate ListsFiles(n: Names, files: seq<string>, fs: seq<string>) {
    && (forall q :: q in fs <==> exists p | p in files :: CheckEntry(n, p) == Ok(q))
    && (forall i, j | 0 <= i < j < |fs| :: LexLess(n.fold(fs[i]), n.fold(fs[j])))
  }

  /** The folders of a manifest: every proper prefix of a listed file, once, deepest first. */
  ghost predicate ListsFolders(n: Names, fs: seq<string>, ds: seq<string>) {
    && (forall d :: d in ds <==> exists f | f in fs :: d in Folders(f))
    && (forall i, j | 0 <= i < j < |ds| :: FolderBefore(n, ds[i], ds[j]))
  }

  lemma SortedFilesAscend(n: Names, xs: seq<string>)
    ensures forall q :: q in SortedFiles(n, xs) <==> q in xs
    ensures forall i, j | 0 <= i < j < |SortedFiles(n, xs)| ::
              FileBefore(n, SortedFiles(n, xs)[i], SortedFiles(n, xs)[j])
  {
    hide FileBefore, Sorted;
    var before := (a, b) => FileBefore(n, a, b);
    FileBeforeIsOrder(n);
    SortedIsSorted(before, xs);
    var s := Sorted(before, xs);
    assert forall i, j | 0 <= i < j < |s| :: before(s[i], s[j]);
  }

  lemma SortedFoldersDescend(n: Names, fs: seq<string>)
    ensures ListsFolders(n, fs, SortedFolders(n, fs))
  {
    hide FolderBefore, Sorted, AllFolders;
    var before := (a, b) => FolderBefore(n, a, b);
    FolderBeforeIsOrder(n);
    SortedIsSorted(before, AllFolders(fs));
    var s := Sorted(before, AllFolders(fs));
    assert forall i, j | 0 <= i < j < |s| :: before(s[i], s[j]);
  }

  lemma ParsesBody(n: Names, fs: seq<string>, ds: seq<string>)
    requires forall q | q in fs + ds :: IsEntry(n, q)
    ensures Parse(n, Text([HEADER] + Marked('F', fs) + Marked('D', ds))) == Ok(Lists(fs, ds))
  {
    hide IsEntry, ParseLines, SplitLines;
    ParsesMarked(n, fs, ds);
    var body := Marked('F', fs) + Marked('D', ds);
    forall line | line in [HEADER] + body ensures '\r' !in line {
      if line != HEADER {
        MarkedLines(n, fs, ds, line);
      }
    }
    TextSplits([HEADER] + body);
    assert [HEADER] + Marked('F', fs) + Marked('D', ds) == [HEADER] + body;
    assert ([HEADER] + body + [""])[1..|body| + 1] == body;
  }

  lemma FilesListed(n: Names, files: seq<string>)
    requires CheckAll(n, files).Ok? && !CaseClash(n, SortedFiles(n, CheckAll(n, files).value))
    ensures ListsFiles(n, files, SortedFiles(n, CheckAll(n, files).value))
  {
    hide CheckEntry, SortedFiles, LexLess, CheckAll;
    CheckAllGives(n, files);
    SortedFilesAscend(n, CheckAll(n, files).value);
  }

  /** `parse` reads back exactly what `render` was given: the canonical files in order, and every
      folder above one of them, deepest first. */
  lemma RoundTrip(n: Names, files: seq<string>)
    requires Render(n, files).Ok?
    ensures var back := Parse(n, Render(n, files).value);
            && back.Ok? && ListsFiles(n, files, back.value.files)
            && ListsFolders(n, back.value.files, back.value.folders)
  {
    hide SortedFiles, SortedFolders, AllFolders, IsEntry, Parse, ListsFolders, LexLess;
    hide CheckAll, Text, Marked, CaseClash;
    var fs := SortedFiles(n, CheckAll(n, files).value);
    FilesListed(n, files);
    SortedFoldersDescend(n, fs);
    AllEntries(n, files, fs, SortedFolders(n, fs));
    ParsesBody(n, fs, SortedFolders(n, fs));
  }

  lemma AllEntries(n: Names, files: seq<string>, fs: seq<string>, ds: seq<string>)
    requires forall q :: q in fs <==> exists p | p in files :: CheckEntry(n, p) == Ok(q)
    requires ListsFolders(n, fs, ds)
    ensures forall q | q in fs + ds :: IsEntry(n, q)
  {
    hide CheckEntry, IsEntry, Folders, FolderBefore;
    forall q | q in fs ensures IsEntry(n, q) {
      var p :| p in files && CheckEntry(n, p) == Ok(q);
      EntryOf(n, p);
    }
    forall d | d in ds ensures IsEntry(n, d) {
      var f :| f in fs && d in Folders(f);
      FolderIsEntry(n, f, d);
    }
  }

  lemma MarkedLines(n: Names, fs: seq<string>, ds: seq<string>, line: string)
    requires line in Marked('F', fs) + Marked('D', ds) && forall q | q in fs + ds :: IsEntry(n, q)
    ensures '\r' !in line
  {
    hide IsEntry;
    if line in Marked('F', fs) {
      var i :| 0 <= i < |fs| && Marked('F', fs)[i] == line;
      assert fs[i] in fs + ds;
      MarkedLine(n, 'F', fs[i]);
    } else {
      var i :| 0 <= i < |ds| && Marked('D', ds)[i] == line;
      assert ds[i] in fs + ds;
      MarkedLine(n, 'D', ds[i]);
    }
  }

  /** Two of the payload's canonical paths differ only in case. */
  ghost predicate TwoAlike(n: Names, files: seq<string>) {
    exists p, q | p in files && q in files ::
      var f, g := CheckEntry(n, p), CheckEntry(n, q);
      f.Ok? && g.Ok? && f.value != g.value && n.fold(f.value) == n.fold(g.value)
  }

  /** One of them is, ignoring case, a folder above another. */
  ghost predicate FileIsFolder(n: Names, files: seq<string>) {
    exists p, q, d | p in files && q in files ::
      var f, g := CheckEntry(n, p), CheckEntry(n, q);
      f.Ok? && g.Ok? && d in Folders(g.value) && n.fold(f.value) == n.fold(d)
  }

  /** `render` refuses exactly the payloads with an entry it cannot check, two entries that differ only
      in case, or one that is also a folder of another. */
  lemma RenderRefusesExactly(n: Names, files: seq<string>)
    ensures Render(n, files).Err? <==>
              (exists p | p in files :: CheckEntry(n, p).Err?) || TwoAlike(n, files) || FileIsFolder(n, files)
  {
    hide CheckEntry, SortedFiles, SortedFolders, AllFolders, TwoAlike, FileIsFolder, CaseClash, KindClash;
    CheckAllGives(n, files);
    if CheckAll(n, files).Ok? {
      var fs := SortedFiles(n, CheckAll(n, files).value);
      SortedFilesAscend(n, CheckAll(n, files).value);
      CaseClashMeans(n, files, fs);
      KindClashMeans(n, files, fs);
    }
  }

  lemma CaseClashMeans(n: Names, files: seq<string>, fs: seq<string>)
    requires forall q :: q in fs <==> exists p | p in files :: CheckEntry(n, p) == Ok(q)
    requires forall i, j | 0 <= i < j < |fs| :: FileBefore(n, fs[i], fs[j])
    ensures CaseClash(n, fs) <==> TwoAlike(n, files)
  {
    hide CheckEntry, LexLess;
    if CaseClash(n, fs) {
      var i, j :| 0 <= i < j < |fs| && n.fold(fs[i]) == n.fold(fs[j]);
      FileBeforeConnected(n, fs[i], fs[i]);
      assert fs[i] in fs && fs[j] in fs;
      var p :| p in files && CheckEntry(n, p) == Ok(fs[i]);
      var q :| q in files && CheckEntry(n, q) == Ok(fs[j]);
    }
  }

  lemma KindClashMeans(n: Names, files: seq<string>, fs: seq<string>)
    requires forall q :: q in fs <==> exists p | p in files :: CheckEntry(n, p) == Ok(q)
    ensures KindClash(n, fs, AllFolders(fs)) <==> FileIsFolder(n, files)
  {
    hide CheckEntry, AllFolders, Folders;
    if KindClash(n, fs, AllFolders(fs)) {
      var f, d :| f in fs && d in AllFolders(fs) && n.fold(f) == n.fold(d);
      var g :| g in fs && d in Folders(g);
      var p :| p in files && CheckEntry(n, p) == Ok(f);
      var q :| q in files && CheckEntry(n, q) == Ok(g);
    }
  }

  // ----------------------------------------------------------------- removal

  /** An install folder: its files and folders as paths of names, names that the file system takes for
      the same having the same key. */
  datatype Tree = Tree(files: set<seq<string>>, dirs: set<seq<string>>)

  function Key(alike: string -> string, path: string): seq<string> {
    var parts := SplitOn(path, '\\');
    seq(|parts|, i requires 0 <= i < |parts| => alike(parts[i]))
  }

  function Keys(alike: string -> string, paths: seq<string>): set<seq<string>> {
    set p | p in paths :: Key(alike, p)
  }

  predicate Below(k: seq<string>, d: seq<string>) {
    |d| < |k| && k[..|d|] == d
  }

  predicate Empty(tree: Tree, d: seq<string>) {
    forall k | k in tree.files + tree.dirs :: !Below(k, d)
  }

  /** Something that is not listed lies below. */
  predicate Shelters(tree: Tree, files: set<seq<string>>, dirs: set<seq<string>>, d: seq<string>) {
    !Empty(Tree(tree.files - files, tree.dirs - dirs), d)
  }

  ghost predicate DeepestFirst(ds: seq<string>) {
    forall i, j | 0 <= i < j < |ds| :: |SplitOn(ds[i], '\\')| >= |SplitOn(ds[j], '\\')|
  }

  /** Every entry lies in folders of the tree. */
  ghost predicate Closed(tree: Tree) {
    forall k, i | k in tree.files + tree.dirs && 0 < i < |k| :: k[..i] in tree.dirs
  }

  /** Deletes the listed files, then removes each listed folder if it is empty by then. What stays are
      the unlisted files, the unlisted folders and every folder above one of them. */
  method RemoveOwned(tree: Tree, fs: seq<string>, ds: seq<string>, alike: string -> string) returns (left: Tree)
    requires DeepestFirst(ds)
    ensures left.files == tree.files - Keys(alike, fs)
    ensures forall d :: d in left.dirs <==>
              d in tree.dirs && (d in Keys(alike, ds) ==> Shelters(tree, Keys(alike, fs), Keys(alike, ds), d))
  {
    left := tree;
    var i := 0;
    while i < |fs|
      invariant i <= |fs| && left.dirs == tree.dirs
      invariant forall k :: k in left.files <==> k in tree.files && forall j | 0 <= j < i :: Key(alike, fs[j]) != k
    {
      left := left.(files := left.files - {Key(alike, fs[i])});
      i := i + 1;
    }
    ghost var files, dirs := Keys(alike, fs), Keys(alike, ds);
    assert left.files == tree.files - files;
    assert UpTo(tree, tree.dirs, files, ds, alike, 0);
    hide UpTo, Shelters, Empty;
    i := 0;
    while i < |ds|
      invariant i <= |ds| && left.files == tree.files - files && UpTo(tree, left.dirs, files, ds, alike, i)
    {
      var d := Key(alike, ds[i]);
      FolderTurn(tree, left, files, ds, alike, i);
      if Empty(left, d) {
        left := left.(dirs := left.dirs - {d});
      }
      i := i + 1;
    }
    AllTurns(tree, left.dirs, files, ds, alike);
  }

  /** Of the folders listed so far, those are left that shelter something unlisted. */
  ghost predicate UpTo(tree: Tree, left: set<seq<string>>, files: set<seq<string>>, ds: seq<string>,
                       alike: string -> string, i: nat)
    requires i <= |ds|
  {
    forall d :: d in left <==>
      d in tree.dirs && ((exists j | 0 <= j < i :: Key(alike, ds[j]) == d)
                         ==> Shelters(tree, files, Keys(alike, ds), d))
  }

  lemma FolderTurn(tree: Tree, left: Tree, files: set<seq<string>>, ds: seq<string>, alike: string -> string, i: nat)
    requires i < |ds| && DeepestFirst(ds) && left.files == tree.files - files
    requires UpTo(tree, left.dirs, files, ds, alike, i)
    ensures var d := Key(alike, ds[i]);
            UpTo(tree, if Empty(left, d) then left.dirs - {d} else left.dirs, files, ds, alike, i + 1)
  {
    EmptyMeans(tree, left, files, ds, alike, i);
    hide Shelters, Empty, DeepestFirst, Key;
  }

  lemma AllTurns(tree: Tree, left: set<seq<string>>, files: set<seq<string>>, ds: seq<string>, alike: string -> string)
    requires UpTo(tree, left, files, ds, alike, |ds|)
    ensures forall d :: d in left <==>
              d in tree.dirs && (d in Keys(alike, ds) ==> Shelters(tree, files, Keys(alike, ds), d))
  {
    hide Shelters, Key;
  }

  /** When a listed folder's turn comes, it is empty unless it shelters something unlisted: what is listed
      below it is deeper, so it has been removed or shelters something itself. */
  lemma EmptyMeans(tree: Tree, left: Tree, files: set<seq<string>>, ds: seq<string>, alike: string -> string, i: nat)
    requires i < |ds| && DeepestFirst(ds) && left.files == tree.files - files
    requires UpTo(tree, left.dirs, files, ds, alike, i)
    ensures Empty(left, Key(alike, ds[i])) <==> !Shelters(tree, files, Keys(alike, ds), Key(alike, ds[i]))
  {
    var d, dirs := Key(alike, ds[i]), Keys(alike, ds);
    var unlisted := Tree(tree.files - files, tree.dirs - dirs);
    if !Empty(left, d) {
      var k :| k in left.files + left.dirs && Below(k, d);
      if k in left.dirs && k in dirs {
        var j :| 0 <= j < |ds| && Key(alike, ds[j]) == k;
        assert j < i;
        assert Shelters(tree, files, dirs, k);
        var l :| l in unlisted.files + unlisted.dirs && Below(l, k);
        assert l[..|d|] == l[..|k|][..|d|];
        assert Below(l, d) && l in unlisted.files + unlisted.dirs;
      } else {
        assert k in unlisted.files + unlisted.dirs;
      }
    }
    if !Empty(unlisted, d) {
      var k :| k in unlisted.files + unlisted.dirs && Below(k, d);
      assert k in left.files + left.dirs;
    }
  }

  lemma {:induction false} CountParts(s: string, c: char)
    ensures |SplitOn(s, c)| == Count(s, c) + 1
  {
    if s != "" {
      CountParts(s[1..], c);
    }
  }

  /** A rendered manifest lists its folders in an order the removal can follow. */
  lemma ManifestDrivesRemoval(n: Names, files: seq<string>)
    requires Render(n, files).Ok?
    ensures var back := Parse(n, Render(n, files).value); back.Ok? && DeepestFirst(back.value.folders)
  {
    RoundTrip(n, files);
    hide Render, Parse, FileBefore, SplitOn, ListsFiles, Count;
    var ds := Parse(n, Render(n, files).value).value.folders;
    forall i, j | 0 <= i < j < |ds| ensures |SplitOn(ds[i], '\\')| >= |SplitOn(ds[j], '\\')| {
      assert FolderBefore(n, ds[i], ds[j]);
      CountParts(ds[i], '\\');
      CountParts(ds[j], '\\');
    }
  }

  /** What stays after a removal is a tree again, and if every folder was listed it is exactly the
      unlisted files and the folders above them. */
  lemma OnlyTheUnlistedStay(tree: Tree, left: Tree, files: set<seq<string>>, dirs: set<seq<string>>)
    requires Closed(tree) && left.files == tree.files - files
    requires forall d :: d in left.dirs <==> d in tree.dirs && (d in dirs ==> Shelters(tree, files, dirs, d))
    ensures Closed(left)
    ensures tree.dirs <= dirs ==>
              forall d :: d in left.dirs <==> d in tree.dirs && exists f | f in left.files :: Below(f, d)
  {
    var unlisted := Tree(tree.files - files, tree.dirs - dirs);
    forall k, i | k in left.files + left.dirs && 0 < i < |k| ensures k[..i] in left.dirs {
      var d := k[..i];
      assert k in tree.files + tree.dirs;
      if d in dirs {
        if k in left.dirs && k in dirs {
          var l :| l in unlisted.files + unlisted.dirs && Below(l, k);
          assert l[..i] == l[..|k|][..i];
          assert Below(l, d);
        } else {
          assert Below(k, d) && k in unlisted.files + unlisted.dirs;
        }
      }
    }
    if tree.dirs <= dirs {
      forall d ensures d in left.dirs <==> d in tree.dirs && exists f | f in left.files :: Below(f, d) {
        if d in left.dirs {
          var l :| l in unlisted.files + unlisted.dirs && Below(l, d);
          assert l in left.files;
        } else if d in tree.dirs {
          assert forall f | f in left.files :: f in unlisted.files + unlisted.dirs;
        }
      }
    }
  }
}
