/** Spoken Persian numbers: the printer and the parser undo each other. */
module PersianNumbers {

  import opened Options
  import opened PythonText

  const AND := "و"
  const NEGATIVE := "منفی "
  const ZERO := "صفر"
  const THOUSAND := "هزار"
  const MILLION := "میلیون"

  const BILLION: int := 1_000_000_000

  // ----------------------------------------------------------------- vocabulary

  function Units(t: string): Option<nat> {
    if t == "صفر" then Some(0)
    else if t == "یک" || t == "يه" || t == "یه" then Some(1)
    else if t == "دو" then Some(2)
    else if t == "سه" then Some(3)
    else if t == "چهار" then Some(4)
    else if t == "پنج" then Some(5)
    else if t == "شش" then Some(6)
    else if t == "هفت" then Some(7)
    else if t == "هشت" then Some(8)
    else if t == "نه" then Some(9)
    else None
  }

  function Teens(t: string): Option<nat> {
    if t == "ده" then Some(10)
    else if t == "یازده" then Some(11)
    else if t == "دوازده" then Some(12)
    else if t == "سیزده" then Some(13)
    else if t == "چهارده" then Some(14)
    else if t == "پانزده" then Some(15)
    else if t == "شانزده" then Some(16)
    else if t == "هفده" then Some(17)
    else if t == "هجده" then Some(18)
    else if t == "نوزده" then Some(19)
    else None
  }

  function Tens(t: string): Option<nat> {
    if t == "بیست" then Some(20)
    else if t == "سی" then Some(30)
    else if t == "چهل" then Some(40)
    else if t == "پنجاه" then Some(50)
    else if t == "شصت" then Some(60)
    else if t == "هفتاد" then Some(70)
    else if t == "هشتاد" then Some(80)
    else if t == "نود" then Some(90)
    else None
  }

  function Hundreds(t: string): Option<nat> {
    if t == "صد" || t == "یکصد" then Some(100)
    else if t == "دویست" then Some(200)
    else if t == "سیصد" then Some(300)
    else if t == "چهارصد" then Some(400)
    else if t == "پانصد" then Some(500)
    else if t == "ششصد" then Some(600)
    else if t == "هفتصد" then Some(700)
    else if t == "هشتصد" then Some(800)
    else if t == "نهصد" then Some(900)
    else None
  }

  function Scales(t: string): (r: Option<nat>)
    ensures r.Some? ==> r.value == 1_000 || r.value == 1_000_000
  {
    if t == THOUSAND then Some(1_000)
    else if t == MILLION then Some(1_000_000)
    else None
  }

  /** The word the printer uses: of several spellings, the written one. */
  function UnitWord(n: nat): string
    requires 1 <= n <= 9
  {
    ["یک", "دو", "سه", "چهار", "پنج", "شش", "هفت", "هشت", "نه"][n - 1]
  }

  function TeenWord(n: nat): string
    requires 10 <= n <= 19
  {
    ["ده", "یازده", "دوازده", "سیزده", "چهارده", "پانزده", "شانزده", "هفده", "هجده", "نوزده"][n - 10]
  }

  function TenWord(n: nat): string
    requires 2 <= n <= 9
  {
    ["بیست", "سی", "چهل", "پنجاه", "شصت", "هفتاد", "هشتاد", "نود"][n - 2]
  }

  function HundredWord(n: nat): string
    requires 1 <= n <= 9
  {
    ["صد", "دویست", "سیصد", "چهارصد", "پانصد", "ششصد", "هفتصد", "هشتصد", "نهصد"][n - 1]
  }

  // ----------------------------------------------------------------------- text

  function Strip(s: string): string {
    if s == "" then s
    else if IsSpace(s[0]) then Strip(s[1..])
    else if IsSpace(s[|s| - 1]) then Strip(s[..|s| - 1])
    else s
  }

  /** The length of the leading run of non-space characters. */
  function WordEnd(s: string): (k: nat)
    ensures k <= |s| && (forall i | 0 <= i < k :: !IsSpace(s[i])) && (k < |s| ==> IsSpace(s[k]))
  {
    if s == "" || IsSpace(s[0]) then 0 else WordEnd(s[1..]) + 1
  }

  function Split(s: string): seq<string>
    decreases |s|
  {
    if s == "" then []
    else if IsSpace(s[0]) then Split(s[1..])
    else [s[..WordEnd(s)]] + Split(s[WordEnd(s)..])
  }

  /** Words joined by the spoken "and". */
  function Joined(parts: seq<string>): string {
    if parts == [] then ""
    else if |parts| == 1 then parts[0]
    else parts[0] + " و " + Joined(parts[1..])
  }

  // ------------------------------------------------------------------ the parser

  datatype Sums = Sums(total: nat, current: nat)

  /** One word changes the two running sums, or ends the parse. */
  function Word(t: string, s: Sums): Option<Sums> {
    if Units(t).Some? then Some(s.(current := s.current + Units(t).value))
    else if Teens(t).Some? then Some(s.(current := s.current + Teens(t).value))
    else if Tens(t).Some? then Some(s.(current := s.current + Tens(t).value))
    else if Hundreds(t).Some? then Some(s.(current := s.current + Hundreds(t).value))
    else if Scales(t).Some? then
      var current := if s.current == 0 then 1 else s.current;
      if Scales(t).value == 1_000 then Some(Sums(s.total + current * 1_000, 0))
      else Some(Sums((s.total + current) * 1_000_000, 0))
    else None
  }

  function Words(tokens: seq<string>, s: Sums): Option<Sums> {
    if tokens == [] then Some(s)
    else if Word(tokens[0], s).None? then None
    else Words(tokens[1..], Word(tokens[0], s).value)
  }

  function WithoutAnd(tokens: seq<string>): seq<string> {
    if tokens == [] then []
    else (if tokens[0] == AND then [] else [tokens[0]]) + WithoutAnd(tokens[1..])
  }

  predicate Signed(s: string) {
    s != "" && (s[0] == '+' || s[0] == '-')
  }

  predicate IsNumeral(s: string) {
    var digits := if Signed(s) then s[1..] else s;
    digits != "" && Numeric(digits)
  }

  function Parse(text: string): Option<int> {
    var value := Strip(text);
    if value == "" then None
    else if IsNumeral(value) then
      var n: int := NumeralValue(if Signed(value) then value[1..] else value);
      Some(if value[0] == '-' then -n else n)
    else
      var negative := NEGATIVE <= value;
      var tokens := WithoutAnd(Split(if negative then Strip(value[|NEGATIVE|..]) else value));
      if tokens == [] || Words(tokens, Sums(0, 0)).None? then None
      else
        var s := Words(tokens, Sums(0, 0)).value;
        var sum: int := s.total + s.current;
        Some(if negative then -sum else sum)
  }

  /** The parser's loop over the words. */
  method SumWords(tokens: seq<string>) returns (result: Option<nat>)
    ensures result.Some? <==> Words(tokens, Sums(0, 0)).Some?
    ensures result.Some? ==> var s := Words(tokens, Sums(0, 0)).value; result.value == s.total + s.current
  {
    hide Units, Teens, Tens, Hundreds, Scales;
    var total: nat, current: nat := 0, 0;
    var i := 0;
    while i < |tokens|
      invariant i <= |tokens| && Words(tokens, Sums(0, 0)) == Words(tokens[i..], Sums(total, current))
    {
      var token := tokens[i];
      assert tokens[i..][1..] == tokens[i + 1..];
      if Units(token).Some? {
        current := current + Units(token).value;
      } else if Teens(token).Some? {
        current := current + Teens(token).value;
      } else if Tens(token).Some? {
        current := current + Tens(token).value;
      } else if Hundreds(token).Some? {
        current := current + Hundreds(token).value;
      } else if Scales(token).Some? {
        var scale := Scales(token).value;
        if current == 0 {
          current := 1;
        }
        if scale == 1_000 {
          total := total + current * scale;
        } else if scale == 1_000_000 {
          total := (total + current) * scale;
        }
        current := 0;
      } else {
        return None;
      }
      i := i + 1;
    }
    result := Some(total + current);
  }

  method ParseInteger(text: string) returns (result: Option<int>)
    ensures result == Parse(text)
  {
    hide Words, Split, WithoutAnd, IsSpace, Numeric, NumeralValue, Strip;
    var value := Strip(text);
    if value == "" {
      return None;
    }
    if IsNumeral(value) {
      var n: int := NumeralValue(if Signed(value) then value[1..] else value);
      return Some(if value[0] == '-' then -n else n);
    }
    var negative := false;
    if NEGATIVE <= value {
      negative := true;
      value := Strip(value[|NEGATIVE|..]);
    }
    var tokens := WithoutAnd(Split(value));
    if tokens == [] {
      return None;
    }
    var sum := SumWords(tokens);
    if sum.None? {
      return None;
    }
    var n: int := sum.value;
    result := Some(if negative then -n else n);
  }

  // ----------------------------------------------------------------- the printer

  function UnderHundredParts(n: nat): seq<string>
    requires n < 100
  {
    if 10 <= n <= 19 then [TeenWord(n)]
    else (if n >= 20 then [TenWord(n / 10)] else []) + (if n % 10 > 0 then [UnitWord(n % 10)] else [])
  }

  function UnderThousandParts(n: nat): seq<string>
    requires n < 1000
  {
    (if n >= 100 then [HundredWord(n / 100)] else []) + UnderHundredParts(n % 100)
  }

  function UnderThousand(n: nat): string
    requires n < 1000
  {
    if n == 0 then ZERO else Joined(UnderThousandParts(n))
  }

  function IntegerToPersian(n: int): string
    decreases if n < 0 then 1 else 0, if n < 0 then -n else n, 1
  {
    if n == 0 then ZERO
    else if n < 0 then NEGATIVE + IntegerToPersian(-n)
    else if n >= BILLION then Numeral(n)
    else Joined(Parts(n))
  }

  function Parts(n: nat): seq<string>
    requires 0 < n < BILLION
    decreases 0, n, 0
  {
    var millions, rest := n / 1_000_000, n % 1_000_000;
    var thousands, units := rest / 1_000, rest % 1_000;
    (if millions > 0 then [IntegerToPersian(millions) + " " + MILLION] else [])
    + ((if thousands > 0 then [IntegerToPersian(thousands) + " " + THOUSAND] else [])
       + (if units > 0 then [UnderThousand(units)] else []))
  }

  // ------------------------------------------------------------ words in a text

  lemma {:induction false} SplitAround(a: string, c: char, b: string)
    requires IsSpace(c)
    ensures Split(a + [c] + b) == Split(a) + Split(b)
    decreases |a|
  {
    hide IsSpace, WordEnd;
    var s := a + [c] + b;
    if a == "" {
      assert s[1..] == b;
    } else if IsSpace(a[0]) {
      assert s[1..] == a[1..] + [c] + b;
      SplitAround(a[1..], c, b);
    } else {
      var k := WordEnd(a);
      WordEndIs(s, k);
      assert s[..k] == a[..k] && s[k..] == a[k..] + [c] + b;
      SplitAround(a[k..], c, b);
    }
  }

  lemma {:induction false} WordEndIs(s: string, k: nat)
    requires k <= |s| && (forall i | 0 <= i < k :: !IsSpace(s[i])) && (k < |s| ==> IsSpace(s[k]))
    ensures WordEnd(s) == k
  {
    var e := WordEnd(s);
    hide IsSpace;
    assert forall i | 0 <= i < |s| && i == e :: IsSpace(s[i]);
    assert forall i | 0 <= i < |s| && i == k :: IsSpace(s[i]);
  }

  predicate Atom(w: string) {
    w != "" && forall c | c in w :: !IsSpace(c)
  }

  lemma SplitAtom(w: string)
    requires Atom(w)
    ensures Split(w) == [w]
  {
    WordEndIs(w, |w|);
    assert w[..|w|] == w && w[|w|..] == "";
  }

  lemma {:induction false} WithoutAndAppend(a: seq<string>, b: seq<string>)
    ensures WithoutAnd(a + b) == WithoutAnd(a) + WithoutAnd(b)
  {
    if a == [] {
      assert a + b == b;
    } else {
      assert (a + b)[1..] == a[1..] + b;
      WithoutAndAppend(a[1..], b);
    }
  }

  lemma {:induction false} WordsAppend(a: seq<string>, b: seq<string>, s: Sums)
    ensures Words(a + b, s) == if Words(a, s).None? then None else Words(b, Words(a, s).value)
  {
    hide Word;
    if a == [] {
      assert a + b == b;
    } else {
      assert (a + b)[1..] == a[1..] + b;
      if Word(a[0], s).Some? {
        WordsAppend(a[1..], b, Word(a[0], s).value);
      }
    }
  }

  /** What the words of a text do to the running sums. */
  function Sense(text: string, s: Sums): Option<Sums> {
    Words(WithoutAnd(Split(text)), s)
  }

  lemma SenseAround(a: string, b: string, s: Sums)
    ensures Sense(a + " " + b, s) == if Sense(a, s).None? then None else Sense(b, Sense(a, s).value)
  {
    hide Words, WithoutAnd, Split;
    SplitAround(a, ' ', b);
    WithoutAndAppend(Split(a), Split(b));
    WordsAppend(WithoutAnd(Split(a)), WithoutAnd(Split(b)), s);
  }

  /** Starts and ends with a letter, and cannot be taken for a numeral or a negative. */
  predicate Firm(s: string) {
    && s != "" && !IsSpace(s[0]) && !IsSpace(s[|s| - 1])
    && DigitValue(s[0]).None? && s[0] != '+' && s[0] != '-' && s[0] != 'م'
  }

  predicate Says(text: string, s: Sums, t: Sums) {
    Firm(text) && Sense(text, s) == Some(t)
  }

  lemma OneWord(w: string, s: Sums)
    requires Atom(w) && w != AND
    ensures Sense(w, s) == Word(w, s)
  {
    hide Word, Atom;
    SplitAtom(w);
    assert [w][1..] == [];
    assert WithoutAnd([w]) == [w] + WithoutAnd([]) == [w];
    if Word(w, s).Some? {
      assert Words([w], s) == Words([], Word(w, s).value);
    }
  }

  lemma SaysWord(w: string, s: Sums, t: Sums)
    requires Firm(w) && Atom(w) && w != AND && Word(w, s) == Some(t)
    ensures Says(w, s, t)
  {
    hide Word, Firm, Sense;
    OneWord(w, s);
  }

  lemma SaysThen(a: string, b: string, s: Sums, t: Sums, u: Sums)
    requires Says(a, s, t) && Says(b, t, u)
    ensures Says(a + " و " + b, s, u)
  {
    hide Sense, Word;
    assert a + " و " + b == a + " " + (AND + " " + b);
    SenseAround(a, AND + " " + b, s);
    SenseAround(AND, b, t);
    AndIsSilent(t);
    assert (a + " و " + b)[0] == a[0] && (a + " و " + b)[|a + " و " + b| - 1] == b[|b| - 1];
  }

  lemma AndIsSilent(s: Sums)
    ensures Sense(AND, s) == Some(s)
  {
    SplitAtom(AND);
    assert WithoutAnd([AND]) == [];
  }

  /** A scale word after a text multiplies what the text said. */
  lemma SaysScaled(a: string, w: string, s: Sums, t: Sums, u: Sums)
    requires Says(a, s, t) && Atom(w) && w != AND && Word(w, t) == Some(u)
    ensures Says(a + " " + w, s, u)
  {
    hide Word, Sense;
    SenseAround(a, w, s);
    OneWord(w, t);
    assert (a + " " + w)[0] == a[0] && (a + " " + w)[|a + " " + w| - 1] == w[|w| - 1];
  }

  /** Joins a list whose first part and whose rest are already understood. */
  lemma SaysJoined(first: seq<string>, rest: seq<string>, s: Sums, t: Sums, u: Sums)
    requires |first| <= 1 && first + rest != []
    requires if first == [] then s == t else Says(first[0], s, t)
    requires if rest == [] then t == u else Says(Joined(rest), t, u)
    ensures Says(Joined(first + rest), s, u)
  {
    hide Says;
    if first == [] {
      assert first + rest == rest;
    } else if rest == [] {
      assert first + rest == first;
    } else {
      assert first + rest == [first[0]] + rest && (first + rest)[1..] == rest;
      SaysThen(first[0], Joined(rest), s, t, u);
    }
  }

  // ------------------------------------------------------------------ round trip

  lemma SaysUnit(n: nat, s: Sums)
    requires 1 <= n <= 9
    ensures Says(UnitWord(n), s, s.(current := s.current + n))
  {
    SaysWord(UnitWord(n), s, s.(current := s.current + n)) by {
      hide Teens, Tens, Hundreds, Scales;
    }
  }

  lemma SaysTeen(n: nat, s: Sums)
    requires 10 <= n <= 19
    ensures Says(TeenWord(n), s, s.(current := s.current + n))
  {
    hide Tens, Hundreds, Scales;
    SaysWord(TeenWord(n), s, s.(current := s.current + n));
  }

  lemma SaysTen(n: nat, s: Sums)
    requires 2 <= n <= 9
    ensures Says(TenWord(n), s, s.(current := s.current + n * 10))
  {
    hide Hundreds, Scales;
    SaysWord(TenWord(n), s, s.(current := s.current + n * 10));
  }

  lemma SaysHundred(n: nat, s: Sums)
    requires 1 <= n <= 9
    ensures Says(HundredWord(n), s, s.(current := s.current + n * 100))
  {
    hide Scales;
    SaysWord(HundredWord(n), s, s.(current := s.current + n * 100));
  }

  lemma SaysUnderHundred(n: nat, s: Sums)
    requires 1 <= n <= 99
    ensures Says(Joined(UnderHundredParts(n)), s, s.(current := s.current + n))
  {
    hide Says, TeenWord, TenWord, UnitWord, Joined;
    var t := s.(current := s.current + n);
    if 10 <= n <= 19 {
      SaysTeen(n, s);
      SaysJoined([TeenWord(n)], [], s, t, t);
      assert [TeenWord(n)] + [] == [TeenWord(n)];
    } else {
      var tens := s.(current := s.current + n / 10 * 10);
      var first := if n >= 20 then [TenWord(n / 10)] else [];
      var rest := if n % 10 > 0 then [UnitWord(n % 10)] else [];
      if n >= 20 {
        SaysTen(n / 10, s);
      }
      if n % 10 > 0 {
        SaysUnit(n % 10, tens);
        SaysJoined(rest, [], tens, t, t);
        assert rest + [] == rest;
      }
      SaysJoined(first, rest, s, tens, t);
    }
  }

  lemma SaysUnderThousand(n: nat, s: Sums)
    requires 1 <= n <= 999
    ensures Says(UnderThousand(n), s, s.(current := s.current + n))
  {
    hide Says, HundredWord, UnderHundredParts, Joined;
    var t := s.(current := s.current + n);
    var hundreds := s.(current := s.current + n / 100 * 100);
    var first := if n >= 100 then [HundredWord(n / 100)] else [];
    var rest := UnderHundredParts(n % 100);
    if n >= 100 {
      SaysHundred(n / 100, s);
    }
    if n % 100 > 0 {
      SaysUnderHundred(n % 100, hundreds);
    }
    UnderHundredEmpty(n % 100);
    SaysJoined(first, rest, s, hundreds, t);
  }

  lemma UnderHundredEmpty(n: nat)
    requires n < 100
    ensures UnderHundredParts(n) == [] <==> n == 0
  {
  }

  /** Below a thousand the printer is `_under_thousand_to_persian`. */
  lemma SmallIsUnderThousand(n: nat)
    requires 1 <= n <= 999
    ensures IntegerToPersian(n) == UnderThousand(n)
  {
    hide UnderThousand, Joined;
    assert Parts(n) == [UnderThousand(n)];
    JoinedOne(UnderThousand(n));
  }

  lemma JoinedOne(part: string)
    ensures Joined([part]) == part
  {
  }

  lemma NotAnAddend(w: string)
    requires w == THOUSAND || w == MILLION
    ensures Units(w).None? && Teens(w).None? && Tens(w).None? && Hundreds(w).None? && Atom(w) && w != AND
  {
  }

  /** What a scale word makes of the sums, after `n` of them. */
  function Scaled(w: string, s: Sums, n: nat): Sums {
    if w == THOUSAND then Sums(s.total + n * 1_000, 0) else Sums((s.total + n) * 1_000_000, 0)
  }

  /** With nothing said before it, a scale word counts as one of itself. */
  lemma ScaleWord(w: string, s: Sums)
    requires w == THOUSAND || w == MILLION
    ensures Word(w, s) == Some(Scaled(w, s, if s.current > 0 then s.current else 1))
  {
    NotAnAddend(w);
    hide Units, Teens, Tens, Hundreds, Scales;
    assert Scales(THOUSAND) == Some(1_000) && Scales(MILLION) == Some(1_000_000);
  }

  lemma SaysScale(n: nat, w: string, s: Sums)
    requires 1 <= n <= 999 && s.current == 0 && (w == THOUSAND || w == MILLION)
    ensures Says(IntegerToPersian(n) + " " + w, s, Scaled(w, s, n))
  {
    hide Says, UnderThousand, IntegerToPersian, Word, Atom;
    SmallIsUnderThousand(n);
    SaysUnderThousand(n, s);
    NotAnAddend(w);
    ScaleWord(w, s.(current := n));
    SaysScaled(UnderThousand(n), w, s, s.(current := n), Scaled(w, s, n));
  }

  lemma PrintsParts(n: nat)
    requires 1 <= n < BILLION
    ensures IntegerToPersian(n) == Joined(Parts(n))
  {
    hide Joined, Parts;
  }

  lemma SaysNumber(n: nat)
    requires 1 <= n < BILLION
    ensures exists s: Sums :: Says(IntegerToPersian(n), Sums(0, 0), s) && s.total + s.current == n
  {
    hide Says, UnderThousand, Joined, IntegerToPersian;
    var millions, rest := n / 1_000_000, n % 1_000_000;
    var thousands, units := rest / 1_000, rest % 1_000;
    var m := if millions > 0 then [IntegerToPersian(millions) + " " + MILLION] else [];
    var k := if thousands > 0 then [IntegerToPersian(thousands) + " " + THOUSAND] else [];
    var u := if units > 0 then [UnderThousand(units)] else [];
    var s0, s1 := Sums(0, 0), Sums(millions * 1_000_000, 0);
    var s2 := Sums(s1.total + thousands * 1_000, 0);
    var s3 := s2.(current := units);
    if millions > 0 {
      SaysScale(millions, MILLION, s0);
    }
    if thousands > 0 {
      SaysScale(thousands, THOUSAND, s1);
    }
    if units > 0 {
      SaysUnderThousand(units, s2);
      SaysJoined(u, [], s2, s3, s3);
      assert u + [] == u;
    }
    if k + u != [] {
      SaysJoined(k, u, s1, s2, s3);
    }
    SaysJoined(m, k + u, s0, s1, s3);
    PrintsParts(n);
  }

  lemma ParseSaid(text: string, s: Sums)
    requires Says(text, Sums(0, 0), s) && WithoutAnd(Split(text)) != []
    ensures Parse(text) == Some(s.total + s.current)
    ensures Parse(NEGATIVE + text) == Some(-(s.total + s.current))
  {
    hide Units, Teens, Tens, Hundreds, Scales, Split, IsSpace;
    assert Strip(text) == text && !IsNumeral(text) && !(NEGATIVE <= text);
    var value := NEGATIVE + text;
    NegativeIsALetter();
    assert Strip(value) == value && value[|NEGATIVE|..] == text;
    assert !Numeric(value) by {
      assert value[0] in value;
    }
  }

  lemma NegativeIsALetter()
    ensures !IsSpace(NEGATIVE[0]) && DigitValue(NEGATIVE[0]).None? && !Signed(NEGATIVE)
  {
  }

  lemma DigitStartsNoWord(t: string, s: Sums)
    requires t != "" && '0' <= t[0] <= '9'
    ensures Word(t, s) == None && t != AND
  {
  }

  lemma ParseNumeral(n: nat)
    ensures Parse(Numeral(n)) == Some(n)
    ensures Parse(NEGATIVE + Numeral(n)) == None
  {
    hide Word, Split;
    NumeralRoundTrip('0', n);
    var text := Numeral(n);
    hide NumeralIn, NumeralValue;
    assert text[0] in text && text[|text| - 1] in text;
    assert Strip(text) == text && IsNumeral(text) && !Signed(text);
    DigitStartsNoWord(text, Sums(0, 0));
    OneWord(text, Sums(0, 0));
    NegativeIsALetter();
    var value := NEGATIVE + text;
    assert Strip(value) == value && value[|NEGATIVE|..] == text;
    assert !Numeric(value) by {
      assert value[0] in value;
    }
  }

  lemma SaysZero()
    ensures Says(ZERO, Sums(0, 0), Sums(0, 0)) && WithoutAnd(Split(ZERO)) == [ZERO]
  {
    ZeroIsAWord();
    hide Word, Firm, Atom, Sense;
    SaysWord(ZERO, Sums(0, 0), Sums(0, 0));
    SplitAtom(ZERO);
    WithoutAndWord(ZERO);
  }

  lemma ZeroIsAWord()
    ensures Firm(ZERO) && Atom(ZERO) && ZERO != AND && Word(ZERO, Sums(0, 0)) == Some(Sums(0, 0))
  {
    hide Teens, Tens, Hundreds, Scales;
  }

  lemma WithoutAndWord(w: string)
    requires w != AND
    ensures WithoutAnd([w]) == [w]
  {
    assert [w][1..] == [];
  }

  lemma SomethingSaid(text: string, s: Sums)
    requires Says(text, Sums(0, 0), s) && s.total + s.current > 0
    ensures WithoutAnd(Split(text)) != []
  {
    hide Split, Firm, Word;
  }

  /** The parser undoes the printer on every integer above -10^9, whether it is written in words or in
      digits, and refuses what the printer makes of every other one. */
  lemma RoundTrip(n: int)
    ensures Parse(IntegerToPersian(n)) == if n > -BILLION then Some(n) else None
  {
    hide Parse, Says, Numeral, Split, WithoutAnd, Joined, Parts;
    var m: nat := if n < 0 then -n else n;
    if m == 0 {
      SaysZero();
      ParseSaid(ZERO, Sums(0, 0));
    } else if m < BILLION {
      SaysNumber(m);
      var s: Sums :| Says(IntegerToPersian(m), Sums(0, 0), s) && s.total + s.current == m;
      SomethingSaid(IntegerToPersian(m), s);
      ParseSaid(IntegerToPersian(m), s);
    } else {
      ParseNumeral(m);
    }
  }

  /** So no two numbers above -10^9 are spoken alike. */
  lemma SpokenApart(m: int, n: int)
    requires m > -BILLION && n > -BILLION && m != n
    ensures IntegerToPersian(m) != IntegerToPersian(n)
  {
    RoundTrip(m);
    RoundTrip(n);
  }

  // ------------------------------------------------- what the printer never writes

  /** Text that is parsed word by word, and not as a negative. */
  predicate Worded(text: string) {
    && text != "" && !IsSpace(text[0]) && !IsSpace(text[|text| - 1])
    && DigitValue(text[0]).None? && !Signed(text) && !(NEGATIVE <= text)
  }

  lemma ParseWorded(text: string)
    requires Worded(text) && WithoutAnd(Split(text)) != []
    ensures var t := Sense(text, Sums(0, 0));
            Parse(text) == if t.None? then None else Some(t.value.total + t.value.current)
  {
    hide Words, Split, IsSpace, WithoutAnd, NumeralValue;
    assert text[0] in text;
  }

  lemma ParseWord(w: string)
    requires Worded(w) && Atom(w) && w != AND
    ensures var t := Word(w, Sums(0, 0));
            Parse(w) == if t.None? then None else Some(t.value.total + t.value.current)
  {
    hide Word, Words, Split, IsSpace, WithoutAnd, Worded, Parse;
    SplitAtom(w);
    WithoutAndWord(w);
    OneWord(w, Sums(0, 0));
    ParseWorded(w);
  }

  lemma ScalesAreWords()
    ensures Worded(THOUSAND) && Atom(THOUSAND) && THOUSAND != AND && Firm(THOUSAND)
    ensures Worded(MILLION) && Atom(MILLION) && MILLION != AND
  {
    assert NEGATIVE[1] != MILLION[1];
  }

  /** A bare scale word is one thousand or one million. */
  lemma BareScales()
    ensures Parse(THOUSAND) == Some(1_000) && Parse(MILLION) == Some(1_000_000)
  {
    hide Word, Worded, Atom, Firm, Parse;
    ScalesAreWords();
    ScaleWord(THOUSAND, Sums(0, 0));
    ScaleWord(MILLION, Sums(0, 0));
    ParseWord(THOUSAND);
    ParseWord(MILLION);
  }

  /** A million multiplies what was said before it exactly if it directly follows an addend or nothing was
      said at all; right after a thousand it counts one too many. */
  lemma MillionMultipliesExactly(s: Sums)
    ensures var before := s.total + s.current;
            Word(MILLION, s).Some? && (Word(MILLION, s).value == Sums((if before > 0 then before else 1) * 1_000_000, 0)
                                       <==> s.current > 0 || s.total == 0)
  {
    ScaleWord(MILLION, s);
    hide Word;
  }

  /** So "thousand million" is a thousand and one million, and likewise any number of thousands. */
  lemma ThousandMillion(n: nat)
    requires 1 <= n <= 999
    ensures Parse(IntegerToPersian(n) + " " + THOUSAND + " " + MILLION) == Some((n * 1_000 + 1) * 1_000_000)
  {
    hide Says, Word, IntegerToPersian, Atom, Worded, Split, Sense;
    var s0, s1 := Sums(0, 0), Sums(n * 1_000, 0);
    var s2 := Sums((n * 1_000 + 1) * 1_000_000, 0);
    ScalesAreWords();
    SaysScale(n, THOUSAND, s0);
    ScaleWord(MILLION, s1);
    SaysScaled(IntegerToPersian(n) + " " + THOUSAND, MILLION, s0, s1, s2);
    var text := IntegerToPersian(n) + " " + THOUSAND + " " + MILLION;
    SomethingSaid(text, s2);
    ParseSaid(text, s2);
  }

  /** White space around a number does not matter. */
  lemma {:induction false} StripsAround(text: string, c: char)
    requires IsSpace(c)
    ensures Strip([c] + text) == Strip(text) == Strip(text + [c])
    decreases |text|
  {
    assert ([c] + text)[1..] == text;
    if text == "" {
      assert text + [c] == [c] + text;
    } else if IsSpace(text[0]) {
      assert (text + [c])[1..] == text[1..] + [c];
      StripsAround(text[1..], c);
    } else {
      assert (text + [c])[..|text|] == text;
    }
  }

  lemma SpaceDoesNotMatter(text: string, c: char)
    requires IsSpace(c)
    ensures Parse([c] + text) == Parse(text) == Parse(text + [c])
  {
    hide IsSpace, Strip, Words, Split, WithoutAnd, NumeralValue, Numeric;
    StripsAround(text, c);
  }

  /** Other spellings of the same words. */
  lemma OtherSpellings()
    ensures Parse("يه") == Some(1) && Parse("یه") == Some(1) && Parse("یکصد") == Some(100)
  {
    hide Parse, Split, Words;
    ParseWord("يه");
    ParseWord("یه");
    ParseWord("یکصد");
  }

  /** Numerals in ASCII, Arabic-Indic or Persian digits, signed or not, are their number. */
  lemma ParsesNumerals(zero: char, n: nat)
    requires IsZero(zero)
    ensures Parse(NumeralIn(zero, n)) == Some(n)
    ensures Parse(['+'] + NumeralIn(zero, n)) == Some(n)
    ensures Parse(['-'] + NumeralIn(zero, n)) == Some(-(n as int))
  {
    hide *;
    NumeralRoundTrip(zero, n);
    var text := NumeralIn(zero, n);
    DigitsAreNoSpace(text);
    ParsesUnsigned(text);
    ParsesSigned('+', text);
    ParsesSigned('-', text);
  }

  lemma DigitsAreNoSpace(text: string)
    requires text != "" && Numeric(text)
    ensures !IsSpace(text[0]) && !IsSpace(text[|text| - 1]) && text[0] != '+' && text[0] != '-'
  {
    assert text[0] in text && text[|text| - 1] in text;
    DigitIsNoSpace(text[0]);
    DigitIsNoSpace(text[|text| - 1]);
    hide IsSpace, DigitValue;
  }

  lemma DigitIsNoSpace(c: char)
    requires DigitValue(c).Some?
    ensures !IsSpace(c) && c != '+' && c != '-'
  {}

  lemma ParsesUnsigned(text: string)
    requires text != "" && Numeric(text) && !IsSpace(text[0]) && !IsSpace(text[|text| - 1])
    requires text[0] != '+' && text[0] != '-'
    ensures Parse(text) == Some(NumeralValue(text))
  {
    hide NumeralValue, Numeric, IsSpace, Words, Split, WithoutAnd;
    assert Strip(text) == text;
  }

  lemma ParsesSigned(sign: char, text: string)
    requires (sign == '+' || sign == '-') && text != "" && Numeric(text) && !IsSpace(text[|text| - 1])
    ensures var n: int := NumeralValue(text); Parse([sign] + text) == Some(if sign == '-' then -n else n)
  {
    hide *;
    var value := [sign] + text;
    assert value[1..] == text;
    assert value[0] == sign && value[|value| - 1] == text[|text| - 1];
    SignIsNoSpace(sign, text);
    StripsNothing(value);
    ParsesNumeral(value);
  }

  lemma SignIsNoSpace(sign: char, text: string)
    requires sign == '+' || sign == '-'
    ensures !IsSpace(sign) && Signed([sign] + text)
  {}

  lemma StripsNothing(s: string)
    requires s != "" && !IsSpace(s[0]) && !IsSpace(s[|s| - 1])
    ensures Strip(s) == s
  {}

  lemma ParsesNumeral(value: string)
    requires value != "" && Strip(value) == value && Signed(value) && value[1..] != "" && Numeric(value[1..])
    ensures var n: int := NumeralValue(value[1..]); Parse(value) == Some(if value[0] == '-' then -n else n)
  {
    hide NumeralValue, Numeric, IsSpace, Words, Split, WithoutAnd, Strip;
  }
}
