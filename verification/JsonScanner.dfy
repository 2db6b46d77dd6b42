/** `_first_balanced_json_object` of backend/app/services/structurer.py: picks the first
    JSON object out of whatever text a language model wrapped around it. */
module JsonScanner {
  import opened Prelude

  datatype State = State(depth: int, quoted: bool, escaped: bool)

  const START := State(0, false, false)

  function Plain(depth: int): State { State(depth, false, false) }

  function Step(s: State, c: char): State {
    if s.quoted then
      if s.escaped then s.(escaped := false)
      else if c == '\\' then s.(escaped := true)
      else if c == '"' then s.(quoted := false)
      else s
    else if c == '"' then s.(quoted := true)
    else if c == '{' then s.(depth := s.depth + 1)
    else if c == '}' then s.(depth := s.depth - 1)
    else s
  }

  /** Reading `c` in state `s` ends the object. */
  predicate Closes(s: State, c: char) { !s.quoted && c == '}' && s.depth == 1 }

  /** Length of the shortest prefix of `text` that ends the object begun before it. */
  function Length(s: State, text: string): (n: Option<nat>)
    ensures n.Some? ==> 0 < n.value <= |text|
    decreases text
  {
    if text == "" then None
    else if Closes(s, text[0]) then Some(1)
    else
      var rest := Length(Step(s, text[0]), text[1..]);
      if rest.None? then None else Some(1 + rest.value)
  }

  /** Index of the first opening brace, or the length. */
  function FirstBrace(text: string): (i: nat)
    ensures i <= |text|
    ensures i < |text| ==> text[i] == '{'
    ensures forall j :: 0 <= j < i ==> text[j] != '{'
  {
    if text == "" || text[0] == '{' then 0 else 1 + FirstBrace(text[1..])
  }

  function FirstBalanced(text: string): Option<string> {
    var start := FirstBrace(text);
    var n := Length(START, text[start..]);
    if n.None? then None else Some(text[start..start + n.value])
  }

  /** What the loop has left to decide: the length found so far plus the rest. */
  function LengthFrom(s: State, text: string, start: nat, index: nat): Option<int>
    requires start <= index <= |text|
  {
    var n := Length(s, text[index..]);
    if n.None? then None else Some(index - start + n.value)
  }

  lemma LengthFromStep(s: State, text: string, start: nat, index: nat)
    requires start <= index < |text|
    ensures LengthFrom(s, text, start, index)
            == if Closes(s, text[index]) then Some(index - start + 1)
               else LengthFrom(Step(s, text[index]), text, start, index + 1)
  {
    hide Step, Closes;
    assert text[index..][1..] == text[index + 1..];
  }

  /** One turn of the scanner's loop on its three variables. */
  method ReadChar(depth: int, quoted: bool, escaped: bool, c: char)
    returns (depth': int, quoted': bool, escaped': bool, closed: bool)
    ensures State(depth', quoted', escaped') == Step(State(depth, quoted, escaped), c)
    ensures closed <==> Closes(State(depth, quoted, escaped), c)
  {
    depth', quoted', escaped', closed := depth, quoted, escaped, false;
    if quoted {
      if escaped { escaped' := false; }
      else if c == '\\' { escaped' := true; }
      else if c == '"' { quoted' := false; }
    } else if c == '"' {
      quoted' := true;
    } else if c == '{' {
      depth' := depth + 1;
    } else if c == '}' {
      depth' := depth - 1;
      closed := depth' == 0;
    }
  }

  method ScanFirstBalanced(text: string) returns (found: Option<string>)
    ensures found == FirstBalanced(text)
  {
    var start := FirstBrace(text);
    if start == |text| {
      NothingLeft(START, text, start);
      NothingFound(text);
      return None;
    }
    hide Length, LengthFrom, Step, Closes, FirstBalanced, FirstBrace;
    var depth, quoted, escaped := 0, false, false;
    for index := start to |text|
      invariant LengthFrom(START, text, start, start) == LengthFrom(State(depth, quoted, escaped), text, start, index)
    {
      LengthFromStep(State(depth, quoted, escaped), text, start, index);
      var closed;
      depth, quoted, escaped, closed := ReadChar(depth, quoted, escaped, text[index]);
      if closed {
        FoundAt(text, index);
        return Some(text[start..index + 1]);
      }
    }
    NothingLeft(State(depth, quoted, escaped), text, start);
    NothingFound(text);
    found := None;
  }

  lemma FoundAt(text: string, index: nat)
    requires FirstBrace(text) <= index < |text|
    requires LengthFrom(START, text, FirstBrace(text), FirstBrace(text)) == Some(index - FirstBrace(text) + 1)
    ensures FirstBalanced(text) == Some(text[FirstBrace(text)..index + 1])
  {
    hide Length, FirstBrace, Step, Closes;
  }

  lemma NothingFound(text: string)
    requires LengthFrom(START, text, FirstBrace(text), FirstBrace(text)).None?
    ensures FirstBalanced(text).None?
  {
    hide Length, FirstBrace, Step, Closes;
  }

  lemma NothingLeft(s: State, text: string, start: nat)
    requires start <= |text|
    ensures LengthFrom(s, text, start, |text|).None?
  {
    hide FirstBrace, Step, Closes;
  }

  // ---- Printing JSON --------------------------------------------------------------

  /** How one character of a string is spelled: as it is, as a backslash and a letter, as one
      escape of four hexadecimal digits, or as a pair of them. */
  datatype Form = Bare | Short(letter: char) | Code(digits: string) | Pair(high: string, low: string)

  datatype Glyph = Glyph(c: char, form: Form)

  function DigitValue(c: char): Option<int> {
    if '0' <= c <= '9' then Some(c as int - '0' as int)
    else if 'a' <= c <= 'f' then Some(c as int - 'a' as int + 10)
    else if 'A' <= c <= 'F' then Some(c as int - 'A' as int + 10)
    else None
  }

  predicate IsCode(digits: string, n: int) {
    && |digits| == 4 && (forall i :: 0 <= i < 4 ==> DigitValue(digits[i]).Some?)
    && n == ((DigitValue(digits[0]).value * 16 + DigitValue(digits[1]).value) * 16 + DigitValue(digits[2]).value) * 16
            + DigitValue(digits[3]).value
  }

  /** The spellings section 7 of RFC 8259 allows. */
  predicate Legal(g: Glyph) {
    var n := g.c as int;
    match g.form
    case Bare => g.c != '"' && g.c != '\\' && n >= 0x20
    case Short(l) =>
      || (l in {'"', '\\', '/'} && g.c == l)
      || (l == 'b' && n == 0x8) || (l == 'f' && n == 0xC) || (l == 'n' && n == 0xA)
      || (l == 'r' && n == 0xD) || (l == 't' && n == 0x9)
    case Code(digits) => IsCode(digits, n)
    case Pair(high, low) =>
      n >= 0x10000 && IsCode(high, 0xD800 + (n - 0x10000) / 0x400) && IsCode(low, 0xDC00 + (n - 0x10000) % 0x400)
  }

  function Spelled(g: Glyph): string {
    match g.form
    case Bare => [g.c]
    case Short(l) => "\\" + [l]
    case Code(digits) => "\\u" + digits
    case Pair(high, low) => "\\u" + high + "\\u" + low
  }

  /** Every text can be spelled: as it is where that is legal, and by its code elsewhere. */
  function Usual(c: char): (g: Glyph)
    ensures g.c == c && Legal(g)
  {
    if c == '"' || c == '\\' then Glyph(c, Short(c))
    else if c < ' ' then Glyph(c, Code("00" + [Hex(c as int / 16), Hex(c as int % 16)]))
    else Glyph(c, Bare)
  }

  function Hex(n: int): (c: char)
    requires 0 <= n < 16
    ensures DigitValue(c) == Some(n)
  {
    if n < 10 then '0' + n as char else 'a' + (n - 10) as char
  }

  /** A JSON value; numbers are kept as their literal text, strings as they are spelled. */
  datatype Json =
    | Null
    | Bool(b: bool)
    | Number(literal: string)
    | Str(s: seq<Glyph>)
    | Arr(items: seq<Json>)
    | Obj(members: seq<Member>)

  datatype Member = Member(key: seq<Glyph>, value: Json)

  predicate Inert(text: string) {
    forall i :: 0 <= i < |text| ==> text[i] != '"' && text[i] != '{' && text[i] != '}'
  }

  predicate AllLegal(s: seq<Glyph>) {
    forall i :: 0 <= i < |s| ==> Legal(s[i])
  }

  /** Number literals hold no quote and no brace; strings are spelled legally. */
  predicate WellFormed(v: Json) {
    match v
    case Number(literal) => Inert(literal)
    case Str(s) => AllLegal(s)
    case Arr(items) => forall i :: 0 <= i < |items| ==> WellFormed(items[i])
    case Obj(members) => forall i :: 0 <= i < |members| ==> AllLegal(members[i].key) && WellFormed(members[i].value)
    case _ => true
  }

  function SpelledAll(s: seq<Glyph>): string {
    if s == [] then "" else Spelled(s[0]) + SpelledAll(s[1..])
  }

  function Quoted(s: seq<Glyph>): string { "\"" + SpelledAll(s) + "\"" }

  /** The white space and separators of a printing style, by nesting level: any text
      without quotes and braces. */
  datatype Style = Style(comma: nat -> string, colon: nat -> string, open: nat -> string, close: nat -> string)

  ghost predicate InertStyle(p: Style) {
    && (forall d :: Inert(p.comma(d)))
    && (forall d :: Inert(p.colon(d)))
    && (forall d :: Inert(p.open(d)))
    && (forall d :: Inert(p.close(d)))
  }

  /** The usual indented form. */
  const INDENTED := Style((d: nat) => "," + Margin(d), (d: nat) => ": ", Margin, Margin)

  function Margin(d: nat): string { "\n" + seq(2 * d, _ => ' ') }

  lemma IndentedIsInert()
    ensures InertStyle(INDENTED)
  {
  }

  /** The inside of brackets: nothing, or the printed elements between their padding. */
  function Padded(empty: bool, inside: string, p: Style, d: nat): string {
    if empty then "" else p.open(d + 1) + inside + p.close(d)
  }

  function Print(v: Json, p: Style, d: nat): string
    decreases v, 1
  {
    match v
    case Null => "null"
    case Bool(b) => if b then "true" else "false"
    case Number(literal) => literal
    case Str(s) => Quoted(s)
    case Arr(items) => "[" + Padded(items == [], PrintItems(v, items, p, d + 1), p, d) + "]"
    case Obj(members) => "{" + Padded(members == [], PrintMembers(v, members, p, d + 1), p, d) + "}"
  }

  function PrintItems(ghost owner: Json, items: seq<Json>, p: Style, d: nat): string
    requires forall i :: 0 <= i < |items| ==> items[i] < owner
    decreases owner, 0, |items|
  {
    if items == [] then ""
    else if |items| == 1 then Print(items[0], p, d)
    else Print(items[0], p, d) + p.comma(d) + PrintItems(owner, items[1..], p, d)
  }

  function PrintMembers(ghost owner: Json, members: seq<Member>, p: Style, d: nat): string
    requires forall i :: 0 <= i < |members| ==> members[i].value < owner
    decreases owner, 0, |members|
  {
    if members == [] then ""
    else
      var first := Quoted(members[0].key) + p.colon(d) + Print(members[0].value, p, d);
      if |members| == 1 then first else first + p.comma(d) + PrintMembers(owner, members[1..], p, d)
  }

  // ---- Scanning what was printed --------------------------------------------------

  /** Scanning `text` from `s` does not end the object and leads to `t`. */
  predicate Passes(s: State, text: string, t: State)
    decreases text
  {
    if text == "" then s == t
    else !Closes(s, text[0]) && Passes(Step(s, text[0]), text[1..], t)
  }

  lemma {:induction false} PassesConcat(s: State, a: string, t: State, b: string, u: State)
    requires Passes(s, a, t) && Passes(t, b, u)
    ensures Passes(s, a + b, u)
    decreases a
  {
    if a == "" {
      assert a + b == b;
    } else {
      assert (a + b)[1..] == a[1..] + b;
      PassesConcat(Step(s, a[0]), a[1..], t, b, u);
    }
  }

  lemma {:induction false} LengthAfter(s: State, a: string, t: State, b: string)
    requires Passes(s, a, t)
    ensures Length(s, a + b) == (var n := Length(t, b); if n.None? then None else Some(|a| + n.value))
    decreases a
  {
    if a == "" {
      assert a + b == b;
    } else {
      assert (a + b)[1..] == a[1..] + b;
      LengthAfter(Step(s, a[0]), a[1..], t, b);
    }
  }

  lemma {:induction false} InertPasses(text: string, depth: int)
    requires Inert(text)
    ensures Passes(Plain(depth), text, Plain(depth))
  {
    if text != "" { InertPasses(text[1..], depth); }
  }

  /** Inside quotes, text without quote and backslash changes nothing. */
  lemma {:induction false} InsidePasses(text: string, depth: int)
    requires forall i :: 0 <= i < |text| ==> text[i] != '"' && text[i] != '\\'
    ensures Passes(State(depth, true, false), text, State(depth, true, false))
  {
    if text != "" { InsidePasses(text[1..], depth); }
  }

  /** Nor does a backslash with whatever follows it. */
  lemma EscapePasses(letter: char, depth: int)
    ensures Passes(State(depth, true, false), "\\" + [letter], State(depth, true, false))
  {
    assert ("\\" + [letter])[1..] == [letter] && [letter][1..] == "";
  }

  lemma CodePasses(digits: string, n: int, depth: int)
    requires IsCode(digits, n)
    ensures Passes(State(depth, true, false), "\\u" + digits, State(depth, true, false))
  {
    var inside := State(depth, true, false);
    EscapePasses('u', depth);
    forall i | 0 <= i < |digits| ensures digits[i] != '"' && digits[i] != '\\' {
      assert DigitValue(digits[i]).Some?;
    }
    InsidePasses(digits, depth);
    PassesConcat(inside, "\\u", inside, digits, inside);
  }

  /** A legally spelled character changes nothing, whatever it stands for. */
  lemma SpelledPasses(g: Glyph, depth: int)
    requires Legal(g)
    ensures Passes(State(depth, true, false), Spelled(g), State(depth, true, false))
  {
    var inside := State(depth, true, false);
    match g.form
    case Bare => InsidePasses([g.c], depth);
    case Short(l) => EscapePasses(l, depth);
    case Code(digits) => CodePasses(digits, g.c as int, depth);
    case Pair(high, low) =>
      var n := g.c as int;
      CodePasses(high, 0xD800 + (n - 0x10000) / 0x400, depth);
      CodePasses(low, 0xDC00 + (n - 0x10000) % 0x400, depth);
      PassesConcat(inside, "\\u" + high, inside, "\\u" + low, inside);
      assert "\\u" + high + ("\\u" + low) == "\\u" + high + "\\u" + low;
  }

  lemma {:induction false} SpelledAllPasses(s: seq<Glyph>, depth: int)
    requires AllLegal(s)
    ensures Passes(State(depth, true, false), SpelledAll(s), State(depth, true, false))
  {
    if s != [] {
      SpelledPasses(s[0], depth);
      SpelledAllPasses(s[1..], depth);
      PassesConcat(State(depth, true, false), Spelled(s[0]), State(depth, true, false), SpelledAll(s[1..]),
                   State(depth, true, false));
    }
  }

  /** A quoted string is transparent, whatever braces and quotes it holds. */
  lemma QuotedPasses(s: seq<Glyph>, depth: int)
    requires AllLegal(s)
    ensures Passes(Plain(depth), Quoted(s), Plain(depth))
  {
    var inside := State(depth, true, false);
    SpelledAllPasses(s, depth);
    assert "\""[1..] == "";
    PassesConcat(Plain(depth), "\"", inside, SpelledAll(s), inside);
    PassesConcat(Plain(depth), "\"" + SpelledAll(s), inside, "\"", Plain(depth));
  }

  lemma PaddedPasses(empty: bool, inside: string, p: Style, d: nat, depth: int)
    requires InertStyle(p) && Passes(Plain(depth), inside, Plain(depth))
    ensures Passes(Plain(depth), Padded(empty, inside, p, d), Plain(depth))
  {
    InertPasses(p.open(d + 1), depth);
    InertPasses(p.close(d), depth);
    PassesConcat(Plain(depth), p.open(d + 1), Plain(depth), inside, Plain(depth));
    PassesConcat(Plain(depth), p.open(d + 1) + inside, Plain(depth), p.close(d), Plain(depth));
  }

  /** Inside an object every printed value is transparent. */
  lemma {:induction false} ValuePasses(v: Json, p: Style, d: nat, depth: int)
    requires WellFormed(v) && InertStyle(p) && depth >= 1
    ensures Passes(Plain(depth), Print(v, p, d), Plain(depth))
    decreases v, 1
  {
    match v
    case Null => InertPasses("null", depth);
    case Bool(b) => InertPasses(if b then "true" else "false", depth);
    case Number(literal) => InertPasses(literal, depth);
    case Str(s) => QuotedPasses(s, depth);
    case Arr(items) =>
      var inside := Padded(items == [], PrintItems(v, items, p, d + 1), p, d);
      ItemsPass(v, items, p, d + 1, depth);
      PaddedPasses(items == [], PrintItems(v, items, p, d + 1), p, d, depth);
      InertPasses("[", depth);
      InertPasses("]", depth);
      PassesConcat(Plain(depth), "[", Plain(depth), inside, Plain(depth));
      PassesConcat(Plain(depth), "[" + inside, Plain(depth), "]", Plain(depth));
    case Obj(members) =>
      var inside := Padded(members == [], PrintMembers(v, members, p, d + 1), p, d);
      MembersPass(v, members, p, d + 1, depth + 1);
      PaddedPasses(members == [], PrintMembers(v, members, p, d + 1), p, d, depth + 1);
      assert "{"[1..] == "" && "}"[1..] == "";
      assert Passes(Plain(depth), "{", Plain(depth + 1)) && Passes(Plain(depth + 1), "}", Plain(depth));
      PassesConcat(Plain(depth), "{", Plain(depth + 1), inside, Plain(depth + 1));
      PassesConcat(Plain(depth), "{" + inside, Plain(depth + 1), "}", Plain(depth));
  }

  lemma {:induction false} ItemsPass(owner: Json, items: seq<Json>, p: Style, d: nat, depth: int)
    requires forall i :: 0 <= i < |items| ==> items[i] < owner && WellFormed(items[i])
    requires InertStyle(p) && depth >= 1
    ensures Passes(Plain(depth), PrintItems(owner, items, p, d), Plain(depth))
    decreases owner, 0, |items|
  {
    if items != [] {
      ValuePasses(items[0], p, d, depth);
      if |items| > 1 {
        var at, value := Plain(depth), Print(items[0], p, d);
        ItemsPass(owner, items[1..], p, d, depth);
        InertPasses(p.comma(d), depth);
        PassesConcat(at, value, at, p.comma(d), at);
        PassesConcat(at, value + p.comma(d), at, PrintItems(owner, items[1..], p, d), at);
      }
    }
  }

  lemma {:induction false} MembersPass(owner: Json, members: seq<Member>, p: Style, d: nat, depth: int)
    requires forall i :: 0 <= i < |members| ==>
               members[i].value < owner && AllLegal(members[i].key) && WellFormed(members[i].value)
    requires InertStyle(p) && depth >= 1
    ensures Passes(Plain(depth), PrintMembers(owner, members, p, d), Plain(depth))
    decreases owner, 0, |members|
  {
    if members != [] {
      var at, key, value := Plain(depth), Quoted(members[0].key), Print(members[0].value, p, d);
      QuotedPasses(members[0].key, depth);
      InertPasses(p.colon(d), depth);
      ValuePasses(members[0].value, p, d, depth);
      PassesConcat(at, key, at, p.colon(d), at);
      PassesConcat(at, key + p.colon(d), at, value, at);
      if |members| > 1 {
        MembersPass(owner, members[1..], p, d, depth);
        InertPasses(p.comma(d), depth);
        PassesConcat(at, key + p.colon(d) + value, at, p.comma(d), at);
        PassesConcat(at, key + p.colon(d) + value + p.comma(d), at, PrintMembers(owner, members[1..], p, d), at);
      }
    }
  }

  /** Any printed object, compact or indented, after any text without an opening brace and
      before any text at all, is found exactly. */
  lemma ScannerFindsPrintedObject(prefix: string, members: seq<Member>, p: Style, suffix: string)
    requires '{' !in prefix && WellFormed(Obj(members)) && InertStyle(p)
    ensures FirstBalanced(prefix + Print(Obj(members), p, 0) + suffix) == Some(Print(Obj(members), p, 0))
  {
    var printed := Print(Obj(members), p, 0);
    ObjectLength(members, p, suffix);
    assert printed[0] == '{';
    FoundBetween(prefix, printed, suffix);
  }

  lemma FoundBetween(prefix: string, found: string, suffix: string)
    requires '{' !in prefix && found != "" && found[0] == '{' && Length(START, found + suffix) == Some(|found|)
    ensures FirstBalanced(prefix + found + suffix) == Some(found)
  {
    hide Length, FirstBrace;
    var text := prefix + found + suffix;
    BraceAfter(prefix, found + suffix);
    assert text == prefix + (found + suffix);
    assert text[|prefix|..] == found + suffix;
    assert text[|prefix|..|prefix| + |found|] == found;
  }

  /** Scanning a printed object ends it exactly at its end. */
  lemma ObjectLength(members: seq<Member>, p: Style, suffix: string)
    requires WellFormed(Obj(members)) && InertStyle(p)
    ensures Length(START, Print(Obj(members), p, 0) + suffix) == Some(|Print(Obj(members), p, 0)|)
  {
    var v := Obj(members);
    var inside := Padded(members == [], PrintMembers(v, members, p, 1), p, 0);
    MembersPass(v, members, p, 1, 1);
    PaddedPasses(members == [], PrintMembers(v, members, p, 1), p, 0, 1);
    hide PrintMembers, Padded, WellFormed, InertStyle;
    OpensAndCloses(inside, suffix);
    assert "{" + inside + "}" + suffix == "{" + inside + ("}" + suffix);
  }

  lemma OpensAndCloses(inside: string, suffix: string)
    requires Passes(Plain(1), inside, Plain(1))
    ensures Length(START, "{" + inside + ("}" + suffix)) == Some(|inside| + 2)
  {
    assert "{"[1..] == "";
    assert Passes(START, "{", Plain(1));
    PassesConcat(START, "{", Plain(1), inside, Plain(1));
    LengthAfter(START, "{" + inside, Plain(1), "}" + suffix);
    assert Length(Plain(1), "}" + suffix) == Some(1);
  }

  lemma {:induction false} BraceAfter(prefix: string, rest: string)
    requires '{' !in prefix && rest != "" && rest[0] == '{'
    ensures FirstBrace(prefix + rest) == |prefix|
  {
    if prefix == "" {
      assert prefix + rest == rest;
    } else {
      assert (prefix + rest)[1..] == prefix[1..] + rest;
      BraceAfter(prefix[1..], rest);
    }
  }

  // ---- For any text ---------------------------------------------------------------

  lemma {:induction false} LengthOfPrefix(s: State, text: string, n: nat)
    requires n <= |text| && Length(s, text).Some? && Length(s, text).value <= n
    ensures Length(s, text[..n]) == Length(s, text)
    decreases n
  {
    if !Closes(s, text[0]) {
      assert text[..n][1..] == text[1..][..n - 1];
      LengthOfPrefix(Step(s, text[0]), text[1..], n - 1);
    }
  }

  /** Whatever the text, what is found is a piece of it that begins at its first brace and
      is itself balanced: scanning the result again gives the result. */
  lemma FoundObjectIsBalanced(text: string)
    requires FirstBalanced(text).Some?
    ensures var found := FirstBalanced(text).value;
            && found <= text[FirstBrace(text)..]
            && FirstBalanced(found) == Some(found)
  {
    var rest := text[FirstBrace(text)..];
    var found := FirstBalanced(text).value;
    assert rest[..|found|] == found;
    LengthOfPrefix(START, rest, |found|);
    assert found[0] == '{';
    assert found[0..] == found && found[..|found|] == found;
  }

  // ---- A definition without a machine ---------------------------------------------

  /** Length up to the quote that ends a string begun before `text`; a backslash takes the
      character after it along. */
  function StringEnd(text: string): (n: Option<nat>)
    ensures n.Some? ==> 0 < n.value <= |text|
  {
    if text == "" then None
    else if text[0] == '"' then Some(1)
    else
      var skipped := if text[0] == '\\' then 2 else 1;
      var rest := if skipped <= |text| then StringEnd(text[skipped..]) else None;
      if rest.None? then None else Some(skipped + rest.value)
  }

  /** Braces opened less braces closed outside strings; None inside a string. */
  function Net(text: string): Option<int>
    decreases |text|
  {
    if text == "" then Some(0)
    else if text[0] == '"' then
      var n := StringEnd(text[1..]);
      if n.None? then None else Net(text[1 + n.value..])
    else
      var rest := Net(text[1..]);
      if rest.None? then None
      else Some(rest.value + if text[0] == '{' then 1 else if text[0] == '}' then -1 else 0)
  }

  /** The depth `text` leads to from state `s`, where it ends outside a string. */
  function DepthAfter(s: State, text: string): Option<int>
    requires s.escaped ==> s.quoted
  {
    var outside :=
      if !s.quoted then Some(text)
      else if s.escaped && text == "" then None
      else
        var inside := if s.escaped then text[1..] else text;
        var n := StringEnd(inside);
        if n.None? then None else Some(inside[n.value..]);
    if outside.None? || Net(outside.value).None? then None else Some(s.depth + Net(outside.value).value)
  }

  lemma EscapeEnds(text: string)
    requires |text| >= 2 && text[0] == '\\'
    ensures var n := StringEnd(text[2..]);
            if n.None? then StringEnd(text).None?
            else StringEnd(text) == Some(2 + n.value) && text[2 + n.value..] == text[1..][1..][n.value..]
  {
    assert text[1..][1..] == text[2..];
  }

  lemma DepthStepOutside(s: State, text: string)
    requires !s.quoted && !s.escaped && text != ""
    ensures DepthAfter(s, text) == DepthAfter(Step(s, text[0]), text[1..])
  {
    assert text[0] == '"' ==> forall n :: 0 <= n <= |text| - 1 ==> text[1 + n..] == text[1..][n..];
    hide StringEnd;
  }

  lemma DepthStepInside(s: State, text: string)
    requires s.quoted && !s.escaped && text != ""
    ensures DepthAfter(s, text) == DepthAfter(Step(s, text[0]), text[1..])
  {
    if text[0] == '\\' {
      if |text| >= 2 { EscapeEnds(text); }
    } else {
      assert StringEnd(text[1..]).Some? ==>
        text[1 + StringEnd(text[1..]).value..] == text[1..][StringEnd(text[1..]).value..];
    }
    hide Net;
  }

  lemma DepthStep(s: State, text: string)
    requires (s.escaped ==> s.quoted) && text != ""
    ensures var t := Step(s, text[0]);
            (t.escaped ==> t.quoted) && DepthAfter(s, text) == DepthAfter(t, text[1..])
  {
    if !s.quoted { DepthStepOutside(s, text); }
    else if !s.escaped { DepthStepInside(s, text); }
    hide StringEnd, Net;
  }

  lemma {:induction false} LengthExactly(s: State, text: string)
    requires (s.escaped ==> s.quoted) && s.depth >= 1
    ensures Length(s, text).Some? ==> DepthAfter(s, text[..Length(s, text).value]) == Some(0)
    ensures forall m :: 0 <= m <= |text| && (Length(s, text).Some? ==> m < Length(s, text).value) ==>
              DepthAfter(s, text[..m]) != Some(0)
    decreases text
  {
    if text != "" {
      var t, rest := Step(s, text[0]), text[1..];
      if !Closes(s, text[0]) { LengthExactly(t, rest); }
      forall m | 1 <= m <= |text| ensures DepthAfter(s, text[..m]) == DepthAfter(t, rest[..m - 1]) {
        DepthStep(s, text[..m]);
        assert text[..m][1..] == rest[..m - 1];
      }
    }
  }

  /** The braces outside strings cancel out in this piece. */
  predicate Cancels(text: string, from: nat, to: nat) {
    from <= to <= |text| && Net(text[from..to]) == Some(0)
  }

  /** What is found begins at the first brace and is the shortest piece from there in which
      the braces outside strings cancel out; nothing is found exactly when no piece does. */
  lemma ScanExactly(text: string, start: nat)
    requires start < |text| && text[start] == '{' && '{' !in text[..start]
    ensures FirstBalanced(text).Some? ==>
              && var end := start + |FirstBalanced(text).value|;
                 && start < end <= |text| && FirstBalanced(text).value == text[start..end]
                 && Cancels(text, start, end) && forall m :: start < m < end ==> !Cancels(text, start, m)
    ensures FirstBalanced(text).None? ==> forall m :: start < m <= |text| ==> !Cancels(text, start, m)
  {
    BraceAfter(text[..start], text[start..]);
    assert text == text[..start] + text[start..];
    var inner := text[start..][1..];
    assert Step(START, text[start]) == Plain(1) && !Closes(START, text[start]);
    LengthExactly(Plain(1), inner);
    hide FirstBrace;
    forall m | start < m <= |text|
      ensures Cancels(text, start, m) <==> DepthAfter(Plain(1), inner[..m - start - 1]) == Some(0)
    {
      NetAfterBrace(text[start..m], inner[..m - start - 1]);
    }
    hide Net, DepthAfter, Cancels;
  }

  lemma NetAfterBrace(piece: string, inner: string)
    requires piece != "" && piece[0] == '{' && piece[1..] == inner
    ensures Net(piece) == DepthAfter(Plain(1), inner)
  {
  }

  /** Without a brace there is nothing to find. */
  lemma NothingToScan(text: string)
    requires '{' !in text
    ensures FirstBalanced(text).None?
  {
    var i := FirstBrace(text);
  }
}
