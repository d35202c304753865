/** The canonical JSON printer behind signatures, and a parser that undoes it. */
module CanonicalJson {

  /** A decoded value. Numbers are their JSON literals, strings are valid Unicode.
      Unsupported stands for whatever the JSON encoder refuses (NaN, channels, functions). */
  datatype Value =
    | Null
    | Bool(b: bool)
    | Num(literal: string)
    | Str(s: string)
    | Arr(items: List)
    | Obj(fields: map<string, Value>)
    | Unsupported

  datatype List = End | Item(head: Value, tail: List)

  predicate NumberChar(c: char) {
    '0' <= c <= '9' || c == '-' || c == '+' || c == '.' || c == 'e' || c == 'E'
  }

  /** Every number literal is a nonempty run of number characters. */
  ghost predicate WellFormed(v: Value) {
    match v
    case Num(lit) => lit != "" && forall i :: 0 <= i < |lit| ==> NumberChar(lit[i])
    case Arr(items) => WellFormedItems(items)
    case Obj(m) => forall k :: k in m ==> WellFormed(m[k])
    case _ => true
  }

  ghost predicate WellFormedItems(l: List) {
    l.Item? ==> WellFormed(l.head) && WellFormedItems(l.tail)
  }

  /** The encoder accepts the value, with everything inside it. */
  predicate Clean(v: Value) {
    match v
    case Arr(items) => CleanItems(items)
    case Obj(m) => forall k :: k in m ==> Clean(m[k])
    case Unsupported => false
    case _ => true
  }

  predicate CleanItems(l: List) {
    l.Item? ==> Clean(l.head) && CleanItems(l.tail)
  }

  // ---------------------------------------------------------------- strings (RFC 8259, section 7)

  function HexDigit(n: nat): char
    requires n < 16
  {
    if n < 10 then '0' + n as char else 'a' + (n - 10) as char
  }

  function FourDigits(a: nat, b: nat, c: nat, d: nat): string
    requires a < 16 && b < 16 && c < 16 && d < 16
  {
    ['\\', 'u', HexDigit(a), HexDigit(b), HexDigit(c), HexDigit(d)]
  }

  function Unicode(n: nat): string
    requires n < 0x10000
  {
    FourDigits(n / 0x1000, n / 0x100 % 16, n / 16 % 16, n % 16)
  }

  predicate EscapedAsUnicode(c: char) {
    (c as int) < 0x20 || c == '<' || c == '>' || c == '&' || c as int == 0x2028 || c as int == 0x2029
  }

  function EscapeChar(c: char): string {
    if c == '"' || c == '\\' then ['\\', c]
    else if c == '\U{8}' then "\\b"
    else if c == '\U{C}' then "\\f"
    else if c == '\n' then "\\n"
    else if c == '\r' then "\\r"
    else if c == '\t' then "\\t"
    else if EscapedAsUnicode(c) then Unicode(c as int)
    else [c]
  }

  /** Which characters are written as they are. */
  lemma WrittenAsIs(c: char)
    ensures EscapeChar(c) == [c] <==>
            (c as int) >= 0x20 && c != '"' && c != '\\' && c != '<' && c != '>' && c != '&'
            && c as int != 0x2028 && c as int != 0x2029
  {
    if c != '"' && c != '\\' && EscapedAsUnicode(c) { assert |Unicode(c as int)| == 6; }
  }

  /** The escapes of two characters, and the others. */
  lemma ShortEscapes()
    ensures EscapeChar('"') == ['\\', '"'] && EscapeChar('\\') == ['\\', '\\']
    ensures EscapeChar('\n') == ['\\', 'n'] && EscapeChar('\r') == ['\\', 'r'] && EscapeChar('\t') == ['\\', 't']
    ensures EscapeChar('\U{8}') == ['\\', 'b'] && EscapeChar('\U{C}') == ['\\', 'f']
  {
  }

  lemma LongEscapes()
    ensures EscapeChar('<') == "\\u003c" && EscapeChar('>') == "\\u003e" && EscapeChar('&') == "\\u0026"
    ensures EscapeChar('\U{1F}') == "\\u001f" && EscapeChar('\U{2028}') == "\\u2028"
  {
  }

  /** The escaped characters of s, in front of rest. */
  function EmitChars(s: string, rest: string): string {
    if s == "" then rest else EscapeChar(s[0]) + EmitChars(s[1..], rest)
  }

  function EmitString(s: string, rest: string): string {
    "\"" + EmitChars(s, "\"" + rest)
  }

  function Quote(s: string): string {
    EmitString(s, "")
  }

  // ---------------------------------------------------------------- keys in order

  /** The order of sort.Strings: by bytes, which for valid UTF-8 is by code points. */
  predicate Less(a: string, b: string) {
    b != "" && (a == "" || a[0] < b[0] || (a[0] == b[0] && Less(a[1..], b[1..])))
  }

  lemma {:induction false} LessIsTotal(a: string, b: string)
    ensures Less(a, b) || a == b || Less(b, a)
    ensures !(Less(a, b) && Less(b, a)) && !Less(a, a)
  {
    if a != "" { LessIsTotal(a[1..], a[1..]); }
    if a != "" && b != "" {
      LessIsTotal(a[1..], b[1..]);
      if a[0] == b[0] && a[1..] == b[1..] { assert a == [a[0]] + a[1..] == b; }
    }
  }

  lemma {:induction false} LessIsTransitive(a: string, b: string, c: string)
    requires Less(a, b) && Less(b, c)
    ensures Less(a, c)
  {
    if a != "" && a[0] == b[0] && b[0] == c[0] { LessIsTransitive(a[1..], b[1..], c[1..]); }
  }

  /** a comes before b: it is a proper beginning of b, or it has the smaller character where they first differ. */
  ghost predicate ComesBefore(a: string, b: string) {
    exists n :: DiffersAt(a, b, n)
  }

  ghost predicate DiffersAt(a: string, b: string, n: nat) {
    n <= |a| && n < |b| && a[..n] == b[..n] && (n == |a| || a[n] < b[n])
  }

  lemma {:induction false} LessComesBefore(a: string, b: string)
    requires Less(a, b)
    ensures ComesBefore(a, b)
  {
    if a == "" || a[0] < b[0] {
      assert DiffersAt(a, b, 0);
    } else {
      LessComesBefore(a[1..], b[1..]);
      var n: nat :| DiffersAt(a[1..], b[1..], n);
      assert a[..n + 1] == [a[0]] + a[1..][..n] && b[..n + 1] == [b[0]] + b[1..][..n];
      assert DiffersAt(a, b, n + 1);
    }
  }

  lemma {:induction false} DifferenceIsLess(a: string, b: string, n: nat)
    requires DiffersAt(a, b, n)
    ensures Less(a, b)
  {
    if n > 0 {
      assert a[0] == a[..n][0] == b[..n][0] == b[0];
      assert a[1..][..n - 1] == a[..n][1..] == b[..n][1..] == b[1..][..n - 1];
      DifferenceIsLess(a[1..], b[1..], n - 1);
    }
  }

  /** Less is the ascending order of strings. */
  lemma LessIff(a: string, b: string)
    ensures Less(a, b) <==> ComesBefore(a, b)
  {
    if Less(a, b) { LessComesBefore(a, b); }
    if ComesBefore(a, b) {
      var n: nat :| DiffersAt(a, b, n);
      DifferenceIsLess(a, b, n);
    }
  }

  datatype Keys = NoKeys | Key(k: string, rest: Keys) {
    function Elements(): set<string> {
      if NoKeys? then {} else {k} + rest.Elements()
    }

    ghost predicate Increasing() {
      Key? ==> rest.Increasing() && (rest.Key? ==> Less(k, rest.k))
    }
  }

  lemma {:induction false} HeadIsLeast(ks: Keys, j: string)
    requires ks.Key? && ks.Increasing() && j in ks.rest.Elements()
    ensures Less(ks.k, j)
  {
    if j != ks.rest.k {
      HeadIsLeast(ks.rest, j);
      LessIsTransitive(ks.k, ks.rest.k, j);
    }
  }

  lemma NonemptyElements(ks: Keys)
    ensures ks.Elements() == {} <==> ks.NoKeys?
  {
    if ks.Key? { assert ks.k in ks.Elements(); }
  }

  /** An increasing list is determined by its elements. */
  lemma {:induction false} IncreasingIsUnique(a: Keys, b: Keys)
    requires a.Increasing() && b.Increasing() && a.Elements() == b.Elements()
    ensures a == b
  {
    if a.Key? && b.Key? {
      if a.k != b.k {
        assert a.k in b.Elements() && b.k in a.Elements();
        HeadIsLeast(a, b.k);
        HeadIsLeast(b, a.k);
        LessIsTotal(a.k, b.k);
      }
      HeadNotInTail(a);
      HeadNotInTail(b);
      assert a.rest.Elements() == a.Elements() - {a.k} == b.rest.Elements();
      IncreasingIsUnique(a.rest, b.rest);
    } else {
      NonemptyElements(a);
      NonemptyElements(b);
    }
  }

  lemma HeadNotInTail(ks: Keys)
    requires ks.Key? && ks.Increasing()
    ensures ks.k !in ks.rest.Elements()
  {
    if ks.k in ks.rest.Elements() {
      HeadIsLeast(ks, ks.k);
      LessIsTotal(ks.k, ks.k);
    }
  }

  function Insert(k: string, ks: Keys): Keys {
    if ks.NoKeys? || Less(k, ks.k) then Key(k, ks)
    else if k == ks.k then ks
    else Key(ks.k, Insert(k, ks.rest))
  }

  lemma {:induction false} InsertSorts(k: string, ks: Keys)
    requires ks.Increasing()
    ensures Insert(k, ks).Increasing() && Insert(k, ks).Elements() == ks.Elements() + {k}
  {
    if ks.Key? && !Less(k, ks.k) && k != ks.k {
      LessIsTotal(k, ks.k);
      InsertSorts(k, ks.rest);
    }
  }

  function Sort(ks: Keys): Keys {
    if ks.NoKeys? then NoKeys else Insert(ks.k, Sort(ks.rest))
  }

  lemma {:induction false} SortSorts(ks: Keys)
    ensures Sort(ks).Increasing() && Sort(ks).Elements() == ks.Elements()
  {
    if ks.Key? {
      SortSorts(ks.rest);
      InsertSorts(ks.k, Sort(ks.rest));
    }
  }

  /** The keys of a map in increasing order. */
  ghost function SortedKeys(s: set<string>): (ks: Keys)
    ensures ks.Increasing() && ks.Elements() == s
  {
    if s == {} then NoKeys
    else
      var k :| k in s;
      InsertSorts(k, SortedKeys(s - {k}));
      Insert(k, SortedKeys(s - {k}))
  }

  ghost predicate Ascending(ks: Keys) {
    ks.Key? && ks.rest.Key? ==> ComesBefore(ks.k, ks.rest.k) && Ascending(ks.rest)
  }

  lemma {:induction false} IncreasingIsAscending(ks: Keys)
    requires ks.Increasing()
    ensures Ascending(ks)
  {
    if ks.Key? && ks.rest.Key? {
      LessIff(ks.k, ks.rest.k);
      IncreasingIsAscending(ks.rest);
    }
  }

  /** The keys are printed in ascending order, smallest first. */
  lemma SortedKeysAscend(s: set<string>)
    ensures Ascending(SortedKeys(s)) && SortedKeys(s).Elements() == s
  {
    IncreasingIsAscending(SortedKeys(s));
  }

  // ---------------------------------------------------------------- printing

  /** The text of a value in front of rest; nothing for a value the encoder refuses. */
  ghost function Emit(v: Value, rest: string): string
    decreases v, 1
  {
    match v
    case Null => "null" + rest
    case Bool(b) => (if b then "true" else "false") + rest
    case Num(lit) => lit + rest
    case Str(s) => EmitString(s, rest)
    case Arr(items) => if CleanItems(items) then "[" + EmitItems(items, true, "]" + rest) else rest
    case Obj(m) => "{" + EmitFields(v, SortedKeys(m.Keys), true, "}" + rest)
    case Unsupported => rest
  }

  ghost function EmitItems(l: List, first: bool, rest: string): string
    decreases l
  {
    if l.End? then rest
    else Comma(first, Emit(l.head, EmitItems(l.tail, false, rest)))
  }

  ghost function EmitFields(o: Value, ks: Keys, first: bool, rest: string): string
    requires o.Obj? && ks.Elements() <= o.fields.Keys
    decreases o, 0, ks
  {
    if ks.NoKeys? then rest
    else Comma(first, EmitString(ks.k, ":" + Emit(o.fields[ks.k], EmitFields(o, ks.rest, false, rest))))
  }

  function Comma(first: bool, t: string): string {
    if first then t else "," + t
  }

  ghost function Print(v: Value): string {
    Emit(v, "")
  }

  /** The value with everything the encoder refuses, and the arrays that hold such things, blotted out. */
  function Norm(v: Value): Value {
    match v
    case Arr(items) => if CleanItems(items) then v else Unsupported
    case Obj(m) => Obj(map k | k in m :: Norm(m[k]))
    case _ => v
  }

  lemma {:induction false} CleanIsNormal(v: Value)
    requires Clean(v)
    ensures Norm(v) == v
  {
    if v.Obj? {
      forall k | k in v.fields
        ensures Norm(v.fields[k]) == v.fields[k]
      {
        CleanIsNormal(v.fields[k]);
      }
      assert (map k | k in v.fields :: Norm(v.fields[k])) == v.fields;
    }
  }

  /** Printing sees only the normal form. */
  lemma {:induction false} EmitOfNorm(v: Value, rest: string)
    ensures Emit(Norm(v), rest) == Emit(v, rest)
    decreases v, 1
  {
    if v.Obj? {
      assert Norm(v).fields.Keys == v.fields.Keys;
      EmitFieldsOfNorm(v, SortedKeys(v.fields.Keys), true, "}" + rest);
    }
  }

  lemma {:induction false} EmitFieldsOfNorm(o: Value, ks: Keys, first: bool, rest: string)
    requires o.Obj? && ks.Elements() <= o.fields.Keys
    ensures EmitFields(Norm(o), ks, first, rest) == EmitFields(o, ks, first, rest)
    decreases o, 0, ks
  {
    if ks.Key? {
      assert ks.k in o.fields;
      EmitFieldsOfNorm(o, ks.rest, false, rest);
      EmitOfNorm(o.fields[ks.k], EmitFields(o, ks.rest, false, rest));
    }
  }

  // ---------------------------------------------------------------- parsing

  datatype Parsed<T> = Fail | Got(value: T, rest: string)

  function HexValue(c: char): int {
    if '0' <= c <= '9' then c as int - '0' as int
    else if 'a' <= c <= 'f' then c as int - 'a' as int + 10
    else -1
  }

  /** The character that a two-character escape stands for. */
  function Unescape(e: char): Parsed<char> {
    if e == '"' || e == '\\' then Got(e, "")
    else if e == 'b' then Got('\U{8}', "")
    else if e == 'f' then Got('\U{C}', "")
    else if e == 'n' then Got('\n', "")
    else if e == 'r' then Got('\r', "")
    else if e == 't' then Got('\t', "")
    else Fail
  }

  /** One character of a string literal. */
  function ParseChar(t: string): (r: Parsed<char>)
    ensures r.Got? ==> |r.rest| < |t|
  {
    if t == "" || t[0] == '"' then Fail
    else if t[0] != '\\' then Got(t[0], t[1..])
    else if |t| < 2 then Fail
    else if Unescape(t[1]).Got? then Got(Unescape(t[1]).value, t[2..])
    else if t[1] != 'u' || |t| < 6 then Fail
    else
      var a, b, c, d := HexValue(t[2]), HexValue(t[3]), HexValue(t[4]), HexValue(t[5]);
      if a < 0 || b < 0 || c < 0 || d < 0 then Fail
      else
        var n := 0x1000 * a + 0x100 * b + 16 * c + d;
        if 0xD800 <= n < 0xE000 then Fail else Got(n as char, t[6..])
  }

  /** The rest of a string literal, its closing quote included. */
  function ParseChars(t: string): (r: Parsed<string>)
    ensures r.Got? ==> |r.rest| < |t|
    decreases |t|
  {
    if t == "" then Fail
    else if t[0] == '"' then Got("", t[1..])
    else
      match ParseChar(t)
      case Fail => Fail
      case Got(c, t1) =>
        match ParseChars(t1)
        case Fail => Fail
        case Got(s, t2) => Got([c] + s, t2)
  }

  function NumberRun(t: string): (n: nat)
    ensures n <= |t|
  {
    if t != "" && NumberChar(t[0]) then 1 + NumberRun(t[1..]) else 0
  }

  function ParseWord(t: string, w: string, v: Value): (r: Parsed<Value>)
    ensures r.Got? && w != "" ==> |r.rest| < |t|
  {
    if w <= t then Got(v, t[|w|..]) else Fail
  }

  function ParseValue(t: string): (r: Parsed<Value>)
    ensures r.Got? ==> |r.rest| < |t|
    decreases |t|, 1
  {
    if t == "" then Fail
    else if t[0] == '{' then
      match ParseFields(t[1..], true)
      case Fail => Fail
      case Got(m, t1) => Got(Obj(m), t1)
    else if t[0] == '[' then
      match ParseItems(t[1..], true)
      case Fail => Fail
      case Got(l, t1) => Got(Arr(l), t1)
    else if t[0] == '"' then
      match ParseChars(t[1..])
      case Fail => Fail
      case Got(s, t1) => Got(Str(s), t1)
    else if t[0] == 'n' then ParseWord(t, "null", Null)
    else if t[0] == 't' then ParseWord(t, "true", Bool(true))
    else if t[0] == 'f' then ParseWord(t, "false", Bool(false))
    else
      var n := NumberRun(t);
      if n == 0 then Fail else Got(Num(t[..n]), t[n..])
  }

  /** Array items up to and including the closing bracket. */
  function ParseItems(t: string, first: bool): (r: Parsed<List>)
    ensures r.Got? ==> |r.rest| < |t|
    decreases |t|, 2
  {
    if t != "" && t[0] == ']' then Got(End, t[1..])
    else if !first && (t == "" || t[0] != ',') then Fail
    else
      match ParseValue(if first then t else t[1..])
      case Fail => Fail
      case Got(v, t1) =>
        match ParseItems(t1, false)
        case Fail => Fail
        case Got(l, t2) => Got(Item(v, l), t2)
  }

  /** The value of a field; there is none where the encoder refused it. */
  function ParseFieldValue(t: string): (r: Parsed<Value>)
    ensures r.Got? ==> |r.rest| <= |t|
    decreases |t|, 2
  {
    if t != "" && (t[0] == ',' || t[0] == '}') then Got(Unsupported, t) else ParseValue(t)
  }

  /** Object fields up to and including the closing brace. */
  function ParseFields(t: string, first: bool): (r: Parsed<map<string, Value>>)
    ensures r.Got? ==> |r.rest| < |t|
    decreases |t|, 3
  {
    if t != "" && t[0] == '}' then Got(map[], t[1..])
    else if !first && (t == "" || t[0] != ',') then Fail
    else
      var t0 := if first then t else t[1..];
      if t0 == "" || t0[0] != '"' then Fail
      else
        match ParseChars(t0[1..])
        case Fail => Fail
        case Got(k, t1) =>
          if t1 == "" || t1[0] != ':' then Fail
          else
            match ParseFieldValue(t1[1..])
            case Fail => Fail
            case Got(v, t2) =>
              match ParseFields(t2, false)
              case Fail => Fail
              case Got(m, t3) => Got(m[k := v], t3)
  }

  // ---------------------------------------------------------------- the parser undoes the printer

  lemma HexRoundTrip(n: nat)
    requires n < 16
    ensures HexValue(HexDigit(n)) == n
  {
  }

  lemma FourDigitsRoundTrip(a: nat, b: nat, c: nat, d: nat, rest: string)
    requires a < 13 && b < 16 && c < 16 && d < 16
    ensures ParseChar(FourDigits(a, b, c, d) + rest) == Got((0x1000 * a + 0x100 * b + 16 * c + d) as char, rest)
  {
    var t := FourDigits(a, b, c, d) + rest;
    HexRoundTrip(a);
    HexRoundTrip(b);
    HexRoundTrip(c);
    HexRoundTrip(d);
    assert t[2] == HexDigit(a) && t[3] == HexDigit(b) && t[4] == HexDigit(c) && t[5] == HexDigit(d);
    assert t[6..] == rest;
  }

  lemma ShortEscapeRoundTrip(e: char, rest: string)
    requires Unescape(e).Got?
    ensures ParseChar(['\\', e] + rest) == Got(Unescape(e).value, rest)
  {
    var t := ['\\', e] + rest;
    assert t[0] == '\\' && t[1] == e && t[2..] == rest;
  }

  lemma PlainCharRoundTrip(c: char, rest: string)
    requires c != '"' && c != '\\'
    ensures ParseChar([c] + rest) == Got(c, rest)
  {
    assert ([c] + rest)[1..] == rest;
  }

  lemma CharRoundTrip(c: char, rest: string)
    ensures EscapeChar(c) != "" && EscapeChar(c)[0] != '"'
    ensures ParseChar(EscapeChar(c) + rest) == Got(c, rest)
  {
    var e := EscapeChar(c);
    if |e| == 6 {
      var n := c as int;
      FourDigitsRoundTrip(n / 0x1000, n / 0x100 % 16, n / 16 % 16, n % 16, rest);
    } else if |e| == 2 {
      assert Unescape(e[1]) == Got(c, "") && e == ['\\', e[1]];
      ShortEscapeRoundTrip(e[1], rest);
    } else {
      PlainCharRoundTrip(c, rest);
    }
  }

  lemma {:induction false} CharsRoundTrip(s: string, rest: string)
    ensures ParseChars(EmitChars(s, "\"" + rest)) == Got(s, rest)
  {
    if s == "" {
      assert ("\"" + rest)[1..] == rest;
    } else {
      CharRoundTrip(s[0], EmitChars(s[1..], "\"" + rest));
      CharsRoundTrip(s[1..], rest);
      assert [s[0]] + s[1..] == s;
    }
  }

  /** What may follow a value: not a number character. */
  ghost predicate Delimited(rest: string) {
    rest == "" || !NumberChar(rest[0])
  }

  lemma {:induction false} NumberRunOf(lit: string, rest: string)
    requires forall i :: 0 <= i < |lit| ==> NumberChar(lit[i])
    requires Delimited(rest)
    ensures NumberRun(lit + rest) == |lit|
  {
    if lit == "" {
      assert lit + rest == rest;
    } else {
      assert (lit + rest)[1..] == lit[1..] + rest;
      NumberRunOf(lit[1..], rest);
    }
  }

  predicate StartsValue(t: string) {
    t != "" && t[0] !in {',', ']', '}'}
  }

  lemma AtomRoundTrip(v: Value, rest: string)
    requires v.Null? || v.Bool? || v.Str? || v.Num?
    requires WellFormed(v) && Delimited(rest)
    ensures StartsValue(Emit(v, rest)) && ParseValue(Emit(v, rest)) == Got(v, rest)
  {
    var t := Emit(v, rest);
    match v
    case Null => assert t[4..] == rest;
    case Bool(b) => assert b ==> t[4..] == rest; assert !b ==> t[5..] == rest;
    case Num(lit) =>
      NumberRunOf(lit, rest);
      assert NumberChar(t[0]) && t[..|lit|] == lit && t[|lit|..] == rest;
    case Str(s) =>
      assert t[1..] == EmitChars(s, "\"" + rest);
      CharsRoundTrip(s, rest);
  }

  /** The fields of an object, in the order of printing, as the parser collects them. */
  ghost function NormFields(o: Value, ks: Keys): map<string, Value>
    requires o.Obj? && ks.Elements() <= o.fields.Keys
  {
    if ks.NoKeys? then map[] else NormFields(o, ks.rest)[ks.k := Norm(o.fields[ks.k])]
  }

  lemma {:induction false} NormFieldsContent(o: Value, ks: Keys)
    requires o.Obj? && ks.Elements() <= o.fields.Keys
    ensures NormFields(o, ks).Keys == ks.Elements()
    ensures forall k :: k in ks.Elements() ==> NormFields(o, ks)[k] == Norm(o.fields[k])
  {
    if ks.Key? { NormFieldsContent(o, ks.rest); }
  }

  lemma NormFieldsOfAllKeys(o: Value, ks: Keys)
    requires o.Obj? && ks.Elements() == o.fields.Keys
    ensures Obj(NormFields(o, ks)) == Norm(o)
  {
    NormFieldsContent(o, ks);
    assert NormFields(o, ks) == map k | k in o.fields :: Norm(o.fields[k]);
  }

  lemma {:induction false} ValueRoundTrip(v: Value, rest: string)
    requires WellFormed(v) && Norm(v) != Unsupported && Delimited(rest)
    ensures StartsValue(Emit(v, rest)) && ParseValue(Emit(v, rest)) == Got(Norm(v), rest)
    decreases v, 1
  {
    var t := Emit(v, rest);
    match v
    case Arr(items) =>
      ItemsRoundTrip(items, true, rest);
      assert t[1..] == EmitItems(items, true, "]" + rest);
    case Obj(m) =>
      var ks := SortedKeys(m.Keys);
      FieldsRoundTrip(v, ks, true, rest);
      assert t[1..] == EmitFields(v, ks, true, "}" + rest);
      NormFieldsOfAllKeys(v, ks);
    case _ => AtomRoundTrip(v, rest);
  }

  lemma {:induction false} ItemsRoundTrip(l: List, first: bool, rest: string)
    requires WellFormedItems(l) && CleanItems(l)
    ensures ParseItems(EmitItems(l, first, "]" + rest), first) == Got(l, rest)
    decreases l
  {
    if l.End? {
      assert ("]" + rest)[1..] == rest;
    } else {
      var t1 := EmitItems(l.tail, false, "]" + rest);
      var u := Emit(l.head, t1);
      CleanIsNormal(l.head);
      ValueRoundTrip(l.head, t1);
      ItemsRoundTrip(l.tail, false, rest);
      assert ("," + u)[1..] == u;
    }
  }

  lemma {:induction false} FieldsRoundTrip(o: Value, ks: Keys, first: bool, rest: string)
    requires o.Obj? && WellFormed(o) && ks.Elements() <= o.fields.Keys
    ensures ParseFields(EmitFields(o, ks, first, "}" + rest), first)
            == Got(NormFields(o, ks), rest)
    decreases o, 0, ks
  {
    if ks.NoKeys? {
      assert ("}" + rest)[1..] == rest;
    } else {
      var v := o.fields[ks.k];
      var t3 := EmitFields(o, ks.rest, false, "}" + rest);
      FieldValueRoundTrip(v, t3);
      FieldsRoundTrip(o, ks.rest, false, rest);
      FieldsStep(first, ks.k, Emit(v, t3), Norm(v), t3, NormFields(o, ks.rest), rest);
    }
  }

  lemma FieldsStep(first: bool, k: string, w: string, v: Value, t3: string, m: map<string, Value>, rest: string)
    requires ParseFieldValue(w) == Got(v, t3) && ParseFields(t3, false) == Got(m, rest)
    ensures ParseFields(Comma(first, EmitString(k, ":" + w)), first) == Got(m[k := v], rest)
  {
    var u := EmitChars(k, "\"" + (":" + w));
    CharsRoundTrip(k, ":" + w);
    assert ("\"" + u)[1..] == u && ("," + ("\"" + u))[1..] == "\"" + u;
    assert (":" + w)[1..] == w;
  }

  lemma FieldValueRoundTrip(v: Value, t: string)
    requires WellFormed(v) && t != "" && (t[0] == ',' || t[0] == '}')
    ensures ParseFieldValue(Emit(v, t)) == Got(Norm(v), t)
    decreases v, 2
  {
    if Norm(v) != Unsupported { ValueRoundTrip(v, t); }
  }

  // ---------------------------------------------------------------- the main results

  /** What is signed determines the map up to values the encoder refuses: two maps print to the
      same text exactly when their normal forms are equal. */
  lemma SameTextIffSameNormalForm(m1: map<string, Value>, m2: map<string, Value>)
    requires WellFormed(Obj(m1)) && WellFormed(Obj(m2))
    ensures Print(Obj(m1)) == Print(Obj(m2)) <==> Norm(Obj(m1)) == Norm(Obj(m2))
  {
    ValueRoundTrip(Obj(m1), "");
    ValueRoundTrip(Obj(m2), "");
    EmitOfNorm(Obj(m1), "");
    EmitOfNorm(Obj(m2), "");
  }

  /** Canonical JSON is unambiguous on the maps the encoder accepts. */
  lemma CanonicalIsUnambiguous(m1: map<string, Value>, m2: map<string, Value>)
    requires WellFormed(Obj(m1)) && WellFormed(Obj(m2)) && Clean(Obj(m1)) && Clean(Obj(m2))
    ensures Print(Obj(m1)) == Print(Obj(m2)) <==> m1 == m2
  {
    SameTextIffSameNormalForm(m1, m2);
    CleanIsNormal(Obj(m1));
    CleanIsNormal(Obj(m2));
  }

  /** Since the error of the encoder is ignored, a refused value and an array holding one look alike. */
  lemma RefusedValuesCollide(k: string)
    ensures var m1 := map[k := Unsupported];
            var m2 := map[k := Arr(Item(Unsupported, End))];
            m1 != m2 && Print(Obj(m1)) == Print(Obj(m2))
  {
    var m1 := map[k := Unsupported];
    var m2 := map[k := Arr(Item(Unsupported, End))];
    assert m1[k] != m2[k];
    assert Norm(Obj(m1)) == Norm(Obj(m2));
    EmitOfNorm(Obj(m1), "");
    EmitOfNorm(Obj(m2), "");
  }

  // ---------------------------------------------------------------- the printer itself

  lemma Assoc(a: string, b: string, c: string)
    ensures (a + b) + c == a + (b + c)
  {
  }

  lemma {:induction false} CharsSplit(s: string, mid: string, rest: string)
    ensures EmitChars(s, mid + rest) == EmitChars(s, mid) + rest
  {
    if s != "" {
      CharsSplit(s[1..], mid, rest);
      Assoc(EscapeChar(s[0]), EmitChars(s[1..], mid), rest);
    }
  }

  lemma StringSplit(s: string, rest: string)
    ensures EmitString(s, rest) == Quote(s) + rest
  {
    CharsSplit(s, "\"", rest);
    Assoc("\"", EmitChars(s, "\""), rest);
    assert "\"" + "" == "\"";
  }

  /** The text of a value does not depend on what follows it. */
  lemma {:induction false} EmitSplit(v: Value, mid: string, rest: string)
    ensures Emit(v, mid + rest) == Emit(v, mid) + rest
    decreases v, 1
  {
    match v
    case Null => Assoc("null", mid, rest);
    case Bool(b) => Assoc(if b then "true" else "false", mid, rest);
    case Num(lit) => Assoc(lit, mid, rest);
    case Str(s) => EmitStringSplit(s, mid, rest);
    case Arr(items) =>
      Assoc("]", mid, rest);
      ItemsSplit(items, true, "]" + mid, rest);
      Assoc("[", EmitItems(items, true, "]" + mid), rest);
    case Obj(m) =>
      var ks := SortedKeys(m.Keys);
      Assoc("}", mid, rest);
      FieldsSplit(v, ks, true, "}" + mid, rest);
      Assoc("{", EmitFields(v, ks, true, "}" + mid), rest);
    case Unsupported =>
  }

  lemma EmitStringSplit(s: string, mid: string, rest: string)
    ensures EmitString(s, mid + rest) == EmitString(s, mid) + rest
  {
    Assoc("\"", mid, rest);
    CharsSplit(s, "\"" + mid, rest);
    Assoc("\"", EmitChars(s, "\"" + mid), rest);
  }

  lemma {:induction false} ItemsSplit(l: List, first: bool, mid: string, rest: string)
    ensures EmitItems(l, first, mid + rest) == EmitItems(l, first, mid) + rest
    decreases l
  {
    if l.Item? {
      ItemsSplit(l.tail, false, mid, rest);
      EmitSplit(l.head, EmitItems(l.tail, false, mid), rest);
      Assoc(",", Emit(l.head, EmitItems(l.tail, false, mid)), rest);
    }
  }

  lemma {:induction false} FieldsSplit(o: Value, ks: Keys, first: bool, mid: string, rest: string)
    requires o.Obj? && ks.Elements() <= o.fields.Keys
    ensures EmitFields(o, ks, first, mid + rest) == EmitFields(o, ks, first, mid) + rest
    decreases o, 0, ks
  {
    if ks.Key? {
      assert ks.k in o.fields;
      var tail := EmitFields(o, ks.rest, false, mid);
      var e := Emit(o.fields[ks.k], tail);
      FieldsSplit(o, ks.rest, false, mid, rest);
      EmitSplit(o.fields[ks.k], tail, rest);
      Assoc(":", e, rest);
      EmitStringSplit(ks.k, ":" + e, rest);
      Assoc(",", EmitString(ks.k, ":" + e), rest);
    }
  }

  lemma PrintThen(v: Value, rest: string)
    ensures Emit(v, rest) == Print(v) + rest
  {
    EmitSplit(v, "", rest);
    assert "" + rest == rest;
  }

  // ---------------------------------------------------------------- the text, written forwards

  function Escaped(s: string): string {
    if s == "" then "" else EscapeChar(s[0]) + Escaped(s[1..])
  }

  lemma {:induction false} CharsForwards(s: string, rest: string)
    ensures EmitChars(s, rest) == Escaped(s) + rest
  {
    if s != "" {
      CharsForwards(s[1..], rest);
      Assoc(EscapeChar(s[0]), Escaped(s[1..]), rest);
    } else {
      assert "" + rest == rest;
    }
  }

  /** The fields in the order of ks: key, colon, value, with commas between. */
  ghost function FieldsText(o: Value, ks: Keys): string
    requires o.Obj? && ks.Elements() <= o.fields.Keys
  {
    if ks.NoKeys? then ""
    else
      var field := Quote(ks.k) + (":" + Print(o.fields[ks.k]));
      if ks.rest.NoKeys? then field else field + ("," + FieldsText(o, ks.rest))
  }

  ghost function ItemsText(l: List): string {
    if l.End? then ""
    else if l.tail.End? then Print(l.head)
    else Print(l.head) + ("," + ItemsText(l.tail))
  }

  lemma {:induction false} FieldsForwards(o: Value, ks: Keys, rest: string)
    requires o.Obj? && ks.Elements() <= o.fields.Keys
    ensures EmitFields(o, ks, true, rest) == FieldsText(o, ks) + rest
  {
    if ks.NoKeys? {
      assert "" + rest == rest;
    } else {
      assert ks.k in o.fields;
      var p, q := Print(o.fields[ks.k]), Quote(ks.k);
      var tail := EmitFields(o, ks.rest, false, rest);
      FieldsForwards(o, ks.rest, rest);
      PrintThen(o.fields[ks.k], tail);
      StringSplit(ks.k, ":" + (p + tail));
      Assoc(":", p, tail);
      Assoc(q, ":" + p, tail);
      if ks.rest.Key? {
        assert tail == "," + (FieldsText(o, ks.rest) + rest);
        Assoc(",", FieldsText(o, ks.rest), rest);
        Assoc(q + (":" + p), "," + FieldsText(o, ks.rest), rest);
      }
    }
  }

  lemma {:induction false} ItemsForwards(l: List, rest: string)
    ensures EmitItems(l, true, rest) == ItemsText(l) + rest
  {
    if l.End? {
      assert "" + rest == rest;
    } else {
      var tail := EmitItems(l.tail, false, rest);
      ItemsForwards(l.tail, rest);
      PrintThen(l.head, tail);
      if l.tail.Item? {
        assert tail == "," + (ItemsText(l.tail) + rest);
        Assoc(",", ItemsText(l.tail), rest);
        Assoc(Print(l.head), "," + ItemsText(l.tail), rest);
      }
    }
  }

  /** The text of every kind of value: a map is its fields in the order of its sorted keys, in braces; an array is its
      items, in brackets; strings are quoted with their escapes; what the encoder refuses is nothing. */
  lemma TextOf(v: Value)
    ensures v.Null? ==> Print(v) == "null"
    ensures v.Bool? ==> Print(v) == if v.b then "true" else "false"
    ensures v.Num? ==> Print(v) == v.literal
    ensures v.Str? ==> Print(v) == "\"" + (Escaped(v.s) + "\"")
    ensures v.Arr? ==> Print(v) == if Clean(v) then "[" + (ItemsText(v.items) + "]") else ""
    ensures v.Obj? ==> Print(v) == "{" + (FieldsText(v, SortedKeys(v.fields.Keys)) + "}")
    ensures v.Unsupported? ==> Print(v) == ""
  {
    match v
    case Str(s) =>
      assert "\"" + "" == "\"";
      CharsForwards(s, "\"");
    case Arr(items) =>
      assert "]" + "" == "]";
      ItemsForwards(items, "]");
    case Obj(m) =>
      assert "}" + "" == "}";
      FieldsForwards(v, SortedKeys(m.Keys), "}");
    case _ =>
  }

  // ---------------------------------------------------------------- the code

  /** The standard encoder on one value; its error leaves no bytes. */
  method Marshal(v: Value) returns (data: string)
    ensures data == Print(v)
    decreases v, 1
  {
    match v
    case Null => data := "null";
    case Bool(b) => data := if b then "true" else "false";
    case Num(lit) => data := lit;
    case Str(s) => data := Quote(s);
    case Unsupported => data := "";
    case Obj(m) => data := SortedJson(m, v);
    case Arr(items) =>
      if !CleanItems(items) {
        return "";
      }
      data := "[";
      var todo := items;
      assert "]" + "" == "]";
      while todo.Item?
        invariant todo.Item? ==> todo < v
        invariant data + EmitItems(todo, todo == items, "]") == Print(v)
        decreases todo
      {
        ghost var tail := EmitItems(todo.tail, false, "]");
        PrintThen(todo.head, tail);
        if todo != items {
          Assoc(data, ",", Print(todo.head) + tail);
          data := data + ",";
        }
        var item := Marshal(todo.head);
        Assoc(data, item, tail);
        data := data + item;
        todo := todo.tail;
      }
      data := data + "]";
  }

  /** Keys are collected in whatever order the map yields them, then sorted. */
  method CollectAndSort(s: set<string>) returns (sorted: Keys)
    ensures sorted == SortedKeys(s)
  {
    var keys, left := NoKeys, s;
    while left != {}
      invariant left <= s && keys.Elements() == s - left
      decreases left
    {
      var k :| k in left;
      keys := Key(k, keys);
      left := left - {k};
    }
    SortSorts(keys);
    assert s - {} == s;
    IncreasingIsUnique(Sort(keys), SortedKeys(s));
    sorted := Sort(keys);
  }

  method SortedJson(m: map<string, Value>, ghost v: Value) returns (buf: string)
    requires v == Obj(m)
    ensures buf == Print(Obj(m))
    decreases v, 0
  {
    var todo := CollectAndSort(m.Keys);
    var first := true;
    buf := "{";
    assert "}" + "" == "}";
    while todo.Key?
      invariant todo.Elements() <= m.Keys
      invariant buf + EmitFields(v, todo, first, "}") == Print(v)
      decreases todo
    {
      ghost var tail := EmitFields(v, todo.rest, false, "}");
      ghost var field := ":" + Emit(m[todo.k], tail);
      if !first {
        Assoc(buf, ",", EmitString(todo.k, field));
        buf := buf + ",";
      }
      StringSplit(todo.k, field);
      Assoc(buf, Quote(todo.k), field);
      buf := buf + Quote(todo.k);
      Assoc(buf, ":", Emit(m[todo.k], tail));
      buf := buf + ":";
      var value := "";
      match m[todo.k] {
        case Obj(nested) => value := SortedJson(nested, m[todo.k]);
        case _ => value := Marshal(m[todo.k]);
      }
      PrintThen(m[todo.k], tail);
      Assoc(buf, value, tail);
      buf := buf + value;
      todo, first := todo.rest, false;
    }
    buf := buf + "}";
  }
}
