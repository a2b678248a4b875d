/**
 JSON text: `JSON.stringify` as the service uses it, and a parser after sections 3 to 7 of RFC 8259.
 Numbers are integers; characters are Unicode scalar values.
 */
module Json {
  import opened Common
  import opened Digits

  datatype Json =
    | Null
    | Bool(b: bool)
    | Num(n: int)
    | Str(s: string)
    | Arr(items: seq<Json>)
    | Obj(members: seq<Member>)

  datatype Member = Member(name: string, value: Json)

  // ----- Writing -----

  function HexChar(n: nat): char
    requires n < 16
  {
    "0123456789abcdef"[n]
  }

  /** One character of a string literal. */
  function Escape(c: char): string {
    if c == '"' then "\\\""
    else if c == '\\' then "\\\\"
    else if c == '\U{8}' then "\\b"
    else if c == '\t' then "\\t"
    else if c == '\n' then "\\n"
    else if c == '\U{c}' then "\\f"
    else if c == '\r' then "\\r"
    else if c < ' ' then "\\u00" + [HexChar(c as int / 16), HexChar(c as int % 16)]
    else [c]
  }

  function EscapeAll(s: string): string {
    if s == "" then "" else Escape(s[0]) + EscapeAll(s[1..])
  }

  function Quote(s: string): string {
    "\"" + EscapeAll(s) + "\""
  }

  function Stringify(j: Json): string
    decreases j
  {
    match j
    case Null => "null"
    case Bool(b) => if b then "true" else "false"
    case Num(n) => if n < 0 then "-" + Decimal(-n) else Decimal(n)
    case Str(s) => Quote(s)
    case Arr(items) => "[" + Items(items) + "]"
    case Obj(members) => "{" + Members(members) + "}"
  }

  /** The elements of an array, separated by commas. */
  function Items(items: seq<Json>): string
    decreases items
  {
    if items == [] then ""
    else if |items| == 1 then Stringify(items[0])
    else Stringify(items[0]) + "," + Items(items[1..])
  }

  function MemberText(m: Member): string
    decreases m
  {
    Quote(m.name) + ":" + Stringify(m.value)
  }

  function Members(members: seq<Member>): string
    decreases members
  {
    if members == [] then ""
    else if |members| == 1 then MemberText(members[0])
    else MemberText(members[0]) + "," + Members(members[1..])
  }

  // ----- Reading -----

  datatype Parsed<T> = Fail | Ok(value: T, rest: string)

  predicate IsSpace(c: char) { c == ' ' || c == '\t' || c == '\n' || c == '\r' }

  function SkipSpace(s: string): (t: string)
    ensures |t| <= |s|
    ensures t == "" || !IsSpace(t[0])
  {
    if s != "" && IsSpace(s[0]) then SkipSpace(s[1..]) else s
  }

  function HexValue(c: char): Option<nat> {
    if '0' <= c <= '9' then Some(c as int - '0' as int)
    else if 'a' <= c <= 'f' then Some(c as int - 'a' as int + 10)
    else if 'A' <= c <= 'F' then Some(c as int - 'A' as int + 10)
    else None
  }

  /** Four hexadecimal digits. */
  function Hex4(s: string): Option<nat> {
    if |s| < 4 then None
    else
      var a, b, c, d := HexValue(s[0]), HexValue(s[1]), HexValue(s[2]), HexValue(s[3]);
      if a.Some? && b.Some? && c.Some? && d.Some?
      then Some(a.value * 4096 + b.value * 256 + c.value * 16 + d.value) else None
  }

  /** A \u escape, its surrogate pair included; an unpaired surrogate is no character. */
  function UnicodeEscape(s: string): (p: Parsed<char>)
    ensures p.Ok? ==> |p.rest| < |s|
  {
    var u := Hex4(s);
    if u.None? then Fail
    else if u.value < 0xD800 || 0xE000 <= u.value <= 0xFFFF then Ok(u.value as char, s[4..])
    else if 0xD800 <= u.value < 0xDC00 && |s| >= 10 && s[4] == '\\' && s[5] == 'u' then
      var v := Hex4(s[6..]);
      if v.Some? && 0xDC00 <= v.value < 0xE000
      then Ok((0x10000 + (u.value - 0xD800) * 0x400 + (v.value - 0xDC00)) as char, s[10..])
      else Fail
    else Fail
  }

  function OneEscape(s: string): (p: Parsed<char>)
    ensures p.Ok? ==> |p.rest| < |s|
  {
    if s == "" then Fail
    else
      match s[0]
      case '"' => Ok('"', s[1..])
      case '\\' => Ok('\\', s[1..])
      case '/' => Ok('/', s[1..])
      case 'b' => Ok('\U{8}', s[1..])
      case 'f' => Ok('\U{c}', s[1..])
      case 'n' => Ok('\n', s[1..])
      case 'r' => Ok('\r', s[1..])
      case 't' => Ok('\t', s[1..])
      case 'u' => UnicodeEscape(s[1..])
      case _ => Fail
  }

  /** The rest of a string literal, after its opening quote. */
  function ParseChars(s: string): (p: Parsed<string>)
    ensures p.Ok? ==> |p.rest| < |s|
    decreases |s|
  {
    if s == "" || s[0] < ' ' then Fail
    else if s[0] == '"' then Ok("", s[1..])
    else if s[0] == '\\' then
      var e := OneEscape(s[1..]);
      if e.Fail? then Fail else Prepend(e.value, ParseChars(e.rest))
    else Prepend(s[0], ParseChars(s[1..]))
  }

  function Prepend(c: char, p: Parsed<string>): Parsed<string> {
    match p
    case Fail => Fail
    case Ok(s, rest) => Ok([c] + s, rest)
  }

  predicate StartsWith(s: string, w: string) { w <= s }

  /** An integer: no leading zero, no fraction, no exponent. */
  function ParseNumber(s: string): (p: Parsed<Json>)
    ensures p.Ok? ==> |p.rest| < |s|
  {
    var negative := s != "" && s[0] == '-';
    var t := if negative then s[1..] else s;
    var ds := LeadingDigits(t);
    LeadingDigitsPrefix(t);
    if ds == "" || (|ds| > 1 && ds[0] == '0') || Continues(t[|ds|..]) then Fail
    else Ok(Num(if negative then -ValueOf(ds) else ValueOf(ds)), t[|ds|..])
  }

  /** Could the text go on with the number before it? */
  predicate Continues(rest: string) {
    rest != "" && (IsDigit(rest[0]) || rest[0] == '.' || rest[0] == 'e' || rest[0] == 'E')
  }

  function ParseValue(s: string): (p: Parsed<Json>)
    ensures p.Ok? ==> |p.rest| < |s|
    decreases |s|, 0
  {
    var t := SkipSpace(s);
    if t == "" then Fail
    else if t[0] == '"' then
      match ParseChars(t[1..]) { case Fail => Fail case Ok(str, rest) => Ok(Str(str), rest) }
    else if t[0] == '[' then
      var u := SkipSpace(t[1..]);
      if u != "" && u[0] == ']' then Ok(Arr([]), u[1..])
      else match ParseItems(u) { case Fail => Fail case Ok(items, rest) => Ok(Arr(items), rest) }
    else if t[0] == '{' then
      var u := SkipSpace(t[1..]);
      if u != "" && u[0] == '}' then Ok(Obj([]), u[1..])
      else match ParseMembers(u) { case Fail => Fail case Ok(members, rest) => Ok(Obj(members), rest) }
    else if StartsWith(t, "null") then Ok(Null, t[4..])
    else if StartsWith(t, "true") then Ok(Bool(true), t[4..])
    else if StartsWith(t, "false") then Ok(Bool(false), t[5..])
    else ParseNumber(t)
  }

  /** Elements up to and including the closing bracket. */
  function ParseItems(s: string): (p: Parsed<seq<Json>>)
    ensures p.Ok? ==> |p.rest| < |s|
    decreases |s|, 1
  {
    match ParseValue(s)
    case Fail => Fail
    case Ok(first, rest) =>
      var t := SkipSpace(rest);
      if t == "" then Fail
      else if t[0] == ']' then Ok([first], t[1..])
      else if t[0] == ',' then
        match ParseItems(t[1..]) { case Fail => Fail case Ok(others, rest') => Ok([first] + others, rest') }
      else Fail
  }

  /** A name, a colon and a value. */
  function ParseMember(s: string): (p: Parsed<Member>)
    ensures p.Ok? ==> |p.rest| < |s|
    decreases |s|, 1
  {
    var t := SkipSpace(s);
    if t == "" || t[0] != '"' then Fail
    else
      match ParseChars(t[1..])
      case Fail => Fail
      case Ok(name, rest) =>
        var u := SkipSpace(rest);
        if u == "" || u[0] != ':' then Fail
        else match ParseValue(u[1..]) { case Fail => Fail case Ok(v, rest') => Ok(Member(name, v), rest') }
  }

  /** Members up to and including the closing brace. */
  function ParseMembers(s: string): (p: Parsed<seq<Member>>)
    ensures p.Ok? ==> |p.rest| < |s|
    decreases |s|, 2
  {
    match ParseMember(s)
    case Fail => Fail
    case Ok(first, rest) =>
      var t := SkipSpace(rest);
      if t == "" then Fail
      else if t[0] == '}' then Ok([first], t[1..])
      else if t[0] == ',' then
        match ParseMembers(t[1..]) { case Fail => Fail case Ok(others, rest') => Ok([first] + others, rest') }
      else Fail
  }

  /** A whole JSON text. */
  function Parse(s: string): Option<Json> {
    match ParseValue(s)
    case Fail => None
    case Ok(j, rest) => if SkipSpace(rest) == "" then Some(j) else None
  }

  // ----- Reading back what was written -----

  lemma {:induction false} ShortEscapeReadsBack(c: char, e: char, u: string)
    requires OneEscape([e] + u) == Ok(c, u)
    ensures ParseChars(['\\', e] + u) == Prepend(c, ParseChars(u))
  {
    assert (['\\', e] + u)[1..] == [e] + u;
  }

  lemma HexReadsBack(n: nat)
    requires n < 16
    ensures HexValue(HexChar(n)) == Some(n)
  {
  }

  lemma {:induction false} ControlReadsBack(c: char, u: string)
    requires c < ' '
    ensures ParseChars("\\u00" + [HexChar(c as int / 16), HexChar(c as int % 16)] + u) == Prepend(c, ParseChars(u))
  {
    var digits := "00" + [HexChar(c as int / 16), HexChar(c as int % 16)] + u;
    HexReadsBack(c as int / 16);
    HexReadsBack(c as int % 16);
    assert digits[4..] == u;
    assert Hex4(digits) == Some(c as int);
    var s := "\\u00" + [HexChar(c as int / 16), HexChar(c as int % 16)] + u;
    assert s[1..] == ['u'] + digits && s[1..][1..] == digits;
    assert OneEscape(s[1..]) == Ok(c, u);
  }

  lemma {:induction false} ShortEscape(c: char, u: string)
    requires |Escape(c)| == 2
    ensures Escape(c) == ['\\', Escape(c)[1]] && OneEscape([Escape(c)[1]] + u) == Ok(c, u)
  {
    assert ([Escape(c)[1]] + u)[1..] == u;
  }

  lemma {:induction false} PlainCharReadsBack(c: char, u: string)
    requires c >= ' ' && c != '"' && c != '\\'
    ensures ParseChars([c] + u) == Prepend(c, ParseChars(u))
  {
    assert ([c] + u)[1..] == u;
  }

  lemma {:induction false} EscapedCharReadsBack(c: char, u: string)
    ensures ParseChars(Escape(c) + u) == Prepend(c, ParseChars(u))
  {
    var e := Escape(c);
    if |e| == 2 {
      ShortEscape(c, u);
      ShortEscapeReadsBack(c, e[1], u);
    } else if |e| == 6 {
      ControlReadsBack(c, u);
    } else {
      PlainCharReadsBack(c, u);
    }
  }

  lemma {:induction false} EscapedReadsBack(s: string, rest: string)
    ensures ParseChars(EscapeAll(s) + "\"" + rest) == Ok(s, rest)
  {
    if s == "" {
      assert EscapeAll(s) + "\"" + rest == "\"" + rest;
    } else {
      var tail := EscapeAll(s[1..]) + "\"" + rest;
      assert EscapeAll(s) + "\"" + rest == Escape(s[0]) + tail;
      EscapedReadsBack(s[1..], rest);
      EscapedCharReadsBack(s[0], tail);
      assert [s[0]] + s[1..] == s;
    }
  }

  lemma {:induction false} NumberReadsBack(n: int, rest: string)
    requires !Continues(rest)
    ensures ParseNumber(Stringify(Num(n)) + rest) == Ok(Num(n), rest)
    ensures Stringify(Num(n))[0] == '-' || IsDigit(Stringify(Num(n))[0])
  {
    var m := if n < 0 then -n else n;
    var ds := Decimal(m);
    DecimalReadsBack(m);
    LeadingDigitsOf(ds, rest);
    var s := Stringify(Num(n)) + rest;
    if n < 0 {
      assert s[1..] == ds + rest;
    }
    assert (ds + rest)[|ds|..] == rest;
  }

  /** Written values begin with something that is neither space nor a closing bracket. */
  lemma {:induction false} StartsPlainly(j: Json)
    ensures Stringify(j) != "" && !IsSpace(Stringify(j)[0]) && Stringify(j)[0] != ']' && Stringify(j)[0] != '}'
  {
    if j.Num? {
      NumberReadsBack(j.n, "");
    }
  }

  lemma {:induction false} LastItem(s: string, first: Json, rest: string)
    requires ParseValue(s) == Ok(first, "]" + rest)
    ensures ParseItems(s) == Ok([first], rest)
  {
    assert ("]" + rest)[1..] == rest;
  }

  lemma {:induction false} NextItem(s: string, first: Json, more: string, others: seq<Json>, rest: string)
    requires ParseValue(s) == Ok(first, "," + more) && ParseItems(more) == Ok(others, rest)
    ensures ParseItems(s) == Ok([first] + others, rest)
  {
    assert ("," + more)[1..] == more;
  }

  lemma {:induction false} LastMember(s: string, first: Member, rest: string)
    requires ParseMember(s) == Ok(first, "}" + rest)
    ensures ParseMembers(s) == Ok([first], rest)
  {
    assert ("}" + rest)[1..] == rest;
  }

  lemma {:induction false} NextMember(s: string, first: Member, more: string, others: seq<Member>, rest: string)
    requires ParseMember(s) == Ok(first, "," + more) && ParseMembers(more) == Ok(others, rest)
    ensures ParseMembers(s) == Ok([first] + others, rest)
  {
    assert ("," + more)[1..] == more;
  }

  lemma {:induction false} OneMember(s: string, name: string, u: string, v: Json, rest: string)
    requires ParseChars(s) == Ok(name, ":" + u) && ParseValue(u) == Ok(v, rest)
    ensures ParseMember("\"" + s) == Ok(Member(name, v), rest)
  {
    assert ("\"" + s)[1..] == s && (":" + u)[1..] == u;
  }

  lemma {:induction false} AnArray(u: string, items: seq<Json>, rest: string)
    requires u != "" && !IsSpace(u[0]) && u[0] != ']' && ParseItems(u) == Ok(items, rest)
    ensures ParseValue("[" + u) == Ok(Arr(items), rest)
  {
    assert ("[" + u)[1..] == u;
  }

  lemma {:induction false} AnObject(u: string, members: seq<Member>, rest: string)
    requires u != "" && !IsSpace(u[0]) && u[0] != '}' && ParseMembers(u) == Ok(members, rest)
    ensures ParseValue("{" + u) == Ok(Obj(members), rest)
  {
    assert ("{" + u)[1..] == u;
  }

  lemma {:induction false} Separated(first: string, others: string, rest: string)
    ensures (first + "," + others) + rest == first + ("," + (others + rest))
  {
  }

  lemma {:induction false} ItemsReadBack(items: seq<Json>, rest: string)
    requires items != []
    ensures ParseItems(Items(items) + "]" + rest) == Ok(items, rest)
    decreases items, 0
  {
    var s := Items(items) + ("]" + rest);
    assert Items(items) + "]" + rest == s;
    if |items| == 1 {
      assert s == Stringify(items[0]) + ("]" + rest);
      ReadsBack(items[0], "]" + rest);
      LastItem(s, items[0], rest);
      assert items == [items[0]];
    } else {
      var more := Items(items[1..]) + ("]" + rest);
      assert Items(items[1..]) + "]" + rest == more;
      Separated(Stringify(items[0]), Items(items[1..]), "]" + rest);
      ReadsBack(items[0], "," + more);
      ItemsReadBack(items[1..], rest);
      NextItem(s, items[0], more, items[1..], rest);
      assert [items[0]] + items[1..] == items;
    }
  }

  lemma {:induction false} Regroup(name: string, value: string, rest: string)
    ensures ("\"" + name + "\"") + ":" + value + rest == "\"" + (name + "\"" + (":" + (value + rest)))
  {
  }

  lemma {:induction false} MemberReadsBack(m: Member, rest: string)
    requires !Continues(rest)
    ensures ParseMember(MemberText(m) + rest) == Ok(m, rest)
    decreases m
  {
    var value := Stringify(m.value) + rest;
    var body := EscapeAll(m.name) + "\"" + (":" + value);
    Regroup(EscapeAll(m.name), Stringify(m.value), rest);
    EscapedReadsBack(m.name, ":" + value);
    ReadsBack(m.value, rest);
    OneMember(body, m.name, value, m.value, rest);
  }

  lemma {:induction false} MembersReadBack(members: seq<Member>, rest: string)
    requires members != []
    ensures ParseMembers(Members(members) + "}" + rest) == Ok(members, rest)
    decreases members, 0
  {
    var s := Members(members) + ("}" + rest);
    assert Members(members) + "}" + rest == s;
    if |members| == 1 {
      assert s == MemberText(members[0]) + ("}" + rest);
      MemberReadsBack(members[0], "}" + rest);
      LastMember(s, members[0], rest);
      assert members == [members[0]];
    } else {
      var more := Members(members[1..]) + ("}" + rest);
      assert Members(members[1..]) + "}" + rest == more;
      Separated(MemberText(members[0]), Members(members[1..]), "}" + rest);
      MemberReadsBack(members[0], "," + more);
      MembersReadBack(members[1..], rest);
      NextMember(s, members[0], more, members[1..], rest);
      assert [members[0]] + members[1..] == members;
    }
  }

  lemma {:induction false} ArrayReadsBack(items: seq<Json>, rest: string)
    ensures ParseValue("[" + Items(items) + "]" + rest) == Ok(Arr(items), rest)
    decreases items, 1
  {
    var u := Items(items) + "]" + rest;
    assert "[" + Items(items) + "]" + rest == "[" + u;
    if items == [] {
      assert u == "]" + rest && ("[" + u)[1..] == u && u[1..] == rest;
    } else {
      StartsPlainly(items[0]);
      assert u[0] == Stringify(items[0])[0];
      ItemsReadBack(items, rest);
      AnArray(u, items, rest);
    }
  }

  lemma {:induction false} ObjectReadsBack(members: seq<Member>, rest: string)
    ensures ParseValue("{" + Members(members) + "}" + rest) == Ok(Obj(members), rest)
    decreases members, 1
  {
    var u := Members(members) + "}" + rest;
    assert "{" + Members(members) + "}" + rest == "{" + u;
    if members == [] {
      assert u == "}" + rest && ("{" + u)[1..] == u && u[1..] == rest;
    } else {
      assert u[0] == MemberText(members[0])[0] == '"';
      MembersReadBack(members, rest);
      AnObject(u, members, rest);
    }
  }

  lemma {:induction false} LiteralReadsBack(j: Json, rest: string)
    requires j.Null? || j.Bool?
    ensures ParseValue(Stringify(j) + rest) == Ok(j, rest)
  {
    var s := Stringify(j) + rest;
    assert s[|Stringify(j)|..] == rest;
  }

  lemma {:induction false} NumberIsAValue(n: int, rest: string)
    requires !Continues(rest)
    ensures ParseValue(Stringify(Num(n)) + rest) == Ok(Num(n), rest)
  {
    NumberReadsBack(n, rest);
  }

  lemma {:induction false} StringReadsBack(str: string, rest: string)
    ensures ParseValue(Quote(str) + rest) == Ok(Str(str), rest)
  {
    assert (Quote(str) + rest)[1..] == EscapeAll(str) + "\"" + rest;
    EscapedReadsBack(str, rest);
  }

  /** Every value written is read back, whatever follows it that does not prolong a number. */
  lemma {:induction false} ReadsBack(j: Json, rest: string)
    requires !Continues(rest)
    ensures ParseValue(Stringify(j) + rest) == Ok(j, rest)
    decreases j
  {
    match j
    case Num(n) => NumberIsAValue(n, rest);
    case Str(str) => StringReadsBack(str, rest);
    case Arr(items) => ArrayReadsBack(items, rest);
    case Obj(members) => ObjectReadsBack(members, rest);
    case _ => LiteralReadsBack(j, rest);
  }

  /** `JSON.stringify` loses nothing. */
  lemma {:induction false} StringifyIsReadBack(j: Json)
    ensures Parse(Stringify(j)) == Some(j)
  {
    ReadsBack(j, "");
    assert Stringify(j) + "" == Stringify(j);
  }

  // ----- Written text has no control characters, so no line ends -----

  predicate Printable(s: string) {
    forall i | 0 <= i < |s| :: s[i] >= ' '
  }

  lemma EscapeIsPrintable(c: char)
    ensures Printable(Escape(c))
  {
  }

  lemma {:induction false} EscapedIsPrintable(s: string)
    ensures Printable(EscapeAll(s))
  {
    if s != "" {
      EscapeIsPrintable(s[0]);
      EscapedIsPrintable(s[1..]);
    }
  }

  lemma {:induction false} ItemsArePrintable(items: seq<Json>)
    ensures Printable(Items(items))
    decreases items
  {
    if items != [] {
      WrittenIsPrintable(items[0]);
      ItemsArePrintable(items[1..]);
    }
  }

  lemma {:induction false} MemberIsPrintable(m: Member)
    ensures Printable(MemberText(m))
    decreases m
  {
    EscapedIsPrintable(m.name);
    WrittenIsPrintable(m.value);
  }

  lemma {:induction false} MembersArePrintable(members: seq<Member>)
    ensures Printable(Members(members))
    decreases members
  {
    if members != [] {
      MemberIsPrintable(members[0]);
      MembersArePrintable(members[1..]);
    }
  }

  lemma NumberIsPrintable(n: int)
    ensures Printable(Stringify(Num(n)))
  {
    DecimalReadsBack(if n < 0 then -n else n);
  }

  lemma {:induction false} WrittenIsPrintable(j: Json)
    ensures Printable(Stringify(j))
    decreases j
  {
    match j
    case Null =>
    case Bool(_) =>
    case Num(n) => NumberIsPrintable(n);
    case Str(s) => EscapedIsPrintable(s);
    case Arr(items) => ItemsArePrintable(items);
    case Obj(members) => MembersArePrintable(members);
  }
}
