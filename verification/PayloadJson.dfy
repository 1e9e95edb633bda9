/** JSON (RFC 8259) as the checkout reference uses it: compact objects of strings, integers and literals,
    with every character outside printable ASCII escaped. */
module PayloadJson {
  import opened Basics

  datatype Json = JString(text: string) | JInt(number: int) | JBool(truth: bool) | JNull

  type Member = (string, Json)

  // ---- Writing ----

  function HexDigit(v: int): char
    requires 0 <= v < 16
  {
    if v < 10 then '0' + v as char else 'a' + (v - 10) as char
  }

  function Hex4(n: int): string
    requires 0 <= n < 0x1_0000
  {
    [HexDigit(n / 0x1000), HexDigit(n / 0x100 % 16), HexDigit(n / 16 % 16), HexDigit(n % 16)]
  }

  function EscapeChar(c: char): string
  {
    var n := c as int;
    if c == '"' then "\\\"" else if c == '\\' then "\\\\"
    else if c == '\n' then "\\n" else if c == '\r' then "\\r" else if c == '\t' then "\\t"
    else if n == 8 then "\\b" else if n == 12 then "\\f"
    else if ' ' <= c <= '~' then [c]
    else if n < 0x1_0000 then "\\u" + Hex4(n)
    else
      "\\u" + Hex4(0xD800 + (n - 0x1_0000) / 0x400) + "\\u" + Hex4(0xDC00 + (n - 0x1_0000) % 0x400)
  }

  function Escape(s: string): string
  {
    if s == "" then "" else EscapeChar(s[0]) + Escape(s[1..])
  }

  function Write(v: Json): string
  {
    match v
    case JString(text) => "\"" + (Escape(text) + "\"")
    case JInt(number) => Signed(number)
    case JBool(truth) => if truth then "true" else "false"
    case JNull => "null"
  }

  function WriteMembers(members: seq<Member>): string
  {
    if members == [] then "}"
    else "\"" + (Escape(members[0].0) + ("\":" + (Write(members[0].1)
         + ((if |members| > 1 then "," else "") + WriteMembers(members[1..])))))
  }

  function Dumps(members: seq<Member>): string
  {
    "{" + WriteMembers(members)
  }

  // ---- Reading ----

  function HexValue(c: char): (v: Option<int>)
    ensures v.Some? ==> 0 <= v.value < 16
  {
    if '0' <= c <= '9' then Some(c as int - '0' as int)
    else if 'a' <= c <= 'f' then Some(10 + c as int - 'a' as int)
    else if 'A' <= c <= 'F' then Some(10 + c as int - 'A' as int)
    else None
  }

  function Hex4Value(s: string): (v: Option<int>)
    ensures v.Some? ==> |s| >= 4 && 0 <= v.value < 0x1_0000
  {
    if |s| < 4 || HexValue(s[0]).None? || HexValue(s[1]).None? || HexValue(s[2]).None? || HexValue(s[3]).None? then None
    else Some(HexValue(s[0]).value * 0x1000 + HexValue(s[1]).value * 0x100 + HexValue(s[2]).value * 16 + HexValue(s[3]).value)
  }

  /** One escaped or plain character: itself, and how many characters it was written in. */
  function ReadChar(s: string): (r: Option<(char, nat)>)
    ensures r.Some? ==> 0 < r.value.1 <= |s|
  {
    if s == "" then None
    else if s[0] != '\\' then
      if s[0] < ' ' then None else Some((s[0], 1))
    else if |s| < 2 then None
    else if s[1] == '"' || s[1] == '\\' || s[1] == '/' then Some((s[1], 2))
    else if s[1] == 'n' then Some(('\n', 2))
    else if s[1] == 'r' then Some(('\r', 2))
    else if s[1] == 't' then Some(('\t', 2))
    else if s[1] == 'b' then Some((8 as char, 2))
    else if s[1] == 'f' then Some((12 as char, 2))
    else if s[1] != 'u' || Hex4Value(s[2..]).None? then None
    else
      var u := Hex4Value(s[2..]).value;
      if u < 0xD800 || 0xE000 <= u then Some((u as char, 6))
      else if 0xDC00 <= u || |s| < 12 || s[6] != '\\' || s[7] != 'u' || Hex4Value(s[8..]).None? then None
      else
        var low := Hex4Value(s[8..]).value;
        if 0xDC00 <= low < 0xE000 then Some(((0x1_0000 + (u - 0xD800) * 0x400 + (low - 0xDC00)) as char, 12)) else None
  }

  /** The rest of a string whose opening quote has been read. */
  function ReadString(s: string): (r: Option<(string, string)>)
    ensures r.Some? ==> |r.value.1| < |s|
    decreases |s|
  {
    if s == "" then None
    else if s[0] == '"' then Some(("", s[1..]))
    else match ReadChar(s)
      case None => None
      case Some((c, n)) =>
        var rest := ReadString(s[n..]);
        if rest.None? then None else Some(([c] + rest.value.0, rest.value.1))
  }

  predicate IsDigit(c: char)
  {
    '0' <= c <= '9'
  }

  function DigitRun(s: string): (n: nat)
    ensures n <= |s| && forall i :: 0 <= i < n ==> IsDigit(s[i])
  {
    if s == "" || !IsDigit(s[0]) then 0 else 1 + DigitRun(s[1..])
  }

  function NatOf(digits: string): nat
    requires forall i :: 0 <= i < |digits| ==> IsDigit(digits[i])
  {
    if digits == "" then 0
    else
      var last := digits[|digits| - 1];
      assert IsDigit(last);
      NatOf(digits[..|digits| - 1]) * 10 + (last as int - '0' as int)
  }

  function ReadNat(s: string): (r: Option<(nat, string)>)
    ensures r.Some? ==> |r.value.1| < |s|
  {
    var n := DigitRun(s);
    if n == 0 || (n > 1 && s[0] == '0') || (n < |s| && s[n] in ".eE") then None else Some((NatOf(s[..n]), s[n..]))
  }

  function ReadValue(s: string): (r: Option<(Json, string)>)
    ensures r.Some? ==> |r.value.1| < |s|
  {
    if s == "" then None
    else if s[0] == '"' then
      var r := ReadString(s[1..]);
      if r.None? then None else Some((JString(r.value.0), r.value.1))
    else if s[0] == '-' then
      var r := ReadNat(s[1..]);
      if r.None? then None else Some((JInt(0 - r.value.0), r.value.1))
    else if IsDigit(s[0]) then
      var r := ReadNat(s);
      if r.None? then None else Some((JInt(r.value.0), r.value.1))
    else if "true" <= s then Some((JBool(true), s[4..]))
    else if "false" <= s then Some((JBool(false), s[5..]))
    else if "null" <= s then Some((JNull, s[4..]))
    else None
  }

  /** Members up to the closing brace; a repeated key takes its last value. */
  function ReadMembers(s: string, fields: map<string, Json>): Option<(map<string, Json>, string)>
    decreases |s|
  {
    if s == "" || s[0] != '"' then None
    else match ReadString(s[1..])
      case None => None
      case Some((key, s1)) =>
        if s1 == "" || s1[0] != ':' then None
        else match ReadValue(s1[1..])
          case None => None
          case Some((v, s2)) =>
            if s2 == "" then None
            else if s2[0] == '}' then Some((fields[key := v], s2[1..]))
            else if s2[0] == ',' then ReadMembers(s2[1..], fields[key := v])
            else None
  }

  datatype Document = NotJson | Scalar | Object(fields: map<string, Json>)

  function Loads(s: string): Document
  {
    if s == "" then NotJson
    else if "{}" == s then Object(map[])
    else if s[0] == '{' then
      var r := ReadMembers(s[1..], map[]);
      if r.None? || r.value.1 != "" then NotJson else Object(r.value.0)
    else
      var r := ReadValue(s);
      if r.None? || r.value.1 != "" then NotJson else Scalar
  }

  // ---- Reading undoes writing ----

  lemma HexDigitValue(v: int)
    requires 0 <= v < 16
    ensures HexValue(HexDigit(v)) == Some(v)
  {
  }

  lemma Nibbles(n: int)
    requires 0 <= n < 0x1_0000
    ensures n == n / 0x1000 * 0x1000 + n / 0x100 % 16 * 0x100 + n / 16 % 16 * 16 + n % 16
  {
    assert n / 16 == n / 16 / 16 * 16 + n / 16 % 16;
    assert n / 16 / 16 == n / 0x100;
    assert n / 0x100 == n / 0x100 / 16 * 16 + n / 0x100 % 16;
    assert n / 0x100 / 16 == n / 0x1000;
  }

  lemma Hex4RoundTrip(n: int, rest: string)
    requires 0 <= n < 0x1_0000
    ensures Hex4Value(Hex4(n) + rest) == Some(n)
  {
    HexDigitValue(n / 0x1000);
    HexDigitValue(n / 0x100 % 16);
    HexDigitValue(n / 16 % 16);
    HexDigitValue(n % 16);
    Nibbles(n);
  }

  lemma ReadHexEscape(n: int, rest: string)
    requires 0 <= n < 0xD800 || 0xE000 <= n < 0x1_0000
    ensures ReadChar(("\\u" + Hex4(n)) + rest) == Some((n as char, 6))
  {
    assert (("\\u" + Hex4(n)) + rest)[2..] == Hex4(n) + rest;
    Hex4RoundTrip(n, rest);
  }

  lemma {:induction false} ReadSurrogates(high: int, low: int, rest: string)
    requires 0xD800 <= high < 0xDC00 && 0xDC00 <= low < 0xE000
    ensures ReadChar(("\\u" + Hex4(high) + "\\u" + Hex4(low)) + rest)
            == Some(((0x1_0000 + (high - 0xD800) * 0x400 + (low - 0xDC00)) as char, 12))
  {
    var s := ("\\u" + Hex4(high) + "\\u" + Hex4(low)) + rest;
    assert s[2..] == Hex4(high) + ("\\u" + Hex4(low) + rest);
    assert s[8..] == Hex4(low) + rest;
    assert s[6] == '\\' && s[7] == 'u';
    Hex4RoundTrip(high, "\\u" + Hex4(low) + rest);
    Hex4RoundTrip(low, rest);
  }

  lemma ReadCharUndoesEscape(c: char, rest: string)
    ensures ReadChar(EscapeChar(c) + rest) == Some((c, |EscapeChar(c)|))
    ensures EscapeChar(c)[0] != '"'
  {
    var n := c as int;
    if 0x1_0000 <= n {
      ReadSurrogates(0xD800 + (n - 0x1_0000) / 0x400, 0xDC00 + (n - 0x1_0000) % 0x400, rest);
    } else if !IsShort(c) {
      ReadHexEscape(n, rest);
    } else {
      ReadShort(c, rest);
    }
  }

  /** Characters written as themselves or with a letter of their own. */
  predicate IsShort(c: char)
  {
    ' ' <= c <= '~' || c in "\n\r\t" || c as int == 8 || c as int == 12
  }

  lemma ReadShort(c: char, rest: string)
    requires IsShort(c)
    ensures ReadChar(EscapeChar(c) + rest) == Some((c, |EscapeChar(c)|))
    ensures EscapeChar(c)[0] != '"'
  {
  }

  lemma {:induction false} ReadStringUndoesEscape(s: string, rest: string)
    ensures ReadString(Escape(s) + ("\"" + rest)) == Some((s, rest))
    decreases |s|
  {
    if s == "" {
      assert Escape(s) + ("\"" + rest) == "\"" + rest;
      assert ("\"" + rest)[1..] == rest;
    } else {
      var e := EscapeChar(s[0]);
      var more := Escape(s[1..]) + ("\"" + rest);
      ReadStringUndoesEscape(s[1..], rest);
      ReadPastChar(s[0], more, s[1..], rest);
      Associate(e, Escape(s[1..]), "\"" + rest);
      assert s == [s[0]] + s[1..];
    }
  }

  lemma Associate(a: string, b: string, c: string)
    ensures (a + b) + c == a + (b + c)
  {
  }

  lemma ReadPastChar(c: char, more: string, s: string, rest: string)
    requires ReadString(more) == Some((s, rest))
    ensures ReadString(EscapeChar(c) + more) == Some(([c] + s, rest))
  {
    ReadCharUndoesEscape(c, more);
    var e := EscapeChar(c);
    assert (e + more)[|e|..] == more;
    assert (e + more)[0] == e[0];
  }

  lemma {:induction false} DigitsAreDigits(n: nat)
    ensures Digits(n) != "" && (forall i :: 0 <= i < |Digits(n)| ==> IsDigit(Digits(n)[i]))
    ensures NatOf(Digits(n)) == n && (|Digits(n)| > 1 ==> Digits(n)[0] != '0') && (n > 0 ==> Digits(n)[0] != '0')
    decreases n
  {
    if n >= 10 {
      DigitsAreDigits(n / 10);
      var d := Digits(n);
      assert d[..|d| - 1] == Digits(n / 10);
    } else {
      var d := Digits(n);
      assert d[..0] == "";
    }
  }

  lemma {:induction false} RunOfDigits(d: string, rest: string)
    requires forall i :: 0 <= i < |d| ==> IsDigit(d[i])
    requires rest == "" || !IsDigit(rest[0])
    ensures DigitRun(d + rest) == |d|
  {
    if d == "" {
      assert d + rest == rest;
    } else {
      RunOfDigits(d[1..], rest);
      assert (d + rest)[1..] == d[1..] + rest;
    }
  }

  /** What may follow a value in an object. */
  predicate Follows(rest: string)
  {
    rest != "" && rest[0] in ",}"
  }

  lemma ReadNatUndoesDigits(n: nat, rest: string)
    requires Follows(rest)
    ensures ReadNat(Digits(n) + rest) == Some((n, rest))
  {
    DigitsAreDigits(n);
    RunOfDigits(Digits(n), rest);
    var s := Digits(n) + rest;
    assert s[..|Digits(n)|] == Digits(n) && s[|Digits(n)|..] == rest;
  }

  lemma ReadQuoted(body: string)
    ensures ReadValue("\"" + body) ==
            var r := ReadString(body);
            if r.None? then None else Some((JString(r.value.0), r.value.1))
  {
    assert ("\"" + body)[1..] == body;
  }

  lemma Regroup(a: string, b: string, c: string, d: string)
    ensures (a + (b + c)) + d == a + (b + (c + d))
  {
  }

  lemma ReadUndoesWriteString(text: string, rest: string)
    ensures ReadValue(Write(JString(text)) + rest) == Some((JString(text), rest))
  {
    Regroup("\"", Escape(text), "\"", rest);
    ReadStringUndoesEscape(text, rest);
    ReadQuoted(Escape(text) + ("\"" + rest));
  }

  lemma ReadUndoesWriteInt(number: int, rest: string)
    requires Follows(rest)
    ensures ReadValue(Write(JInt(number)) + rest) == Some((JInt(number), rest))
  {
    if number < 0 {
      ReadNegative(-number, rest);
    } else {
      ReadPositive(number, rest);
    }
  }

  lemma ReadNegative(n: nat, rest: string)
    requires Follows(rest)
    ensures ReadValue(("-" + Digits(n)) + rest) == Some((JInt(0 - n), rest))
  {
    ReadNatUndoesDigits(n, rest);
    assert (("-" + Digits(n)) + rest)[1..] == Digits(n) + rest;
  }

  lemma ReadPositive(n: nat, rest: string)
    requires Follows(rest)
    ensures ReadValue(Digits(n) + rest) == Some((JInt(n), rest))
  {
    ReadNatUndoesDigits(n, rest);
    DigitsAreDigits(n);
    assert (Digits(n) + rest)[0] == Digits(n)[0];
  }

  lemma ReadUndoesWrite(v: Json, rest: string)
    requires Follows(rest)
    ensures ReadValue(Write(v) + rest) == Some((v, rest))
  {
    match v {
      case JString(text) => ReadUndoesWriteString(text, rest);
      case JInt(number) => ReadUndoesWriteInt(number, rest);
      case _ => assert (Write(v) + rest)[|Write(v)|..] == rest;
    }
  }

  function Collect(members: seq<Member>, fields: map<string, Json>): map<string, Json>
  {
    if members == [] then fields else Collect(members[1..], fields[members[0].0 := members[0].1])
  }

  /** One member read. */
  lemma ReadMember(key: string, v: Json, after: string, fields: map<string, Json>)
    requires Follows(after)
    ensures ReadMembers("\"" + (Escape(key) + ("\":" + (Write(v) + after))), fields)
            == if after[0] == '}' then Some((fields[key := v], after[1..])) else ReadMembers(after[1..], fields[key := v])
  {
    var text := Write(v) + after;
    QuoteColon(text);
    ReadStringUndoesEscape(key, ":" + text);
    ReadUndoesWrite(v, after);
    ReadMemberText(Escape(key) + ("\"" + (":" + text)), key, text, v, after, fields);
  }

  lemma QuoteColon(text: string)
    ensures "\":" + text == "\"" + (":" + text)
  {
  }

  lemma ReadMemberText(quoted: string, key: string, text: string, v: Json, after: string, fields: map<string, Json>)
    requires ReadString(quoted) == Some((key, ":" + text)) && ReadValue(text) == Some((v, after)) && Follows(after)
    ensures ReadMembers("\"" + quoted, fields)
            == if after[0] == '}' then Some((fields[key := v], after[1..])) else ReadMembers(after[1..], fields[key := v])
  {
    assert ("\"" + quoted)[1..] == quoted;
    assert (":" + text)[1..] == text;
  }

  function AfterFirst(members: seq<Member>): (after: string)
    requires members != []
    ensures Follows(after) && after[1..] == (if |members| > 1 then WriteMembers(members[1..]) else "")
    ensures after[0] == '}' <==> |members| == 1
  {
    if |members| > 1 then "," + WriteMembers(members[1..])
    else
      assert members[1..] == [];
      WriteMembers(members[1..])
  }

  lemma WrittenMembers(members: seq<Member>)
    requires members != []
    ensures WriteMembers(members)
            == "\"" + (Escape(members[0].0) + ("\":" + (Write(members[0].1) + AfterFirst(members))))
  {
    assert (if |members| > 1 then "," else "") + WriteMembers(members[1..]) == AfterFirst(members);
  }

  lemma {:induction false} ReadMembersUndoesWrite(members: seq<Member>, fields: map<string, Json>)
    requires members != []
    ensures ReadMembers(WriteMembers(members), fields) == Some((Collect(members, fields), ""))
    decreases |members|
  {
    var (key, v) := members[0];
    WrittenMembers(members);
    ReadMember(key, v, AfterFirst(members), fields);
    if |members| > 1 {
      ReadMembersUndoesWrite(members[1..], fields[key := v]);
    } else {
      assert members[1..] == [];
      assert Collect(members, fields) == Collect([], fields[key := v]) == fields[key := v];
    }
  }

  /** Reading a written object gives back its members, for every choice of keys and values. */
  lemma LoadsUndoesDumps(members: seq<Member>)
    ensures Loads(Dumps(members)) == Object(Collect(members, map[]))
  {
    if members == [] {
      assert Dumps(members) == "{}";
    } else {
      ReadMembersUndoesWrite(members, map[]);
      assert Dumps(members)[1..] == WriteMembers(members);
      assert Dumps(members)[1] == '"';
    }
  }

  predicate IsPrintable(s: string)
  {
    forall i :: 0 <= i < |s| ==> ' ' <= s[i] <= '~'
  }

  lemma PrintableTogether(a: string, b: string)
    requires IsPrintable(a) && IsPrintable(b)
    ensures IsPrintable(a + b)
  {
  }

  lemma {:induction false} EscapeIsPrintable(s: string)
    ensures IsPrintable(Escape(s))
  {
    if s != "" {
      EscapeIsPrintable(s[1..]);
      EscapeCharIsPrintable(s[0]);
      PrintableTogether(EscapeChar(s[0]), Escape(s[1..]));
    }
  }

  lemma HexIsPrintable(n: int)
    requires 0 <= n < 0x1_0000
    ensures IsPrintable("\\u" + Hex4(n))
  {
    HexDigitValue(n / 0x1000);
    HexDigitValue(n / 0x100 % 16);
    HexDigitValue(n / 16 % 16);
    HexDigitValue(n % 16);
  }

  lemma EscapeCharIsPrintable(c: char)
    ensures IsPrintable(EscapeChar(c))
  {
    var n := c as int;
    if 0x1_0000 <= n {
      var high, low := 0xD800 + (n - 0x1_0000) / 0x400, 0xDC00 + (n - 0x1_0000) % 0x400;
      HexIsPrintable(high);
      HexIsPrintable(low);
      PrintableTogether("\\u" + Hex4(high), "\\u" + Hex4(low));
      assert EscapeChar(c) == ("\\u" + Hex4(high)) + ("\\u" + Hex4(low));
    } else if EscapeChar(c) == "\\u" + Hex4(n) {
      HexIsPrintable(n);
    }
  }

  lemma DumpsIsPrintable(members: seq<Member>)
    ensures IsPrintable(Dumps(members))
  {
    MembersArePrintable(members);
    PrintableTogether("{", WriteMembers(members));
  }

  lemma {:induction false} MembersArePrintable(members: seq<Member>)
    ensures IsPrintable(WriteMembers(members))
  {
    if members != [] {
      var (key, v) := members[0];
      var more := (if |members| > 1 then "," else "") + WriteMembers(members[1..]);
      MembersArePrintable(members[1..]);
      EscapeIsPrintable(key);
      WriteIsPrintable(v);
      PrintableTogether(if |members| > 1 then "," else "", WriteMembers(members[1..]));
      PrintableTogether(Write(v), more);
      PrintableTogether("\":", Write(v) + more);
      PrintableTogether(Escape(key), "\":" + (Write(v) + more));
      PrintableTogether("\"", Escape(key) + ("\":" + (Write(v) + more)));
    }
  }

  lemma WriteIsPrintable(v: Json)
    ensures IsPrintable(Write(v))
  {
    match v {
      case JString(text) =>
        EscapeIsPrintable(text);
        PrintableTogether(Escape(text), "\"");
        PrintableTogether("\"", Escape(text) + "\"");
      case JInt(number) => SignedIsPrintable(number);
      case _ =>
    }
  }

  lemma SignedIsPrintable(number: int)
    ensures IsPrintable(Signed(number))
  {
    DigitsAreDigits(if number < 0 then -number else number);
  }

  /** Printable text that needs no escaping. */
  predicate IsPlain(s: string)
  {
    forall i :: 0 <= i < |s| ==> ' ' <= s[i] <= '~' && s[i] != '"' && s[i] != '\\'
  }

  lemma {:induction false} PlainIsNotEscaped(s: string)
    requires IsPlain(s)
    ensures Escape(s) == s
  {
    if s != "" {
      PlainIsNotEscaped(s[1..]);
    }
  }
}
