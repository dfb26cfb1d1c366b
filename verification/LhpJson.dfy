/** Compact JSON as loop-to-loop payloads are written and signed (app/lhp.py), and that it can be read back. */
module LhpJson {
  /** What `repr` of a number is written with. */
  predicate IsNumberChar(c: char) {
    '0' <= c <= '9' || c == '+' || c == '-' || c == '.' || 'a' <= c <= 'z' || 'A' <= c <= 'Z'
  }

  /** A number begins with a digit, a sign, or the capital of `NaN` or `Infinity`. */
  predicate IsNumber(s: string) {
    && s != "" && ('0' <= s[0] <= '9' || s[0] == '-' || s[0] == 'N' || s[0] == 'I')
    && forall c | c in s :: IsNumberChar(c)
  }

  type NumberText = s: string | IsNumber(s) witness "0"

  datatype Json =
    | Null
    | Boolean(b: bool)
    | Number(text: NumberText)
    | Text(s: string)
    | Items(items: seq<Json>)
    | Members(members: seq<Member>)

  datatype Member = Member(key: string, value: Json)

  function HexDigit(n: nat): char
    requires n < 16
  {
    if n < 10 then '0' + n as char else 'a' + (n - 10) as char
  }

  /** JSON escaping that keeps characters outside ASCII: section 7 of RFC 8259. */
  function EscapeChar(c: char): string {
    if c == '"' then ['\\', '"']
    else if c == '\\' then ['\\', '\\']
    else if c == '\n' then ['\\', 'n']
    else if c == '\r' then ['\\', 'r']
    else if c == '\t' then ['\\', 't']
    else if c == '\U{8}' then ['\\', 'b']
    else if c == '\U{c}' then ['\\', 'f']
    else if c < ' ' then ['\\', 'u', '0', '0', HexDigit(c as nat / 16), HexDigit(c as nat % 16)]
    else [c]
  }

  function Escape(s: string): string {
    if s == [] then [] else EscapeChar(s[0]) + Escape(s[1..])
  }

  function Quote(s: string): string {
    ['"'] + Escape(s) + ['"']
  }

  /** Compact JSON; members come in the order of their sorted keys. */
  function Render(j: Json): string
    decreases j, 1
  {
    match j
    case Null => "null"
    case Boolean(b) => if b then "true" else "false"
    case Number(text) => text
    case Text(s) => Quote(s)
    case Items(items) => ['['] + RenderItems(items) + [']']
    case Members(members) => ['{'] + RenderMembers(members) + ['}']
  }

  function RenderItems(items: seq<Json>): string
    decreases items, 0
  {
    if items == [] then []
    else if |items| == 1 then Render(items[0])
    else Render(items[0]) + [','] + RenderItems(items[1..])
  }

  function RenderMember(m: Member): string
    decreases m, 1
  {
    Quote(m.key) + [':'] + Render(m.value)
  }

  function RenderMembers(members: seq<Member>): string
    decreases members, 0
  {
    if members == [] then []
    else if |members| == 1 then RenderMember(members[0])
    else RenderMember(members[0]) + [','] + RenderMembers(members[1..])
  }

  predicate OneLine(s: string) {
    forall i | 0 <= i < |s| :: s[i] != '\n'
  }

  lemma {:induction false} EscapeIsOneLine(s: string)
    ensures OneLine(Escape(s))
  {
    if s != [] {
      EscapeIsOneLine(s[1..]);
      assert OneLine(EscapeChar(s[0]));
    }
  }

  // --- reading it back ---

  function HexValue(c: char): nat {
    if '0' <= c <= '9' then (c - '0') as nat else if 'a' <= c <= 'f' then (c - 'a') as nat + 10 else 0
  }

  /** The character that an escape sequence at the front stands for, and the rest. */
  function UnescapeOne(s: string): (r: (char, string))
    requires s != ""
    ensures |r.1| < |s|
  {
    if s[0] != '\\' || |s| < 2 then (s[0], s[1..])
    else if s[1] == 'n' then ('\n', s[2..])
    else if s[1] == 'r' then ('\r', s[2..])
    else if s[1] == 't' then ('\t', s[2..])
    else if s[1] == 'b' then ('\U{8}', s[2..])
    else if s[1] == 'f' then ('\U{c}', s[2..])
    else if s[1] == 'u' && |s| >= 6 then ((16 * HexValue(s[4]) + HexValue(s[5])) as char, s[6..])
    else (s[1], s[2..])
  }

  /** Everything but the first character, if there is one. */
  function Rest(s: string): (r: string)
    ensures |r| <= |s| && (s != "" ==> |r| < |s|)
  {
    if s == "" then "" else s[1..]
  }

  predicate At(s: string, c: char) {
    s != "" && s[0] == c
  }

  /** The text up to the closing quote, and what follows that. */
  function ReadText(s: string): (r: (string, string))
    ensures |r.1| <= |s|
    decreases |s|
  {
    if s == "" || s[0] == '"' then ("", Rest(s))
    else
      var (c, rest) := UnescapeOne(s);
      var (text, more) := ReadText(rest);
      ([c] + text, more)
  }

  function NumberLength(s: string): (n: nat)
    ensures n <= |s|
  {
    if s == "" || !IsNumberChar(s[0]) then 0 else 1 + NumberLength(s[1..])
  }

  /** The value at the front, and what follows it. */
  function Read(s: string): (r: (Json, string))
    ensures |r.1| <= |s|
    decreases |s|, 0
  {
    if At(s, '"') then
      var (text, rest) := ReadText(s[1..]);
      (Text(text), rest)
    else if At(s, '[') then
      if At(s[1..], ']') then (Items([]), s[2..])
      else
        var (items, rest) := ReadItems(s[1..]);
        (Items(items), rest)
    else if At(s, '{') then
      if At(s[1..], '}') then (Members([]), s[2..])
      else
        var (members, rest) := ReadMembers(s[1..]);
        (Members(members), rest)
    else if "true" <= s then (Boolean(true), s[4..])
    else if "false" <= s then (Boolean(false), s[5..])
    else
      var n := NumberLength(s);
      if IsNumber(s[..n]) then (Number(s[..n]), s[n..])
      else (Null, if "null" <= s then s[4..] else s)
  }

  /** Values separated by commas, up to a closing bracket. */
  function ReadItems(s: string): (r: (seq<Json>, string))
    ensures |r.1| <= |s|
    decreases |s|, 1
  {
    var (item, rest) := Read(s);
    if At(rest, ',') then
      var (items, more) := ReadItems(rest[1..]);
      ([item] + items, more)
    else ([item], Rest(rest))
  }

  function ReadMember(s: string): (r: (Member, string))
    ensures |r.1| <= |s|
    decreases |s|, 1
  {
    var (key, after) := ReadText(Rest(s));
    if after == "" then (Member(key, Null), "")
    else
      var (value, rest) := Read(after[1..]);
      (Member(key, value), rest)
  }

  function ReadMembers(s: string): (r: (seq<Member>, string))
    ensures |r.1| <= |s|
    decreases |s|, 2
  {
    var (member, rest) := ReadMember(s);
    if At(rest, ',') then
      var (members, more) := ReadMembers(rest[1..]);
      ([member] + members, more)
    else ([member], Rest(rest))
  }

  // --- what was written is what is read ---

  lemma UnescapeChar(c: char, rest: string)
    ensures EscapeChar(c) != "" && EscapeChar(c)[0] != '"' && UnescapeOne(EscapeChar(c) + rest) == (c, rest)
  {
    var s := EscapeChar(c) + rest;
    assert s[|EscapeChar(c)|..] == rest;
    if c < ' ' {
      assert c as nat == 16 * (c as nat / 16) + c as nat % 16;
    }
  }

  lemma Assoc(a: string, b: string, c: string)
    ensures a + (b + c) == a + b + c
  {
  }

  lemma Past(c: char, s: string)
    ensures At([c] + s, c) && ([c] + s)[1..] == s && Rest([c] + s) == s
    ensures forall d :: At([c] + s, d) <==> d == c
  {
  }

  lemma ReadTextStep(s: string, c: char, rest: string)
    requires s != "" && s[0] != '"' && UnescapeOne(s) == (c, rest)
    ensures ReadText(s) == ([c] + ReadText(rest).0, ReadText(rest).1)
  {
    hide UnescapeOne;
  }

  /** An escaped text reads as the text. */
  lemma {:induction false} EscapeRoundTrip(s: string, rest: string)
    ensures ReadText(Escape(s) + (['"'] + rest)) == (s, rest)
  {
    hide EscapeChar, UnescapeOne;
    if s == "" {
      assert Escape(s) + (['"'] + rest) == ['"'] + rest;
      Past('"', rest);
    } else {
      var after := Escape(s[1..]) + (['"'] + rest);
      EscapeRoundTrip(s[1..], rest);
      UnescapeChar(s[0], after);
      Assoc(EscapeChar(s[0]), Escape(s[1..]), ['"'] + rest);
      ReadTextStep(EscapeChar(s[0]) + after, s[0], after);
      assert s == [s[0]] + s[1..];
    }
  }

  /** No number goes on here. */
  predicate Ends(rest: string) {
    rest == "" || !IsNumberChar(rest[0])
  }

  lemma {:induction false} NumberLengthIs(text: string, rest: string)
    requires (forall c | c in text :: IsNumberChar(c)) && Ends(rest)
    ensures NumberLength(text + rest) == |text|
  {
    hide IsNumberChar;
    if text == "" {
      assert text + rest == rest;
    } else {
      assert (text + rest)[1..] == text[1..] + rest;
      assert forall c | c in text[1..] :: c in text;
      assert text[0] in text;
      NumberLengthIs(text[1..], rest);
    }
  }

  lemma ReadNumber(text: NumberText, rest: string)
    requires Ends(rest)
    ensures Read(text + rest) == (Number(text), rest)
  {
    NumberLengthIs(text, rest);
    var s := text + rest;
    assert s[..|text|] == text && s[|text|..] == rest && s[0] == text[0];
  }

  lemma ReadQuoted(text: string, rest: string)
    ensures Read(Quote(text) + rest) == (Text(text), rest)
  {
    QuoteThen(text, rest);
    EscapeRoundTrip(text, rest);
    Past('"', Escape(text) + (['"'] + rest));
    hide ReadText, Escape;
  }

  lemma QuoteThen(text: string, rest: string)
    ensures Quote(text) + rest == ['"'] + (Escape(text) + (['"'] + rest))
  {
  }

  /** No rendered value begins like the end of a list. */
  lemma RenderBegins(j: Json)
    ensures Render(j) != "" && Render(j)[0] != ']'
  {
  }

  lemma Front(a: string, b: string)
    requires a != ""
    ensures forall c :: At(a + b, c) <==> At(a, c)
  {
  }

  /** A rendered value reads as the value, whatever follows it. */
  lemma {:induction false} ReadRender(j: Json, rest: string)
    requires Ends(rest)
    ensures Read(Render(j) + rest) == (j, rest)
    decreases j, 1
  {
    match j
    case Null =>
      assert ("null" + rest)[4..] == rest;
    case Boolean(b) =>
      assert (if b then ("true" + rest)[4..] else ("false" + rest)[5..]) == rest;
    case Number(text) =>
      ReadNumber(text, rest);
    case Text(s) =>
      ReadQuoted(s, rest);
    case Items(items) =>
      if items == [] {
        assert Render(j) + rest == "[]" + rest;
        assert ("[]" + rest)[2..] == rest;
      } else {
        ReadRenderItems(items, rest);
        ListReads(items, rest);
      }
    case Members(members) =>
      if members == [] {
        assert Render(j) + rest == "{}" + rest;
        assert ("{}" + rest)[2..] == rest;
      } else {
        ReadRenderMembers(members, rest);
        MappingReads(members, rest);
      }
  }

  lemma ListReads(items: seq<Json>, rest: string)
    requires items != [] && ReadItems(RenderItems(items) + ([']'] + rest)) == (items, rest)
    ensures Read(Render(Items(items)) + rest) == (Items(items), rest)
  {
    var inner := RenderItems(items) + ([']'] + rest);
    assert Render(Items(items)) + rest == ['['] + inner;
    assert RenderItems(items) != "" && RenderItems(items)[0] != ']' by { RenderBegins(items[0]); }
    Front(RenderItems(items), [']'] + rest);
    Past('[', inner);
    hide ReadItems, RenderItems;
  }

  lemma MappingReads(members: seq<Member>, rest: string)
    requires members != [] && ReadMembers(RenderMembers(members) + (['}'] + rest)) == (members, rest)
    ensures Read(Render(Members(members)) + rest) == (Members(members), rest)
  {
    var inner := RenderMembers(members) + (['}'] + rest);
    assert Render(Members(members)) + rest == ['{'] + inner;
    assert RenderMembers(members) != "" && RenderMembers(members)[0] == '"';
    Front(RenderMembers(members), ['}'] + rest);
    Past('{', inner);
    hide ReadMembers, RenderMembers;
  }

  lemma {:induction false} ReadRenderItems(items: seq<Json>, rest: string)
    requires items != []
    ensures ReadItems(RenderItems(items) + ([']'] + rest)) == (items, rest)
    decreases items, 0
  {
    hide Read, Render, ReadItems;
    var close := [']'] + rest;
    Past(']', rest);
    if |items| == 1 {
      ReadRender(items[0], close);
      ItemsEnd(Render(items[0]) + close, items[0], close);
      assert items == [items[0]];
    } else {
      var more := RenderItems(items[1..]) + close;
      Past(',', more);
      ReadRenderItems(items[1..], rest);
      ReadRender(items[0], [','] + more);
      assert RenderItems(items) + close == Render(items[0]) + ([','] + more);
      ItemsGoOn(Render(items[0]) + ([','] + more), items[0], [','] + more);
      assert items == [items[0]] + items[1..];
    }
  }

  lemma ItemsEnd(s: string, item: Json, after: string)
    requires Read(s) == (item, after) && !At(after, ',')
    ensures ReadItems(s) == ([item], Rest(after))
  {
    hide Read;
  }

  lemma ItemsGoOn(s: string, item: Json, after: string)
    requires Read(s) == (item, after) && At(after, ',')
    ensures ReadItems(s) == ([item] + ReadItems(after[1..]).0, ReadItems(after[1..]).1)
  {
    hide Read;
  }

  lemma {:induction false} ReadRenderMember(m: Member, rest: string)
    requires Ends(rest)
    ensures ReadMember(RenderMember(m) + rest) == (m, rest)
    decreases m, 2
  {
    var after := [':'] + (Render(m.value) + rest);
    ReadRender(m.value, rest);
    hide Read, Render, ReadText, Escape;
    assert RenderMember(m) + rest == Quote(m.key) + after;
    QuoteThen(m.key, after);
    EscapeRoundTrip(m.key, after);
    Past('"', Escape(m.key) + (['"'] + after));
    Past(':', Render(m.value) + rest);
  }

  lemma {:induction false} ReadRenderMembers(members: seq<Member>, rest: string)
    requires members != []
    ensures ReadMembers(RenderMembers(members) + (['}'] + rest)) == (members, rest)
    decreases members, 0
  {
    hide ReadMember, RenderMember, ReadMembers;
    var close := ['}'] + rest;
    Past('}', rest);
    if |members| == 1 {
      ReadRenderMember(members[0], close);
      MembersEnd(RenderMember(members[0]) + close, members[0], close);
      assert members == [members[0]];
    } else {
      var more := RenderMembers(members[1..]) + close;
      Past(',', more);
      ReadRenderMembers(members[1..], rest);
      ReadRenderMember(members[0], [','] + more);
      assert RenderMembers(members) + close == RenderMember(members[0]) + ([','] + more);
      MembersGoOn(RenderMember(members[0]) + ([','] + more), members[0], [','] + more);
      assert members == [members[0]] + members[1..];
    }
  }

  lemma MembersEnd(s: string, member: Member, after: string)
    requires ReadMember(s) == (member, after) && !At(after, ',')
    ensures ReadMembers(s) == ([member], Rest(after))
  {
    hide ReadMember;
  }

  lemma MembersGoOn(s: string, member: Member, after: string)
    requires ReadMember(s) == (member, after) && At(after, ',')
    ensures ReadMembers(s) == ([member] + ReadMembers(after[1..]).0, ReadMembers(after[1..]).1)
  {
    hide ReadMember;
  }

  /** So distinct values are written differently. */
  lemma RenderInjective(a: Json, b: Json)
    ensures Render(a) == Render(b) <==> a == b
  {
    ReadRender(a, "");
    ReadRender(b, "");
    assert Render(a) + "" == Render(a) && Render(b) + "" == Render(b);
    hide Read, Render;
  }

  // --- one line ---

  /** Compact JSON never contains a raw line feed, whatever text the value holds. */
  lemma {:induction false} RenderIsOneLine(j: Json)
    ensures OneLine(Render(j))
    decreases j, 1
  {
    match j
    case Null =>
    case Boolean(b) =>
    case Number(text) => assert forall i | 0 <= i < |text| :: text[i] in text;
    case Text(s) => EscapeIsOneLine(s);
    case Items(items) => RenderItemsIsOneLine(items);
    case Members(members) => RenderMembersIsOneLine(members);
  }

  lemma {:induction false} RenderItemsIsOneLine(items: seq<Json>)
    ensures OneLine(RenderItems(items))
    decreases items, 0
  {
    if items != [] {
      RenderIsOneLine(items[0]);
      RenderItemsIsOneLine(items[1..]);
    }
  }

  lemma {:induction false} RenderMembersIsOneLine(members: seq<Member>)
    ensures OneLine(RenderMembers(members))
    decreases members, 0
  {
    if members != [] {
      RenderMemberIsOneLine(members[0]);
      RenderMembersIsOneLine(members[1..]);
    }
  }

  lemma {:induction false} RenderMemberIsOneLine(m: Member)
    ensures OneLine(RenderMember(m))
    decreases m, 1
  {
    EscapeIsOneLine(m.key);
    RenderIsOneLine(m.value);
  }
}
