/**
 The lines of a running configuration that the lead check reads (app/posture/scanner.py), once as
 readers and once as shapes of text; each reader accepts exactly its shape.
 */
module ConfigLines {
  import opened Wrappers
  import opened RouteMaps
  import Labels
  import LhpPayload
  import LhpTokens

  // --- readers ---

  /** The address of a neighbour line, and the rest after it. */
  function NeighborLine(line: string): Option<(string, string)> {
    match After("neighbor ", SkipSpaces(line))
    case None => None
    case Some(rest) =>
      var n := Labels.WordLength(rest);
      if n > 0 then Some((rest[..n], rest[n..])) else None
  }

  function DigitValue(c: char): nat
    requires IsDigit(c)
  {
    if '0' <= c <= '9' then (c - '0') as nat else DIGIT_BEYOND_ASCII[c]
  }

  /** The number that the leading digits spell. */
  function LeadingNumber(s: string, sofar: nat): nat {
    if s != [] && IsDigit(s[0]) then LeadingNumber(s[1..], 10 * sofar + DigitValue(s[0])) else sofar
  }

  /** Nothing of a word goes on. */
  predicate WordEnds(s: string) {
    s == [] || !(LhpTokens.IsAlnum(s[0]) || s[0] == '_')
  }

  /** `neighbor IP remote-as N` */
  function RemoteAs(line: string): Option<(string, nat)> {
    match NeighborLine(line)
    case None => None
    case Some((ip, rest)) =>
      match After(" remote-as ", rest)
      case Some(number) => if number != [] && IsDigit(number[0]) then Some((ip, LeadingNumber(number, 0))) else None
      case None => None
  }

  /** `neighbor IP route-map NAME in` */
  function InboundMap(line: string): Option<(string, string)> {
    match NeighborLine(line)
    case None => None
    case Some((ip, rest)) =>
      match After(" route-map ", rest)
      case None => None
      case Some(named) =>
        var n := Labels.WordLength(named);
        match After(" in", named[n..])
        case Some(end) => if n > 0 && WordEnds(end) then Some((ip, named[..n])) else None
        case None => None
  }

  /** `neighbor IP maximum-prefix` */
  function MaxPrefix(line: string): Option<(string, ())> {
    match NeighborLine(line)
    case None => None
    case Some((ip, rest)) =>
      match After(" maximum-prefix", rest)
      case Some(end) => if WordEnds(end) then Some((ip, ())) else None
      case None => None
  }

  /** `router bgp N` */
  function RouterBgp(line: string): Option<nat> {
    match After("router bgp ", SkipSpaces(line))
    case Some(number) => if number != [] && IsDigit(number[0]) then Some(LeadingNumber(number, 0)) else None
    case None => None
  }

  // --- shapes ---

  predicate Blanks(s: string) {
    forall c | c in s :: Labels.IsSpace(c)
  }

  predicate Word(s: string) {
    s != "" && forall c | c in s :: !Labels.IsSpace(c)
  }

  predicate Digits(s: string) {
    s != "" && forall c | c in s :: IsDigit(c)
  }

  /** The number that digits spell, from the last one up. */
  function NumberOf(digits: string): nat
    requires forall c | c in digits :: IsDigit(c)
  {
    if digits == "" then 0
    else
      assert forall c | c in digits[..|digits| - 1] :: c in digits;
      10 * NumberOf(digits[..|digits| - 1]) + DigitValue(digits[|digits| - 1])
  }

  /** The digits do not go on. */
  predicate DigitsEnd(rest: string) {
    rest == "" || !IsDigit(rest[0])
  }

  ghost predicate RemoteAsLine(line: string, ip: string, number: nat) {
    exists blanks, digits, rest :: RemoteAsShape(line, blanks, ip, digits, rest) && number == NumberOf(digits)
  }

  predicate RemoteAsShape(line: string, blanks: string, ip: string, digits: string, rest: string) {
    && Blanks(blanks) && Word(ip) && Digits(digits) && DigitsEnd(rest)
    && line == blanks + "neighbor " + ip + " remote-as " + digits + rest
  }

  ghost predicate InboundMapLine(line: string, ip: string, name: string) {
    exists blanks, rest :: InboundMapShape(line, blanks, ip, name, rest)
  }

  predicate InboundMapShape(line: string, blanks: string, ip: string, name: string, rest: string) {
    && Blanks(blanks) && Word(ip) && Word(name) && WordEnds(rest)
    && line == blanks + "neighbor " + ip + " route-map " + name + " in" + rest
  }

  ghost predicate MaxPrefixLine(line: string, ip: string) {
    exists blanks, rest :: MaxPrefixShape(line, blanks, ip, rest)
  }

  predicate MaxPrefixShape(line: string, blanks: string, ip: string, rest: string) {
    && Blanks(blanks) && Word(ip) && WordEnds(rest)
    && line == blanks + "neighbor " + ip + " maximum-prefix" + rest
  }

  ghost predicate RouterBgpLine(line: string, number: nat) {
    exists blanks, digits, rest :: RouterBgpShape(line, blanks, digits, rest) && number == NumberOf(digits)
  }

  predicate RouterBgpShape(line: string, blanks: string, digits: string, rest: string) {
    && Blanks(blanks) && Digits(digits) && DigitsEnd(rest)
    && line == blanks + "router bgp " + digits + rest
  }

  ghost predicate HeaderLine(line: string, name: string) {
    exists blanks, verb, rest :: HeaderShape(line, blanks, name, verb, rest)
  }

  predicate HeaderShape(line: string, blanks: string, name: string, verb: string, rest: string) {
    && Blanks(blanks) && Word(name) && (verb == " permit " || verb == " deny ") && rest != "" && IsDigit(rest[0])
    && line == blanks + "route-map " + name + verb + rest
  }

  // --- the parts of a line ---

  lemma AfterIff(prefix: string, s: string, rest: string)
    ensures After(prefix, s) == Some(rest) <==> s == prefix + rest
  {
  }

  /** Skipping takes off exactly the leading whitespace. */
  lemma {:induction false} SkipOff(blanks: string, rest: string)
    requires Blanks(blanks) && (rest == "" || !Labels.IsSpace(rest[0]))
    ensures SkipSpaces(blanks + rest) == rest
  {
    if blanks == "" {
      assert blanks + rest == rest;
    } else {
      assert (blanks + rest)[0] == blanks[0] && (blanks + rest)[1..] == blanks[1..] + rest;
      SkipOff(blanks[1..], rest);
    }
  }

  lemma SkipOne(s: string)
    ensures SkipSpaces(s) == if s != "" && Labels.IsSpace(s[0]) then SkipSpaces(s[1..]) else s
  {
  }

  lemma OneMoreBlank(c: char, blanks: string)
    requires Labels.IsSpace(c) && Blanks(blanks)
    ensures Blanks([c] + blanks)
  {
  }

  lemma {:induction false} Skipped(s: string) returns (blanks: string)
    ensures Blanks(blanks) && s == blanks + SkipSpaces(s)
    ensures SkipSpaces(s) == "" || !Labels.IsSpace(SkipSpaces(s)[0])
  {
    hide SkipSpaces, Blanks, Labels.IsSpace;
    SkipOne(s);
    if s != "" && Labels.IsSpace(s[0]) {
      var more := Skipped(s[1..]);
      OneMoreBlank(s[0], more);
      blanks := [s[0]] + more;
      Labels.Assoc([s[0]], more, SkipSpaces(s[1..]));
      assert s == [s[0]] + s[1..];
    } else {
      blanks := "";
      NoBlanks();
      assert s == "" + s;
    }
  }

  lemma NoBlanks()
    ensures Blanks("")
  {
  }

  predicate EndsWord(rest: string) {
    rest == "" || Labels.IsSpace(rest[0])
  }

  /** The word that a text begins with. */
  lemma {:induction false} WordAt(word: string, rest: string)
    requires Word(word) && EndsWord(rest)
    ensures Labels.WordLength(word + rest) == |word|
  {
    assert (word + rest)[0] == word[0] && (word + rest)[1..] == word[1..] + rest;
    if |word| == 1 {
      assert word[1..] + rest == rest;
    } else {
      WordAt(word[1..], rest);
    }
  }

  lemma FirstWord(s: string)
    ensures var n := Labels.WordLength(s);
            && EndsWord(s[n..]) && (n > 0 ==> Word(s[..n])) && s == s[..n] + s[n..]
  {
  }

  lemma {:induction false} LeadingIs(digits: string, rest: string, sofar: nat)
    requires (forall c | c in digits :: IsDigit(c)) && DigitsEnd(rest)
    ensures LeadingNumber(digits + rest, sofar) == Shifted(sofar, |digits|) + NumberOf(digits)
  {
    if digits == "" {
      assert digits + rest == rest;
    } else {
      assert (digits + rest)[0] == digits[0] && (digits + rest)[1..] == digits[1..] + rest;
      LeadingIs(digits[1..], rest, 10 * sofar + DigitValue(digits[0]));
      NumberFront(digits);
      ShiftMore(sofar, DigitValue(digits[0]), |digits| - 1);
    }
  }

  /** `n` times ten to the `k`. */
  function Shifted(n: nat, k: nat): nat {
    if k == 0 then n else 10 * Shifted(n, k - 1)
  }

  lemma {:induction false} ShiftMore(n: nat, d: nat, k: nat)
    ensures Shifted(10 * n + d, k) == Shifted(n, k + 1) + Shifted(d, k)
  {
    if k > 0 {
      ShiftMore(n, d, k - 1);
    } else {
      assert Shifted(n, 1) == 10 * Shifted(n, 0);
    }
  }

  lemma {:induction false} NumberFront(digits: string)
    requires digits != "" && forall c | c in digits :: IsDigit(c)
    ensures NumberOf(digits) == Shifted(DigitValue(digits[0]), |digits| - 1) + NumberOf(digits[1..])
  {
    var n := |digits| - 1;
    if n > 0 {
      NumberFront(digits[..n]);
      assert digits[..n][1..] == digits[1..][..n - 1];
      assert digits[1..][n - 1] == digits[n];
    } else {
      assert digits[..n] == "" && digits[1..] == "";
    }
  }

  lemma {:induction false} LeadingDigits(s: string) returns (digits: string, rest: string)
    requires s != "" && IsDigit(s[0])
    ensures Digits(digits) && DigitsEnd(rest) && s == digits + rest
  {
    if |s| > 1 && IsDigit(s[1]) {
      digits, rest := LeadingDigits(s[1..]);
      digits := [s[0]] + digits;
      assert s == [s[0]] + s[1..];
    } else {
      digits, rest := s[..1], s[1..];
    }
  }

  lemma ZeroShift(k: nat)
    ensures Shifted(0, k) == 0
  {
  }

  // --- each reader accepts exactly its shape ---

  lemma Join3(a: string, b: string, c: string)
    ensures a + (b + c) == a + b + c
  {
  }

  lemma Join4(a: string, b: string, c: string, d: string)
    ensures a + (b + (c + d)) == a + b + c + d
    ensures a + (b + c + d) == a + b + c + d
  {
    Join3(b, c, d);
    Join3(a, b + c, d);
    Join3(a, b, c);
  }

  lemma Join5(a: string, b: string, c: string, d: string, e: string)
    ensures a + b + c + (d + e) == a + b + c + d + e
  {
    Join3(a + b + c, d, e);
  }

  lemma Join6(a: string, b: string, c: string, d: string, e: string, f: string)
    ensures a + b + c + (d + (e + f)) == a + b + c + d + e + f
  {
    Join4(a + b + c, d, e, f);
  }

  lemma Join7(a: string, b: string, c: string, d: string, e: string, f: string, g: string)
    ensures a + b + c + (d + (e + (f + g))) == a + b + c + d + e + f + g
  {
    Join4(d, e, f, g);
    Join4(a + b + c, d, e, f + g);
    Join3(a + b + c + d + e, f, g);
  }

  predicate NeighborShape(line: string, blanks: string, ip: string, rest: string) {
    Blanks(blanks) && Word(ip) && EndsWord(rest) && line == blanks + "neighbor " + ip + rest
  }

  lemma NeighborOf(line: string, blanks: string, ip: string, rest: string)
    requires NeighborShape(line, blanks, ip, rest)
    ensures NeighborLine(line) == Some((ip, rest))
  {
    var said := "neighbor " + (ip + rest);
    assert said[0] == 'n';
    Join4(blanks, "neighbor ", ip, rest);
    SkipOff(blanks, said);
    AfterIff("neighbor ", said, ip + rest);
    WordAt(ip, rest);
    hide SkipSpaces, Blanks, Word;
    assert (ip + rest)[..|ip|] == ip && (ip + rest)[|ip|..] == rest;
  }

  lemma NeighborGives(line: string) returns (blanks: string)
    requires NeighborLine(line).Some?
    ensures NeighborShape(line, blanks, NeighborLine(line).value.0, NeighborLine(line).value.1)
  {
    blanks := Skipped(line);
    var rest := After("neighbor ", SkipSpaces(line)).value;
    AfterIff("neighbor ", SkipSpaces(line), rest);
    FirstWord(rest);
    hide SkipSpaces, Blanks, Word, EndsWord;
    var (ip, more) := NeighborLine(line).value;
    Join4(blanks, "neighbor ", ip, more);
  }

  lemma LeadingReads(number: string, digits: string, rest: string)
    requires Digits(digits) && DigitsEnd(rest) && number == digits + rest
    ensures number != "" && IsDigit(number[0]) && LeadingNumber(number, 0) == NumberOf(digits)
  {
    LeadingIs(digits, rest, 0);
    ZeroShift(|digits|);
    assert number[0] == digits[0];
  }

  lemma RemoteAsOf(line: string, blanks: string, ip: string, digits: string, rest: string)
    requires RemoteAsShape(line, blanks, ip, digits, rest)
    ensures RemoteAs(line) == Some((ip, NumberOf(digits)))
  {
    var more := " remote-as " + (digits + rest);
    assert more[0] == ' ';
    Join6(blanks, "neighbor ", ip, " remote-as ", digits, rest);
    hide Blanks, Word, NeighborLine, Digits, DigitsEnd;
    NeighborOf(line, blanks, ip, more);
    AfterIff(" remote-as ", more, digits + rest);
    LeadingReads(digits + rest, digits, rest);
  }

  lemma RemoteAsGives(line: string)
    requires RemoteAs(line).Some?
    ensures RemoteAsLine(line, RemoteAs(line).value.0, RemoteAs(line).value.1)
  {
    hide Blanks, Word, NeighborLine, Digits, DigitsEnd;
    var blanks := NeighborGives(line);
    var (ip, more) := NeighborLine(line).value;
    var number := After(" remote-as ", more).value;
    AfterIff(" remote-as ", more, number);
    var digits, rest := LeadingDigits(number);
    LeadingReads(number, digits, rest);
    Join6(blanks, "neighbor ", ip, " remote-as ", digits, rest);
    assert RemoteAsShape(line, blanks, ip, digits, rest);
  }

  /** `neighbor IP remote-as N`: anything may follow but another digit. */
  lemma RemoteAsIff(line: string, ip: string, number: nat)
    ensures RemoteAs(line) == Some((ip, number)) <==> RemoteAsLine(line, ip, number)
  {
    if RemoteAsLine(line, ip, number) {
      var blanks, digits, rest :| RemoteAsShape(line, blanks, ip, digits, rest) && number == NumberOf(digits);
      RemoteAsOf(line, blanks, ip, digits, rest);
    }
    hide RemoteAs, RemoteAsLine;
    if RemoteAs(line).Some? {
      RemoteAsGives(line);
    }
  }

  lemma InboundMapOf(line: string, blanks: string, ip: string, name: string, rest: string)
    requires InboundMapShape(line, blanks, ip, name, rest)
    ensures InboundMap(line) == Some((ip, name))
  {
    var named := name + (" in" + rest);
    var more := " route-map " + named;
    assert more[0] == ' ' && (" in" + rest)[0] == ' ';
    Join7(blanks, "neighbor ", ip, " route-map ", name, " in", rest);
    WordAt(name, " in" + rest);
    hide Blanks, Word, NeighborLine, WordEnds;
    NeighborOf(line, blanks, ip, more);
    AfterIff(" route-map ", more, named);
    assert named[..|name|] == name && named[|name|..] == " in" + rest;
    AfterIff(" in", " in" + rest, rest);
  }

  lemma InboundMapGives(line: string)
    requires InboundMap(line).Some?
    ensures InboundMapLine(line, InboundMap(line).value.0, InboundMap(line).value.1)
  {
    hide Blanks, Word, NeighborLine, WordEnds;
    var blanks := NeighborGives(line);
    var (ip, more) := NeighborLine(line).value;
    var named := After(" route-map ", more).value;
    AfterIff(" route-map ", more, named);
    var n := Labels.WordLength(named);
    FirstWord(named);
    var rest := After(" in", named[n..]).value;
    AfterIff(" in", named[n..], rest);
    Join7(blanks, "neighbor ", ip, " route-map ", named[..n], " in", rest);
    assert InboundMapShape(line, blanks, ip, named[..n], rest);
  }

  /** `neighbor IP route-map NAME in`, and nothing of a word goes on: neither `out` nor `inbound`. */
  lemma InboundMapIff(line: string, ip: string, name: string)
    ensures InboundMap(line) == Some((ip, name)) <==> InboundMapLine(line, ip, name)
  {
    if InboundMapLine(line, ip, name) {
      var blanks, rest :| InboundMapShape(line, blanks, ip, name, rest);
      InboundMapOf(line, blanks, ip, name, rest);
    }
    hide InboundMap, InboundMapLine;
    if InboundMap(line).Some? {
      InboundMapGives(line);
    }
  }

  lemma MaxPrefixOf(line: string, blanks: string, ip: string, rest: string)
    requires MaxPrefixShape(line, blanks, ip, rest)
    ensures MaxPrefix(line) == Some((ip, ()))
  {
    var more := " maximum-prefix" + rest;
    assert more[0] == ' ';
    Join5(blanks, "neighbor ", ip, " maximum-prefix", rest);
    hide Blanks, Word, NeighborLine, WordEnds;
    NeighborOf(line, blanks, ip, more);
    AfterIff(" maximum-prefix", more, rest);
  }

  lemma MaxPrefixGives(line: string)
    requires MaxPrefix(line).Some?
    ensures MaxPrefixLine(line, MaxPrefix(line).value.0)
  {
    hide Blanks, Word, NeighborLine, WordEnds;
    var blanks := NeighborGives(line);
    var (ip, more) := NeighborLine(line).value;
    var rest := After(" maximum-prefix", more).value;
    AfterIff(" maximum-prefix", more, rest);
    Join5(blanks, "neighbor ", ip, " maximum-prefix", rest);
    assert MaxPrefixShape(line, blanks, ip, rest);
  }

  /** `neighbor IP maximum-prefix`, with or without a number after it. */
  lemma MaxPrefixIff(line: string, ip: string)
    ensures MaxPrefix(line) == Some((ip, ())) <==> MaxPrefixLine(line, ip)
  {
    if MaxPrefixLine(line, ip) {
      var blanks, rest :| MaxPrefixShape(line, blanks, ip, rest);
      MaxPrefixOf(line, blanks, ip, rest);
    }
    hide MaxPrefix, MaxPrefixLine;
    if MaxPrefix(line).Some? {
      MaxPrefixGives(line);
    }
  }

  lemma RouterBgpOf(line: string, blanks: string, digits: string, rest: string)
    requires RouterBgpShape(line, blanks, digits, rest)
    ensures RouterBgp(line) == Some(NumberOf(digits))
  {
    var said := "router bgp " + (digits + rest);
    assert said[0] == 'r';
    Join4(blanks, "router bgp ", digits, rest);
    SkipOff(blanks, said);
    hide SkipSpaces, Blanks, Digits, DigitsEnd;
    AfterIff("router bgp ", said, digits + rest);
    LeadingReads(digits + rest, digits, rest);
  }

  lemma RouterBgpGives(line: string)
    requires RouterBgp(line).Some?
    ensures RouterBgpLine(line, RouterBgp(line).value)
  {
    hide SkipSpaces, Blanks, Digits, DigitsEnd;
    var blanks := Skipped(line);
    var number := After("router bgp ", SkipSpaces(line)).value;
    AfterIff("router bgp ", SkipSpaces(line), number);
    var digits, rest := LeadingDigits(number);
    LeadingReads(number, digits, rest);
    Join4(blanks, "router bgp ", digits, rest);
    assert RouterBgpShape(line, blanks, digits, rest);
  }

  /** `router bgp N` */
  lemma RouterBgpIff(line: string, number: nat)
    ensures RouterBgp(line) == Some(number) <==> RouterBgpLine(line, number)
  {
    if RouterBgpLine(line, number) {
      var blanks, digits, rest :| RouterBgpShape(line, blanks, digits, rest) && number == NumberOf(digits);
      RouterBgpOf(line, blanks, digits, rest);
    }
    hide RouterBgp, RouterBgpLine;
    if RouterBgp(line).Some? {
      RouterBgpGives(line);
    }
  }

  lemma ClauseIff(s: string)
    ensures StartsClause(s)
       <==> exists verb, rest :: (verb == " permit " || verb == " deny ") && rest != "" && IsDigit(rest[0]) && s == verb + rest
  {
    if StartsClause(s) {
      var verb := if " permit " <= s then " permit " else " deny ";
      assert s == verb + s[|verb|..];
    }
    if verb, rest :| (verb == " permit " || verb == " deny ") && rest != "" && IsDigit(rest[0]) && s == verb + rest {
      assert s[|verb|..] == rest && verb <= s;
      assert s[1] == verb[1];
    }
  }

  lemma HeaderOf(line: string, blanks: string, name: string, verb: string, rest: string)
    requires HeaderShape(line, blanks, name, verb, rest)
    ensures Header(line) == Some(name)
  {
    var more := verb + rest;
    var said := "route-map " + (name + more);
    assert said[0] == 'r' && more[0] == ' ';
    Join4(blanks, "route-map ", name, more);
    Join3(blanks + "route-map " + name, verb, rest);
    SkipOff(blanks, said);
    WordAt(name, more);
    ClauseIff(more);
    hide SkipSpaces, Blanks, Word, StartsClause;
    AfterIff("route-map ", said, name + more);
    assert (name + more)[..|name|] == name && (name + more)[|name|..] == more;
  }

  lemma HeaderGives(line: string)
    requires Header(line).Some?
    ensures HeaderLine(line, Header(line).value)
  {
    hide SkipSpaces, Blanks, Word, StartsClause;
    var blanks := Skipped(line);
    var named := After("route-map ", SkipSpaces(line)).value;
    AfterIff("route-map ", SkipSpaces(line), named);
    var n := Labels.WordLength(named);
    FirstWord(named);
    ClauseIff(named[n..]);
    var verb, rest :| (verb == " permit " || verb == " deny ") && rest != "" && IsDigit(rest[0]) && named[n..] == verb + rest;
    Join4(blanks, "route-map ", named[..n], verb + rest);
    Join3(blanks + "route-map " + named[..n], verb, rest);
    assert HeaderShape(line, blanks, named[..n], verb, rest);
  }

  /** `route-map NAME permit N` or `route-map NAME deny N`, indented or not. */
  lemma HeaderIff(line: string, name: string)
    ensures Header(line) == Some(name) <==> HeaderLine(line, name)
  {
    if HeaderLine(line, name) {
      var blanks, verb, rest :| HeaderShape(line, blanks, name, verb, rest);
      HeaderOf(line, blanks, name, verb, rest);
    }
    hide Header, HeaderLine;
    if Header(line).Some? {
      HeaderGives(line);
    }
  }

  // --- stripping, and what counts as a mention ---

  /** Stripping takes whitespace off both ends, and nothing else. */
  lemma StripKeeps(s: string) returns (before: string, after: string)
    ensures Blanks(before) && Blanks(after) && s == before + Strip(s) + after
    ensures Strip(s) != "" ==> !Labels.IsSpace(Strip(s)[0]) && !Labels.IsSpace(Strip(s)[|Strip(s)| - 1])
  {
    before := Skipped(s);
    after := StripEndKeeps(SkipSpaces(s));
    var kept := StripEnd(SkipSpaces(s));
    assert kept != "" ==> kept[0] == SkipSpaces(s)[0];
    assert before + kept + after == before + (kept + after);
  }

  lemma {:induction false} StripEndKeeps(s: string) returns (after: string)
    ensures Blanks(after) && s == StripEnd(s) + after
    ensures StripEnd(s) != "" ==> !Labels.IsSpace(StripEnd(s)[|StripEnd(s)| - 1])
  {
    if s != "" && Labels.IsSpace(s[|s| - 1]) {
      after := StripEndKeeps(s[..|s| - 1]);
      after := after + [s[|s| - 1]];
      assert s == s[..|s| - 1] + [s[|s| - 1]];
    } else {
      after := "";
    }
  }

  /** The four letters in any case. */
  predicate IsRpki(m: string) {
    && |m| == 4 && (m[0] == 'r' || m[0] == 'R') && (m[1] == 'p' || m[1] == 'P')
    && (m[2] == 'k' || m[2] == 'K') && (m[3] == 'i' || m[3] == 'I')
  }

  lemma LowerFirst(a: string, b: string)
    requires a != ""
    ensures LhpPayload.Lower(a + b) == LhpPayload.Lower([a[0]]) + LhpPayload.Lower(a[1..] + b)
  {
    assert (a + b)[0] == a[0] && (a + b)[1..] == a[1..] + b;
    assert [a[0]][1..] == "";
  }

  lemma {:induction false} LowerAppend(a: string, b: string)
    ensures LhpPayload.Lower(a + b) == LhpPayload.Lower(a) + LhpPayload.Lower(b)
  {
    if a == "" {
      assert a + b == b;
    } else {
      hide LhpPayload.Lower;
      LowerFirst(a, b);
      LowerFirst(a, "");
      LowerAppend(a[1..], b);
      assert a + "" == a && a[1..] + "" == a[1..];
      Labels.Assoc(LhpPayload.Lower([a[0]]), LhpPayload.Lower(a[1..]), LhpPayload.Lower(b));
    }
  }

  lemma {:induction false} ContainsOf(a: string, part: string, b: string)
    ensures LhpPayload.Contains(a + part + b, part)
  {
    var s := a + part + b;
    if a == "" {
      assert s == part + b;
    } else {
      assert s[1..] == a[1..] + part + b;
      ContainsOf(a[1..], part, b);
    }
  }

  lemma {:induction false} ContainsGives(s: string, part: string) returns (a: string, b: string)
    requires LhpPayload.Contains(s, part)
    ensures s == a + part + b
  {
    if part <= s {
      a, b := "", s[|part|..];
    } else {
      a, b := ContainsGives(s[1..], part);
      assert [s[0]] + s[1..] == s;
      Join4([s[0]], a, part, b);
      a := [s[0]] + a;
    }
  }

  lemma {:induction false} LowerAscii(s: string)
    requires Labels.Ascii(s)
    ensures |LhpPayload.Lower(s)| == |s|
    ensures forall i | 0 <= i < |s| :: LhpPayload.Lower(s)[i] == if 'A' <= s[i] <= 'Z' then s[i] - 'A' + 'a' else s[i]
  {
    if s != "" {
      assert forall c | c in s[1..] :: c in s;
      LowerAscii(s[1..]);
      assert s[0] in s;
      var low := if 'A' <= s[0] <= 'Z' then s[0] - 'A' + 'a' else s[0];
      assert LhpPayload.Lower(s) == [low] + LhpPayload.Lower(s[1..]);
      hide LhpPayload.Lower;
      forall i | 0 <= i < |s| ensures LhpPayload.Lower(s)[i] == if 'A' <= s[i] <= 'Z' then s[i] - 'A' + 'a' else s[i] {
        assert i > 0 ==> s[i] == s[1..][i - 1];
      }
    }
  }

  lemma RpkiLowers(m: string)
    requires Labels.Ascii(m) && |m| == 4
    ensures LhpPayload.Lower(m) == "rpki" <==> IsRpki(m)
  {
    LowerAscii(m);
    var (low, rpki) := (LhpPayload.Lower(m), "rpki");
    hide LhpPayload.Lower;
    assert low == rpki <==> low[0] == rpki[0] && low[1] == rpki[1] && low[2] == rpki[2] && low[3] == rpki[3];
  }

  /** A text with the four letters side by side, in any case, mentions rpki. */
  lemma RpkiIsMentioned(a: string, m: string, b: string)
    requires IsRpki(m)
    ensures MentionsRpki(a + m + b)
  {
    assert Labels.Ascii(m) by { FourAscii(m); }
    LowerAppend(a + m, b);
    LowerAppend(a, m);
    RpkiLowers(m);
    hide LhpPayload.Lower, LhpPayload.Contains;
    ContainsOf(LhpPayload.Lower(a), "rpki", LhpPayload.Lower(b));
  }

  lemma FourAscii(m: string)
    requires IsRpki(m)
    ensures Labels.Ascii(m)
  {
    assert m == [m[0], m[1], m[2], m[3]];
  }

  lemma {:induction false} LowerSlice(s: string, n: nat)
    requires Labels.Ascii(s) && n + 4 <= |s|
    ensures |LhpPayload.Lower(s)| == |s|
    ensures Labels.Ascii(s[n..n + 4]) && LhpPayload.Lower(s[n..n + 4]) == LhpPayload.Lower(s)[n..n + 4]
  {
    var m := s[n..n + 4];
    assert forall c | c in m :: c in s;
    LowerAscii(s);
    LowerAscii(m);
    hide LhpPayload.Lower;
    forall i | 0 <= i < 4 ensures LhpPayload.Lower(m)[i] == LhpPayload.Lower(s)[n..n + 4][i] {
      assert m[i] == s[n + i];
    }
  }

  /** And an ASCII text mentions it in no other way. */
  lemma MentionsRpkiIff(s: string)
    requires Labels.Ascii(s)
    ensures MentionsRpki(s) <==> exists a, m, b :: IsRpki(m) && s == a + m + b
  {
    hide LhpPayload.Lower, LhpPayload.Contains;
    if a, m, b :| IsRpki(m) && s == a + m + b {
      RpkiIsMentioned(a, m, b);
    }
    if MentionsRpki(s) {
      hide IsRpki;
      var low := LhpPayload.Lower(s);
      var a, b := ContainsGives(low, "rpki");
      var n := |a|;
      LowerAscii(s);
      Middle(a, "rpki", b);
      LowerSlice(s, n);
      RpkiLowers(s[n..n + 4]);
      Cut3(s, n, n + 4);
    }
  }

  lemma Middle(a: string, m: string, b: string)
    ensures (a + m + b)[|a|..|a| + |m|] == m && |a + m + b| == |a| + |m| + |b|
  {
  }

  lemma Cut3(s: string, i: nat, j: nat)
    requires i <= j <= |s|
    ensures s == s[..i] + s[i..j] + s[j..]
  {
  }
}
