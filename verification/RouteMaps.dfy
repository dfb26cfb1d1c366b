/** Collecting route-map clauses from a running configuration (app/posture/scanner.py). */
module RouteMaps {
  import opened Wrappers
  import opened Dicts
  import Labels
  import LhpPayload

  /** An arbitrary map: the values of decimal digits outside ASCII. */
  const DIGIT_BEYOND_ASCII: map<char, nat>

  predicate IsDigit(c: char) {
    '0' <= c <= '9' || (c > '\U{7f}' && c in DIGIT_BEYOND_ASCII)
  }

  function SkipSpaces(s: string): string {
    if s != [] && Labels.IsSpace(s[0]) then SkipSpaces(s[1..]) else s
  }

  /** `str.strip`. */
  function Strip(s: string): string {
    StripEnd(SkipSpaces(s))
  }

  function StripEnd(s: string): string {
    if s != [] && Labels.IsSpace(s[|s| - 1]) then StripEnd(s[..|s| - 1]) else s
  }

  /** The rest of `s` after a required prefix. */
  function After(prefix: string, s: string): Option<string> {
    if prefix <= s then Some(s[|prefix|..]) else None
  }

  predicate StartsClause(s: string) {
    match After(" permit ", s)
    case Some(rest) => rest != [] && IsDigit(rest[0])
    case None =>
      match After(" deny ", s)
      case Some(rest) => rest != [] && IsDigit(rest[0])
      case None => false
  }

  /** The map named by a header line `route-map NAME permit|deny N`, indented or not. */
  function Header(line: string): Option<string> {
    match After("route-map ", SkipSpaces(line))
    case None => None
    case Some(rest) =>
      var n := Labels.WordLength(rest);
      if n > 0 && StartsClause(rest[n..]) then Some(rest[..n]) else None
  }

  predicate Indented(line: string) {
    line != [] && line[0] == ' '
  }

  // --- the declarative meaning of a configuration ---

  /** Line `i` belongs to map `m`: it follows a header of `m` with only indented lines that are
      not headers from there on, itself included. */
  ghost predicate Belongs(lines: seq<string>, i: nat, m: string)
    requires i < |lines|
  {
    exists j: nat | j < i :: HeaderReaches(lines, j, i, m)
  }

  ghost predicate HeaderReaches(lines: seq<string>, j: nat, i: nat, m: string)
    requires j <= i < |lines|
  {
    && Header(lines[j]) == Some(m)
    && forall k | j < k <= i :: Header(lines[k]).None? && Indented(lines[k])
  }

  /** The clauses of map `m` among the first `n` lines, in order. */
  ghost function Clauses(lines: seq<string>, n: nat, m: string): seq<string>
    requires n <= |lines|
  {
    if n == 0 then []
    else Clauses(lines, n - 1, m) + if Belongs(lines, n - 1, m) then [Strip(lines[n - 1])] else []
  }

  ghost predicate HasHeader(lines: seq<string>, n: nat, m: string)
    requires n <= |lines|
  {
    exists j: nat | j < n :: Header(lines[j]) == Some(m)
  }

  /** The block of `m` reaches line `i`. */
  ghost predicate OpenAt(lines: seq<string>, i: nat, m: string)
    requires i < |lines|
  {
    exists j: nat | j <= i :: HeaderReaches(lines, j, i, m)
  }

  /** `current` is the map whose block is open after the first `n` lines, if any. */
  ghost predicate OpenBlock(lines: seq<string>, n: nat, current: Option<string>)
    requires n <= |lines|
  {
    if n == 0 then current.None? else forall m :: OpenAt(lines, n - 1, m) <==> current == Some(m)
  }

  lemma BelongsIff(lines: seq<string>, n: nat, m: string)
    requires n < |lines|
    ensures Belongs(lines, n, m)
       <==> n > 0 && OpenAt(lines, n - 1, m) && Header(lines[n]).None? && Indented(lines[n])
  {
    hide Header, Indented;
    if Belongs(lines, n, m) {
      var j: nat :| j < n && HeaderReaches(lines, j, n, m);
      assert HeaderReaches(lines, j, n - 1, m);
    }
    if n > 0 && OpenAt(lines, n - 1, m) && Header(lines[n]).None? && Indented(lines[n]) {
      var j: nat :| j <= n - 1 && HeaderReaches(lines, j, n - 1, m);
      assert HeaderReaches(lines, j, n, m);
    }
  }

  lemma OpenAtIff(lines: seq<string>, n: nat, m: string)
    requires n < |lines|
    ensures OpenAt(lines, n, m) <==> Header(lines[n]) == Some(m) || Belongs(lines, n, m)
  {
    if OpenAt(lines, n, m) {
      var j: nat :| j <= n && HeaderReaches(lines, j, n, m);
    }
    if Header(lines[n]) == Some(m) {
      assert HeaderReaches(lines, n, n, m);
    }
  }

  lemma OpenBlockStep(lines: seq<string>, n: nat, current: Option<string>)
    requires n < |lines| && OpenBlock(lines, n, current)
    ensures OpenBlock(lines, n + 1,
              if Header(lines[n]).Some? then Header(lines[n])
              else if Indented(lines[n]) then current
              else None)
  {
    forall m
      ensures OpenAt(lines, n, m)
         <==> Header(lines[n]) == Some(m) || (current == Some(m) && Header(lines[n]).None? && Indented(lines[n]))
    {
      OpenAtIff(lines, n, m);
      BelongsIff(lines, n, m);
    }
  }

  /** What the collected maps mean after `n` lines. */
  ghost predicate Collected(lines: seq<string>, n: nat, maps: Dict<string, seq<string>>)
    requires n <= |lines|
  {
    && (forall m :: m in maps.m <==> HasHeader(lines, n, m))
    && (forall m | m in maps.m :: maps.m[m] == Clauses(lines, n, m))
  }

  lemma HasHeaderStep(lines: seq<string>, n: nat, m: string)
    requires n < |lines|
    ensures HasHeader(lines, n + 1, m) <==> HasHeader(lines, n, m) || Header(lines[n]) == Some(m)
  {
  }

  lemma {:induction false} ClausesNeedHeader(lines: seq<string>, n: nat, m: string)
    requires n <= |lines|
    ensures Clauses(lines, n, m) != [] ==> HasHeader(lines, n, m)
    ensures n > 0 && OpenAt(lines, n - 1, m) ==> HasHeader(lines, n, m)
  {
    if n > 0 {
      HasHeaderStep(lines, n - 1, m);
      ClausesNeedHeader(lines, n - 1, m);
    }
  }

  /** The line loop: a header opens its map, an indented line goes to the open map, any other line closes it. */
  method ParseRouteMaps(lines: seq<string>) returns (maps: Dict<string, seq<string>>)
    ensures Collected(lines, |lines|, maps)
  {
    maps := Empty<string, seq<string>>();
    var current: Option<string> := None;
    for i := 0 to |lines|
      invariant OpenBlock(lines, i, current)
      invariant Collected(lines, i, maps)
      invariant current.Some? ==> current.value in maps.m
    {
      var line := lines[i];
      ghost var before, open := maps, current;
      var header := Header(line);
      if header.Some? {
        current := header;
        if header.value !in maps.m {
          maps := maps.Put(header.value, []);
        }
      } else if current.Some? {
        if Indented(line) {
          maps := maps.Put(current.value, maps.m[current.value] + [Strip(line)]);
        } else {
          current := None;
        }
      }
      OpenBlockStep(lines, i, open);
      CollectStep(lines, i, open, before, maps);
    }
  }

  /** How one line changes the clauses of one map. */
  lemma ClausesStep(lines: seq<string>, n: nat, current: Option<string>, m: string)
    requires n < |lines| && OpenBlock(lines, n, current)
    ensures Clauses(lines, n + 1, m) == Clauses(lines, n, m)
              + if current == Some(m) && Header(lines[n]).None? && Indented(lines[n]) then [Strip(lines[n])] else []
  {
    hide Indented, Strip, Header;
    BelongsIff(lines, n, m);
  }

  /** How one line changes the collection. */
  lemma CollectStep(lines: seq<string>, n: nat, current: Option<string>,
                    before: Dict<string, seq<string>>, maps: Dict<string, seq<string>>)
    requires n < |lines| && OpenBlock(lines, n, current) && Collected(lines, n, before)
    requires current.Some? ==> current.value in before.m
    requires var header := Header(lines[n]);
             if header.Some? then
               maps.m == if header.value in before.m then before.m else before.m[header.value := []]
             else if current.Some? && Indented(lines[n]) then
               maps.m == before.m[current.value := before.m[current.value] + [Strip(lines[n])]]
             else maps.m == before.m
    ensures Collected(lines, n + 1, maps)
  {
    hide Clauses, HasHeader, Header, Indented, Strip, OpenBlock;
    forall m
      ensures m in maps.m <==> HasHeader(lines, n + 1, m)
      ensures m in maps.m ==> maps.m[m] == Clauses(lines, n + 1, m)
    {
      HasHeaderStep(lines, n, m);
      ClausesStep(lines, n, current, m);
      if !HasHeader(lines, n, m) {
        NewMapIsEmpty(lines, n, m);
      }
    }
  }

  lemma NewMapIsEmpty(lines: seq<string>, n: nat, m: string)
    requires n <= |lines| && !HasHeader(lines, n, m)
    ensures Clauses(lines, n, m) == []
  {
    ClausesNeedHeader(lines, n, m);
  }

  // --- which maps mention rpki ---

  predicate MentionsRpki(clause: string) {
    LhpPayload.Contains(LhpPayload.Lower(clause), "rpki")
  }

  predicate RouteMapRejects(maps: Dict<string, seq<string>>, name: string) {
    name in maps.m && exists k | 0 <= k < |maps.m[name]| :: MentionsRpki(maps.m[name][k])
  }

  ghost predicate MentionedIn(clauses: seq<string>) {
    exists k | 0 <= k < |clauses| :: MentionsRpki(clauses[k])
  }

  ghost predicate MentionedInText(lines: seq<string>, n: nat, m: string)
    requires n <= |lines|
  {
    exists i: nat | i < n :: Belongs(lines, i, m) && MentionsRpki(Strip(lines[i]))
  }

  lemma MentionedInAppend(clauses: seq<string>, clause: string)
    ensures MentionedIn(clauses + [clause]) <==> MentionedIn(clauses) || MentionsRpki(clause)
  {
    var all := clauses + [clause];
    assert forall k | 0 <= k < |clauses| :: all[k] == clauses[k];
    assert all[|clauses|] == clause;
  }

  lemma {:induction false} ClausesMentionIff(lines: seq<string>, n: nat, m: string)
    requires n <= |lines|
    ensures MentionedIn(Clauses(lines, n, m)) <==> MentionedInText(lines, n, m)
  {
    hide MentionedIn, MentionedInText, MentionsRpki, Belongs, Strip;
    if n == 0 {
      NothingMentioned(lines, m);
    } else {
      ClausesMentionIff(lines, n - 1, m);
      assert Clauses(lines, n - 1, m) + [] == Clauses(lines, n - 1, m);
      MentionedInAppend(Clauses(lines, n - 1, m), Strip(lines[n - 1]));
      MentionedInTextStep(lines, n - 1, m);
    }
  }

  lemma NothingMentioned(lines: seq<string>, m: string)
    ensures !MentionedIn([]) && !MentionedInText(lines, 0, m)
  {
  }

  lemma MentionedInTextStep(lines: seq<string>, n: nat, m: string)
    requires n < |lines|
    ensures MentionedInText(lines, n + 1, m)
       <==> MentionedInText(lines, n, m) || (Belongs(lines, n, m) && MentionsRpki(Strip(lines[n])))
  {
  }

  /** A map that the parser collected rejects exactly when some line that belongs to it mentions rpki. */
  lemma RejectsIff(lines: seq<string>, maps: Dict<string, seq<string>>, name: string)
    requires Collected(lines, |lines|, maps)
    ensures RouteMapRejects(maps, name) <==> MentionedInText(lines, |lines|, name)
  {
    ClausesMentionIff(lines, |lines|, name);
    ClausesNeedHeader(lines, |lines|, name);
  }
}
