/**
 Bounding of untrusted evidence payloads (app/lhp.py). The text of a value after secret
 redaction is an arbitrary function `redacted`; everything after it is modelled.
 */
module LhpPayload {
  import opened Labels
  import opened LhpTokens
  import Firsts

  const MAX_COLLECTION_ITEMS := 50
  const MAX_MAPPING_ITEMS := 100
  const KEY_LIMIT := 80
  const REDACTED_KEY := "redacted_key"

  datatype Payload =
    | Text(s: string)
    | Scalar(shown: string)             // a truth value, a number or None
    | Stamp(iso: string)                // a datetime, rendered by isoformat
    | Items(items: seq<Payload>)        // list, tuple or set
    | Mapping(entries: seq<Entry>)
    | Model(dump: Payload)              // a pydantic model and its dump
    | Other(shown: string)

  datatype Entry = Entry(key: string, value: Payload)

  predicate IsBlocked(c: char) {
    c in "`<>[]{}" || c < ' '
  }

  function BlankOut(s: string): string {
    if s == [] then [] else (if IsBlocked(s[0]) then [' '] else [s[0]]) + BlankOut(s[1..])
  }

  function AtLeastOne(limit: nat): nat {
    if limit == 0 then 1 else limit
  }

  /** `sanitize_lhp_text` from the redacted text on. */
  function SafeText(text: string, limit: nat): string {
    var rendered := Collapse(BlankOut(text));
    Cut(if rendered == [] then ['\U{2014}'] else rendered, AtLeastOne(limit))
  }

  /** An arbitrary map: lower-casing outside ASCII. */
  const LOWER_BEYOND_ASCII: map<char, string>

  function Lower(s: string): string {
    if s == [] then []
    else
      (if 'A' <= s[0] <= 'Z' then [s[0] - 'A' + 'a']
       else if s[0] > '\U{7f}' && s[0] in LOWER_BEYOND_ASCII then LOWER_BEYOND_ASCII[s[0]]
       else [s[0]]) + Lower(s[1..])
  }

  /** `part in s`. */
  predicate Contains(s: string, part: string) {
    part <= s || (s != [] && Contains(s[1..], part))
  }

  const FORBIDDEN_MARKERS: seq<string> :=
    ["raw_log", "packet_capture", "transcript", "authorization", "credential", "secret"]

  predicate Forbidden(key: string) {
    exists k | 0 <= k < |FORBIDDEN_MARKERS| :: Contains(Lower(key), FORBIDDEN_MARKERS[k])
  }

  function SafeKey(key: string): string {
    var token := SanitizeToken(key, KEY_LIMIT);
    if Forbidden(token) then REDACTED_KEY else token
  }

  /** Assignment to a dictionary: an existing key keeps its place. */
  function SetEntry(entries: seq<Entry>, key: string, value: Payload): seq<Entry> {
    if entries == [] then [Entry(key, value)]
    else if entries[0].key == key then [Entry(key, value)] + entries[1..]
    else [entries[0]] + SetEntry(entries[1..], key, value)
  }

  function Take<T>(s: seq<T>, n: nat): seq<T> {
    if |s| <= n then s else s[..n]
  }

  function Sanitize(v: Payload, limit: nat, depth: int, redacted: Payload -> string): Payload
    decreases depth, 0
  {
    if depth <= 0 then Text(SafeText(redacted(v), limit))
    else
      match v
      case Model(dump) => Sanitize(dump, limit, depth - 1, redacted)
      case Stamp(iso) => Text(iso)
      case Scalar(_) => v
      case Items(items) =>
        var kept := Take(items, MAX_COLLECTION_ITEMS);
        Items(SanitizeItems(kept, limit, depth - 1, redacted))
      case Mapping(entries) =>
        Mapping(SanitizeEntries(Take(entries, MAX_MAPPING_ITEMS), limit, depth - 1, redacted))
      case _ => Text(SafeText(redacted(v), limit))
  }

  function SanitizeItems(items: seq<Payload>, limit: nat, depth: int, redacted: Payload -> string): seq<Payload>
    decreases depth, 1
  {
    seq(|items|, i requires 0 <= i < |items| => Sanitize(items[i], limit, depth, redacted))
  }

  function SanitizeEntries(entries: seq<Entry>, limit: nat, depth: int, redacted: Payload -> string): seq<Entry>
    decreases depth, 1 + |entries|
  {
    if entries == [] then []
    else
      var last := entries[|entries| - 1];
      SetEntry(SanitizeEntries(entries[..|entries| - 1], limit, depth, redacted),
               SafeKey(last.key), Sanitize(last.value, limit, depth, redacted))
  }

  method SanitizePayload(v: Payload, limit: nat, depth: int, redacted: Payload -> string) returns (r: Payload)
    ensures r == Sanitize(v, limit, depth, redacted)
    decreases depth, 0
  {
    if depth <= 0 {
      return Text(SafeText(redacted(v), limit));
    }
    match v
    case Model(dump) =>
      r := SanitizePayload(dump, limit, depth - 1, redacted);
    case Stamp(iso) =>
      r := Text(iso);
    case Scalar(_) =>
      r := v;
    case Items(items) =>
      var out := FillList(Take(items, MAX_COLLECTION_ITEMS), limit, depth - 1, redacted);
      r := Items(out);
    case Mapping(entries) =>
      var rendered := FillMapping(Take(entries, MAX_MAPPING_ITEMS), limit, depth - 1, redacted);
      r := Mapping(rendered);
    case _ =>
      r := Text(SafeText(redacted(v), limit));
  }

  method FillList(items: seq<Payload>, limit: nat, depth: int, redacted: Payload -> string) returns (out: seq<Payload>)
    ensures out == SanitizeItems(items, limit, depth, redacted)
    decreases depth, 1
  {
    out := [];
    for i := 0 to |items|
      invariant |out| == i
      invariant forall k | 0 <= k < i :: out[k] == Sanitize(items[k], limit, depth, redacted)
    {
      var item := SanitizePayload(items[i], limit, depth, redacted);
      out := out + [item];
    }
  }

  /** Later entries whose keys sanitise alike overwrite earlier ones. */
  method FillMapping(entries: seq<Entry>, limit: nat, depth: int, redacted: Payload -> string) returns (rendered: seq<Entry>)
    ensures rendered == SanitizeEntries(entries, limit, depth, redacted)
    decreases depth, 1
  {
    rendered := [];
    for i := 0 to |entries|
      invariant rendered == SanitizeEntries(entries[..i], limit, depth, redacted)
    {
      var child := SanitizePayload(entries[i].value, limit, depth, redacted);
      rendered := SetEntry(rendered, SafeKey(entries[i].key), child);
      assert entries[..i + 1][..i] == entries[..i];
    }
    assert entries[..|entries|] == entries;
  }

  // --- what the output is bounded by ---

  /** One line, no blocked or control character. */
  ghost predicate CleanText(s: string) {
    forall i | 0 <= i < |s| :: CleanChar(s[i])
  }

  predicate CleanChar(c: char) {
    && c != '`' && c != '<' && c != '>' && c != '[' && c != ']' && c != '{' && c != '}' && c >= ' '
    && (IsSpace(c) ==> c == ' ')
  }

  /** None of the markers of raw or secret material, in any case of letters. */
  ghost predicate NoMarker(key: string) {
    var low := Lower(key);
    && !Contains(low, "raw_log") && !Contains(low, "packet_capture") && !Contains(low, "transcript")
    && !Contains(low, "authorization") && !Contains(low, "credential") && !Contains(low, "secret")
  }

  lemma ForbiddenIff(key: string)
    ensures Forbidden(key) <==> !NoMarker(key)
  {
    hide Contains, Lower;
    if !NoMarker(key) {
      var k := if Contains(Lower(key), "raw_log") then 0 else if Contains(Lower(key), "packet_capture") then 1
               else if Contains(Lower(key), "transcript") then 2 else if Contains(Lower(key), "authorization") then 3
               else if Contains(Lower(key), "credential") then 4 else 5;
      assert Contains(Lower(key), FORBIDDEN_MARKERS[k]);
    }
  }

  ghost predicate CleanKey(key: string) {
    OnlyTokenChars(key) && 0 < |key| <= 80 && NoMarker(key)
  }

  ghost predicate DistinctKeys(entries: seq<Entry>) {
    forall i, j | 0 <= i < j < |entries| :: entries[i].key != entries[j].key
  }

  /** At most `depth` container levels, every container and every key within its limit. */
  ghost predicate Bounded(p: Payload, depth: int)
    decreases p
  {
    match p
    case Text(_) => true
    case Scalar(_) => true
    case Items(items) =>
      0 < depth && |items| <= 50 && forall i | 0 <= i < |items| :: Bounded(items[i], depth - 1)
    case Mapping(entries) =>
      && 0 < depth && |entries| <= 100 && DistinctKeys(entries)
      && forall i | 0 <= i < |entries| :: CleanKey(entries[i].key) && Bounded(entries[i].value, depth - 1)
    case _ => false
  }

  lemma {:induction false} MarkerNeedsItsCharacters(s: string, part: string, c: char)
    requires c in part && c !in s
    ensures !Contains(s, part)
  {
    assert !(part <= s);
    if s != [] {
      MarkerNeedsItsCharacters(s[1..], part, c);
    }
  }

  ghost predicate LowerCase(s: string) {
    forall i | 0 <= i < |s| :: 'a' <= s[i] <= 'z' || s[i] == '_'
  }

  /** Every marker has a character that the replacement key lacks. */
  lemma NoMarkerWithout(key: string)
    requires LowerCase(key) && forall c | c in key :: c != 'w' && c != 'p' && c != 'n' && c != 'u' && c != 's'
    ensures !Forbidden(key)
  {
    hide Contains, Lower, LowerCase;
    LowerKeepsLowerCase(key);
    MarkerNeedsItsCharacters(key, FORBIDDEN_MARKERS[0], 'w');
    MarkerNeedsItsCharacters(key, FORBIDDEN_MARKERS[1], 'p');
    MarkerNeedsItsCharacters(key, FORBIDDEN_MARKERS[2], 'n');
    MarkerNeedsItsCharacters(key, FORBIDDEN_MARKERS[3], 'u');
    MarkerNeedsItsCharacters(key, FORBIDDEN_MARKERS[4], 'n');
    MarkerNeedsItsCharacters(key, FORBIDDEN_MARKERS[5], 's');
  }

  lemma RedactedKeyIsClean()
    ensures CleanKey(REDACTED_KEY)
  {
    var key: string :| key == REDACTED_KEY;
    NoMarkerWithout(key);
    ForbiddenIff(key);
  }

  lemma {:induction false} LowerKeepsLowerCase(s: string)
    requires LowerCase(s)
    ensures Lower(s) == s
  {
    if s != [] {
      LowerKeepsLowerCase(s[1..]);
    }
  }

  lemma SafeKeyIsClean(key: string)
    ensures CleanKey(SafeKey(key))
  {
    TokenShape(key, KEY_LIMIT);
    RedactedKeyIsClean();
    ForbiddenIff(SanitizeToken(key, KEY_LIMIT));
    hide Contains, Lower, SanitizeToken;
  }

  lemma {:induction false} SetEntryKeeps(entries: seq<Entry>, key: string, value: Payload)
    requires DistinctKeys(entries)
    ensures DistinctKeys(SetEntry(entries, key, value))
    ensures |entries| <= |SetEntry(entries, key, value)| <= |entries| + 1
    ensures forall e | e in SetEntry(entries, key, value) :: e in entries || e == Entry(key, value)
    ensures forall e | e in SetEntry(entries, key, value) && e.key == key :: e == Entry(key, value)
  {
    if entries != [] && entries[0].key != key {
      var rest := SetEntry(entries[1..], key, value);
      SetEntryKeeps(entries[1..], key, value);
      forall j | 0 <= j < |rest| ensures entries[0].key != rest[j].key {
        assert rest[j] in rest;
        if rest[j] in entries[1..] {
          var i :| 0 <= i < |entries[1..]| && entries[1..][i] == rest[j];
          assert entries[i + 1] == rest[j];
        }
      }
    } else if entries != [] {
      forall e | e in entries[1..] ensures e.key != key {
        var i :| 0 <= i < |entries[1..]| && entries[1..][i] == e;
        assert entries[i + 1] == e;
      }
    }
  }

  lemma {:induction false} EntriesBounded(entries: seq<Entry>, limit: nat, depth: int, redacted: Payload -> string)
    requires 0 <= depth
    ensures var out := SanitizeEntries(entries, limit, depth, redacted);
            && |out| <= |entries| && DistinctKeys(out)
            && forall e | e in out :: CleanKey(e.key) && Bounded(e.value, depth)
    decreases depth, 1 + |entries|
  {
    if entries != [] {
      var last := entries[|entries| - 1];
      var before := SanitizeEntries(entries[..|entries| - 1], limit, depth, redacted);
      EntriesBounded(entries[..|entries| - 1], limit, depth, redacted);
      SafeKeyIsClean(last.key);
      SanitizeBounds(last.value, limit, depth, redacted);
      SetEntryKeeps(before, SafeKey(last.key), Sanitize(last.value, limit, depth, redacted));
    }
  }

  /** For every input tree the result has at most `depth` container levels, and every list,
      mapping and key in it is within its limit. */
  lemma {:induction false} SanitizeBounds(v: Payload, limit: nat, depth: int, redacted: Payload -> string)
    requires 0 <= depth
    ensures Bounded(Sanitize(v, limit, depth, redacted), depth)
    decreases depth, 0
  {
    hide SafeText, CleanKey, DistinctKeys, SanitizeEntries;
    if depth > 0 {
      match v
      case Model(dump) =>
        SanitizeBounds(dump, limit, depth - 1, redacted);
        BoundedWidens(Sanitize(dump, limit, depth - 1, redacted), depth - 1);
      case Items(items) =>
        var kept := Take(items, MAX_COLLECTION_ITEMS);
        forall i | 0 <= i < |kept| ensures Bounded(Sanitize(kept[i], limit, depth - 1, redacted), depth - 1) {
          SanitizeBounds(kept[i], limit, depth - 1, redacted);
        }
      case Mapping(entries) =>
        EntriesBounded(Take(entries, MAX_MAPPING_ITEMS), limit, depth - 1, redacted);
      case _ =>
    }
  }

  lemma {:induction false} BoundedWidens(p: Payload, depth: int)
    requires Bounded(p, depth)
    ensures Bounded(p, depth + 1)
    decreases p
  {
    match p
    case Items(items) =>
      forall i | 0 <= i < |items| ensures Bounded(items[i], depth) { BoundedWidens(items[i], depth - 1); }
    case Mapping(entries) =>
      forall i | 0 <= i < |entries| ensures Bounded(entries[i].value, depth) { BoundedWidens(entries[i].value, depth - 1); }
    case _ =>
  }

  /** Every sanitised text is nonempty, on one line, short, and free of blocked characters. */
  lemma SafeTextIsClean(text: string, limit: nat)
    ensures CleanText(SafeText(text, limit))
    ensures 0 < |SafeText(text, limit)| <= AtLeastOne(limit)
  {
    BlankOutLeaves(text);
    CollapseIsClean(BlankOut(text));
    var full := if Collapse(BlankOut(text)) == [] then ['\U{2014}'] else Collapse(BlankOut(text));
    assert forall c | c in SafeText(text, limit) :: c in full;
  }

  lemma {:induction false} BlankOutLeaves(s: string)
    ensures forall c | c in BlankOut(s) :: !IsBlocked(c)
    ensures (forall c | c in s :: !IsBlocked(c)) ==> BlankOut(s) == s
  {
    if s != [] {
      BlankOutLeaves(s[1..]);
      assert s[0] in s;
    }
  }

  lemma {:induction false} JoinIsClean(words: seq<string>)
    requires forall w | w in words :: IsWord(w) && CleanText(w)
    ensures CleanText(Join(words))
  {
    if |words| > 0 {
      assert words[0] in words;
      assert forall w | w in words[1..] :: w in words;
      JoinIsClean(words[1..]);
    }
  }

  lemma {:induction false} SplitTakesFrom(s: string)
    ensures forall w | w in Split(s) :: forall c | c in w :: c in s
  {
    if s != [] {
      if IsSpace(s[0]) {
        SplitTakesFrom(s[1..]);
      } else {
        SplitTakesFrom(s[WordLength(s)..]);
      }
    }
  }

  lemma CollapseIsClean(s: string)
    requires forall c | c in s :: !IsBlocked(c)
    ensures CleanText(Collapse(s))
  {
    SplitYieldsWords(s);
    SplitTakesFrom(s);
    forall w | w in Split(s) ensures CleanText(w) {
      assert forall i | 0 <= i < |w| :: w[i] in w;
    }
    JoinIsClean(Split(s));
  }

  // --- and what passes through unchanged ---

  /** The value as it is written: models replaced by their dumps, dates by their texts. */
  function Written(p: Payload): Payload {
    match p
    case Model(dump) => Written(dump)
    case Stamp(iso) => Text(iso)
    case Items(items) => Items(seq(|items|, i requires 0 <= i < |items| => Written(items[i])))
    case Mapping(entries) =>
      Mapping(seq(|entries|, i requires 0 <= i < |entries| => Entry(entries[i].key, Written(entries[i].value))))
    case _ => p
  }

  /** Texts that redaction and cleaning leave alone, containers and keys within their limits, and at
      most `depth` levels, of which a model takes one; below the last of them only text is left as it is. */
  ghost predicate Fits(p: Payload, limit: nat, depth: int, redacted: Payload -> string)
    decreases p
  {
    match p
    case Text(s) => redacted(p) == s && CleanText(s) && NoStrayBlanks(s) && 0 < |s| <= AtLeastOne(limit)
    case Items(items) =>
      0 < depth && |items| <= 50 && forall i | 0 <= i < |items| :: Fits(items[i], limit, depth - 1, redacted)
    case Mapping(entries) =>
      && 0 < depth && |entries| <= 100 && DistinctKeys(entries)
      && forall i | 0 <= i < |entries| :: CleanKey(entries[i].key) && Fits(entries[i].value, limit, depth - 1, redacted)
    case Model(dump) => 0 < depth && Fits(dump, limit, depth - 1, redacted)
    case Scalar(_) => 0 < depth
    case Stamp(_) => 0 < depth
    case Other(_) => false
  }

  lemma SafeTextKeeps(s: string, limit: nat)
    requires CleanText(s) && NoStrayBlanks(s) && 0 < |s| <= AtLeastOne(limit)
    ensures SafeText(s, limit) == s
  {
    BlankOutLeaves(s);
    CollapseFixedIff(s);
  }

  lemma {:induction false} SetNewEntry(entries: seq<Entry>, key: string, value: Payload)
    requires forall e | e in entries :: e.key != key
    ensures SetEntry(entries, key, value) == entries + [Entry(key, value)]
  {
    if entries != [] {
      SetNewEntry(entries[1..], key, value);
    }
  }

  /** The bounds are met exactly: a payload within them loses nothing. */
  lemma {:induction false} SanitizeWrites(p: Payload, limit: nat, depth: int, redacted: Payload -> string)
    requires 0 <= depth && Fits(p, limit, depth, redacted)
    ensures Sanitize(p, limit, depth, redacted) == Written(p)
    decreases depth, 0
  {
    hide CleanText, NoStrayBlanks, SafeText, CleanKey, DistinctKeys, SanitizeEntries;
    match p
    case Text(s) =>
      SafeTextKeeps(s, limit);
    case Items(items) =>
      forall i | 0 <= i < |items| ensures Sanitize(items[i], limit, depth - 1, redacted) == Written(items[i]) {
        SanitizeWrites(items[i], limit, depth - 1, redacted);
      }
    case Mapping(entries) =>
      EntriesWritten(entries, limit, depth - 1, redacted);
    case Model(dump) =>
      SanitizeWrites(dump, limit, depth - 1, redacted);
    case _ =>
  }

  lemma {:induction false} BoundedIsWritten(p: Payload, depth: int)
    requires Bounded(p, depth)
    ensures Written(p) == p
    decreases p
  {
    match p
    case Items(items) =>
      forall i | 0 <= i < |items| ensures Written(items[i]) == items[i] { BoundedIsWritten(items[i], depth - 1); }
    case Mapping(entries) =>
      forall i | 0 <= i < |entries| ensures Written(entries[i].value) == entries[i].value {
        BoundedIsWritten(entries[i].value, depth - 1);
      }
    case _ =>
  }

  /** Without models and dates it passes through untouched. */
  lemma SanitizeKeepsBounded(p: Payload, limit: nat, depth: int, redacted: Payload -> string)
    requires 0 <= depth && Bounded(p, depth) && Fits(p, limit, depth, redacted)
    ensures Sanitize(p, limit, depth, redacted) == p
  {
    SanitizeWrites(p, limit, depth, redacted);
    BoundedIsWritten(p, depth);
    hide Sanitize, Fits, Bounded, Written;
  }

  lemma CleanKeyStays(key: string)
    requires CleanKey(key)
    ensures SafeKey(key) == key
  {
    TokenFixedIff(key, KEY_LIMIT);
    ForbiddenIff(key);
    hide Contains, Lower, SanitizeToken;
  }

  lemma {:induction false} EntriesWritten(entries: seq<Entry>, limit: nat, depth: int, redacted: Payload -> string)
    requires 0 <= depth && DistinctKeys(entries)
    requires forall i | 0 <= i < |entries| :: CleanKey(entries[i].key) && Fits(entries[i].value, limit, depth, redacted)
    ensures var out := SanitizeEntries(entries, limit, depth, redacted);
            && |out| == |entries|
            && forall i | 0 <= i < |out| :: out[i] == Entry(entries[i].key, Written(entries[i].value))
    decreases depth, 2 + |entries|
  {
    hide CleanKey, SafeKey, Fits, Sanitize, Written;
    if entries != [] {
      var n := |entries| - 1;
      var (front, last) := (entries[..n], entries[n]);
      EntriesWritten(front, limit, depth, redacted);
      SanitizeWrites(last.value, limit, depth, redacted);
      CleanKeyStays(last.key);
      SetNewEntry(SanitizeEntries(front, limit, depth, redacted), last.key, Written(last.value));
    }
  }

  // --- and what is kept of what does not ---

  /** A list keeps its first fifty items, each sanitised with one level less. */
  lemma ItemsKept(items: seq<Payload>, limit: nat, depth: int, redacted: Payload -> string)
    requires 0 < depth
    ensures Sanitize(Items(items), limit, depth, redacted).Items?
    ensures var out := Sanitize(Items(items), limit, depth, redacted).items;
            && |out| == (if |items| <= 50 then |items| else 50)
            && forall i | 0 <= i < |out| :: out[i] == Sanitize(items[i], limit, depth - 1, redacted)
  {
  }

  /** The last of the first hundred entries whose key sanitises to `key`. */
  ghost predicate LastUnder(entries: seq<Entry>, key: string, i: nat) {
    && i < |entries| && i < 100 && SafeKey(entries[i].key) == key
    && forall j | i < j < |entries| && j < 100 :: SafeKey(entries[j].key) != key
  }

  /** The last value under the key, sanitised. */
  ghost predicate Held(entries: seq<Entry>, limit: nat, depth: int, redacted: Payload -> string, key: string, value: Payload) {
    exists i: nat :: LastUnder(entries, key, i) && value == Sanitize(entries[i].value, limit, depth, redacted)
  }

  lemma HeldStep(entries: seq<Entry>, limit: nat, depth: int, redacted: Payload -> string, key: string, value: Payload)
    requires entries != [] && |entries| <= 100
    ensures var last := entries[|entries| - 1];
            (Held(entries, limit, depth, redacted, key, value)
             <==> if SafeKey(last.key) == key then value == Sanitize(last.value, limit, depth, redacted)
                  else Held(entries[..|entries| - 1], limit, depth, redacted, key, value))
  {
    hide SafeKey, Sanitize;
    var n := |entries| - 1;
    if SafeKey(entries[n].key) == key {
      assert LastUnder(entries, key, n);
      forall i: nat | LastUnder(entries, key, i) ensures i == n {
      }
    } else {
      SameLast(entries, entries[..n], key);
    }
  }

  lemma SameLast(entries: seq<Entry>, front: seq<Entry>, key: string)
    requires front <= entries && forall j | |front| <= j < |entries| && j < 100 :: SafeKey(entries[j].key) != key
    ensures forall i: nat :: LastUnder(entries, key, i) <==> LastUnder(front, key, i)
  {
    hide SafeKey;
    assert forall i | 0 <= i < |front| :: front[i] == entries[i];
  }

  lemma {:induction false} EntriesHold(entries: seq<Entry>, limit: nat, depth: int, redacted: Payload -> string, key: string, value: Payload)
    requires 0 <= depth && |entries| <= 100
    ensures Entry(key, value) in SanitizeEntries(entries, limit, depth, redacted) <==> Held(entries, limit, depth, redacted, key, value)
    decreases depth, 2 + |entries|
  {
    hide SafeKey, Sanitize, Held, CleanKey, Bounded;
    if entries == [] {
      NothingHeld(limit, depth, redacted, key, value);
    } else {
      var n := |entries| - 1;
      var (front, last) := (entries[..n], entries[n]);
      EntriesHold(front, limit, depth, redacted, key, value);
      EntriesBounded(front, limit, depth, redacted);
      SetEntryHas(SanitizeEntries(front, limit, depth, redacted), SafeKey(last.key), Sanitize(last.value, limit, depth, redacted), key, value);
      HeldStep(entries, limit, depth, redacted, key, value);
    }
  }

  lemma NothingHeld(limit: nat, depth: int, redacted: Payload -> string, key: string, value: Payload)
    ensures !Held([], limit, depth, redacted, key, value)
  {
  }

  lemma {:induction false} SetEntryHas(entries: seq<Entry>, key: string, value: Payload, k: string, v: Payload)
    requires DistinctKeys(entries)
    ensures Entry(k, v) in SetEntry(entries, key, value) <==> if k == key then v == value else Entry(k, v) in entries
  {
    if entries == [] {
    } else if entries[0].key == key {
      assert entries == [entries[0]] + entries[1..];
      forall e | e in entries[1..] ensures e.key != key {
        var i :| 0 <= i < |entries[1..]| && entries[1..][i] == e;
        assert entries[i + 1] == e;
      }
    } else {
      assert entries == [entries[0]] + entries[1..];
      SetEntryHas(entries[1..], key, value, k, v);
    }
  }

  lemma HeldOfTaken(entries: seq<Entry>, limit: nat, depth: int, redacted: Payload -> string, key: string, value: Payload)
    ensures Held(Take(entries, 100), limit, depth, redacted, key, value) <==> Held(entries, limit, depth, redacted, key, value)
  {
    hide SafeKey, Sanitize;
    var kept := Take(entries, 100);
    assert forall i | 0 <= i < |kept| :: kept[i] == entries[i];
    SameLast(entries, kept, key);
  }

  function KeysOf(entries: seq<Entry>): seq<string> {
    seq(|entries|, i requires 0 <= i < |entries| => entries[i].key)
  }

  function SafeKeys(entries: seq<Entry>): seq<string> {
    seq(|entries|, i requires 0 <= i < |entries| => SafeKey(entries[i].key))
  }

  lemma {:induction false} SetEntryKeys(entries: seq<Entry>, key: string, value: Payload)
    ensures var keys := KeysOf(entries);
            KeysOf(SetEntry(entries, key, value)) == if key in keys then keys else keys + [key]
  {
    if entries == [] {
    } else if entries[0].key == key {
      assert KeysOf(entries)[0] == key;
    } else {
      SetEntryKeys(entries[1..], key, value);
      assert KeysOf(entries) == [entries[0].key] + KeysOf(entries[1..]);
      assert KeysOf(SetEntry(entries, key, value)) == [entries[0].key] + KeysOf(SetEntry(entries[1..], key, value));
    }
  }

  /** The keys of a mapping come in the order in which they first occur. */
  lemma {:induction false} EntriesInOrder(entries: seq<Entry>, limit: nat, depth: int, redacted: Payload -> string)
    ensures KeysOf(SanitizeEntries(entries, limit, depth, redacted)) == Firsts.Distinct(SafeKeys(entries))
    decreases |entries|
  {
    hide SafeKey, Sanitize;
    if entries != [] {
      var n := |entries| - 1;
      EntriesInOrder(entries[..n], limit, depth, redacted);
      SetEntryKeys(SanitizeEntries(entries[..n], limit, depth, redacted), SafeKey(entries[n].key), Sanitize(entries[n].value, limit, depth, redacted));
      Firsts.DistinctSnoc(SafeKeys(entries[..n]), SafeKey(entries[n].key));
      assert SafeKeys(entries) == SafeKeys(entries[..n]) + [SafeKey(entries[n].key)];
    }
  }

  lemma MappingInOrder(entries: seq<Entry>, limit: nat, depth: int, redacted: Payload -> string)
    requires 0 < depth
    ensures Sanitize(Mapping(entries), limit, depth, redacted).Mapping?
    ensures KeysOf(Sanitize(Mapping(entries), limit, depth, redacted).entries) == Firsts.Distinct(SafeKeys(Take(entries, 100)))
  {
    EntriesInOrder(Take(entries, MAX_MAPPING_ITEMS), limit, depth - 1, redacted);
    hide SanitizeEntries, KeysOf, SafeKeys;
  }

  /** A mapping keeps, of its first hundred entries, for every sanitised key the last value under it, sanitised with one level less. */
  lemma MappingKept(entries: seq<Entry>, limit: nat, depth: int, redacted: Payload -> string, key: string, value: Payload)
    requires 0 < depth
    ensures Sanitize(Mapping(entries), limit, depth, redacted).Mapping?
    ensures Entry(key, value) in Sanitize(Mapping(entries), limit, depth, redacted).entries <==> Held(entries, limit, depth - 1, redacted, key, value)
  {
    EntriesHold(Take(entries, MAX_MAPPING_ITEMS), limit, depth - 1, redacted, key, value);
    HeldOfTaken(entries, limit, depth - 1, redacted, key, value);
    hide SanitizeEntries, Held;
  }
}
