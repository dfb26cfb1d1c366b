/**
 Defanging of untrusted telemetry text (app/cases/models.py). Which characters outside ASCII
 are printable is left open; the model uses only that no whitespace except the blank is.
 */
module Labels {

  predicate Ascii(s: string) {
    forall c | c in s :: c <= '\U{7f}'
  }

  /** The characters `str.isspace` accepts. */
  predicate IsSpace(c: char) {
    || '\t' <= c <= '\r'
    || '\U{1c}' <= c <= ' '
    || c == '\U{85}' || c == '\U{a0}' || c == '\U{1680}'
    || '\U{2000}' <= c <= '\U{200a}'
    || c == '\U{2028}' || c == '\U{2029}' || c == '\U{202f}' || c == '\U{205f}' || c == '\U{3000}'
  }

  /** An arbitrary set: which characters outside ASCII are printable. */
  const PRINTABLE_BEYOND_ASCII: set<char>

  /** `str.isprintable` on one character. */
  predicate IsPrintable(c: char) {
    ' ' <= c <= '~' || ('\U{a0}' < c && !IsSpace(c) && c in PRINTABLE_BEYOND_ASCII)
  }

  /** `not str(value).strip()`. */
  predicate Blank(s: string) {
    forall c | c in s :: IsSpace(c)
  }

  /** The text has a character that is not whitespace. */
  ghost predicate Says(s: string) {
    exists i | 0 <= i < |s| :: !IsSpace(s[i])
  }

  lemma BlankSaysNothing(s: string)
    ensures Blank(s) <==> !Says(s)
  {
  }

  function WordLength(s: string): (n: nat)
    ensures n <= |s|
    ensures forall i | 0 <= i < n :: !IsSpace(s[i])
    ensures n < |s| ==> IsSpace(s[n])
  {
    if s == [] || IsSpace(s[0]) then 0 else 1 + WordLength(s[1..])
  }

  /** `str.split()`. */
  function Split(s: string): seq<string> {
    if s == [] then []
    else if IsSpace(s[0]) then Split(s[1..])
    else var n := WordLength(s); [s[..n]] + Split(s[n..])
  }

  /** `" ".join(words)`. */
  function Join(words: seq<string>): string {
    if words == [] then []
    else if |words| == 1 then words[0]
    else words[0] + " " + Join(words[1..])
  }

  function Collapse(s: string): string {
    Join(Split(s))
  }

  function DropUnprintable(s: string): string {
    if s == [] then []
    else (if IsPrintable(s[0]) then [s[0]] else []) + DropUnprintable(s[1..])
  }

  function Cut(s: string, limit: nat): string {
    if |s| <= limit then s else s[..limit]
  }

  /** Collapse whitespace, then drop what is not printable, then cut. */
  function SanitizeLabel(s: string, limit: nat): string {
    Cut(DropUnprintable(Collapse(s)), limit)
  }

  ghost predicate AllPrintable(s: string) {
    forall c | c in s :: IsPrintable(c)
  }

  ghost predicate NonePrintable(s: string) {
    forall c | c in s :: !IsPrintable(c)
  }

  lemma {:induction false} DropUnprintableLeaves(s: string)
    ensures |DropUnprintable(s)| <= |s|
    ensures AllPrintable(DropUnprintable(s))
  {
    if s != [] {
      DropUnprintableLeaves(s[1..]);
    }
  }

  lemma {:induction false} DropUnprintableKeeps(s: string)
    requires AllPrintable(s)
    ensures DropUnprintable(s) == s
  {
    if s != [] {
      assert s[0] in s;
      DropUnprintableKeeps(s[1..]);
    }
  }

  /** No blank at either end and no two blanks in a row. */
  ghost predicate NoStrayBlanks(s: string) {
    && (s != [] ==> s[0] != ' ' && s[|s| - 1] != ' ')
    && (forall i | 0 <= i < |s| - 1 :: !(s[i] == ' ' && s[i + 1] == ' '))
  }

  ghost predicate IsWord(w: string) {
    w != [] && forall c | c in w :: !IsSpace(c)
  }

  lemma {:induction false} SplitYieldsWords(s: string)
    ensures forall w | w in Split(s) :: IsWord(w)
  {
    if s == [] {
    } else if IsSpace(s[0]) {
      SplitYieldsWords(s[1..]);
    } else {
      SplitYieldsWords(s[WordLength(s)..]);
    }
  }

  /** Joining words and splitting again gives the same words. */
  lemma {:induction false} SplitJoin(words: seq<string>)
    requires forall w | w in words :: IsWord(w)
    ensures Split(Join(words)) == words
  {
    if words == [] {
    } else {
      var w := words[0];
      assert w in words;
      var s := Join(words);
      if |words| == 1 {
        assert WordLength(s) == |s| by { WordThenRest(w, ""); assert w + "" == w; }
        assert s[..|s|] == s && s[|s|..] == "";
      } else {
        var rest := Join(words[1..]);
        assert s == w + (" " + rest);
        WordThenRest(w, " " + rest);
        assert s[..|w|] == w && s[|w|..] == " " + rest;
        assert (" " + rest)[1..] == rest;
        SplitJoin(words[1..]);
      }
    }
  }

  lemma WordThenRest(w: string, rest: string)
    requires IsWord(w)
    requires rest != [] ==> IsSpace(rest[0])
    ensures WordLength(w + rest) == |w|
  {
    assert forall i | 0 <= i < |w| :: (w + rest)[i] == w[i] && w[i] in w;
    assert rest != [] ==> (w + rest)[|w|] == rest[0];
  }

  lemma {:induction false} CollapseShrinks(s: string)
    ensures |Collapse(s)| <= |s|
    ensures forall c | c in Collapse(s) :: c in s || c == ' '
    ensures s != [] && IsSpace(s[0]) && Split(s) != [] ==> |Collapse(s)| < |s|
  {
    if s == [] {
    } else if IsSpace(s[0]) {
      CollapseShrinks(s[1..]);
    } else {
      var n := WordLength(s);
      CollapseShrinks(s[n..]);
      var tail := Split(s[n..]);
      assert Split(s) == [s[..n]] + tail;
      if tail != [] {
        assert ([s[..n]] + tail)[1..] == tail;
      }
    }
  }

  lemma CollapseIdempotent(s: string)
    ensures Collapse(Collapse(s)) == Collapse(s)
  {
    SplitYieldsWords(s);
    SplitJoin(Split(s));
  }

  /** What one application leaves is printable and short, so a second one only collapses blanks. */
  lemma SecondPassOnlyCollapses(s: string, limit: nat)
    requires AllPrintable(s)
    requires |s| <= limit
    ensures SanitizeLabel(s, limit) == Collapse(s)
    ensures AllPrintable(Collapse(s))
    ensures |Collapse(s)| <= limit
  {
    CollapseShrinks(s);
    DropUnprintableKeeps(Collapse(s));
  }

  /** Scrubbing stabilises after two passes. */
  lemma SanitizeLabelStabilises(s: string, limit: nat)
    ensures var twice := SanitizeLabel(SanitizeLabel(s, limit), limit);
            SanitizeLabel(twice, limit) == twice
  {
    var once := SanitizeLabel(s, limit);
    DropUnprintableLeaves(Collapse(s));
    SecondPassOnlyCollapses(once, limit);
    SecondPassOnlyCollapses(Collapse(once), limit);
    CollapseIdempotent(once);
  }

  lemma StrayBlanksAfterWord(w: string, t: string)
    requires IsWord(w)
    ensures NoStrayBlanks(w + " " + t) <==> t != [] && NoStrayBlanks(t)
  {
    var n, s := |w|, w + " " + t;
    assert forall i | 0 <= i < n :: s[i] == w[i] && w[i] in w;
    assert s[n] == ' ' && forall i | 0 <= i < |t| :: s[n + 1 + i] == t[i];
    if t != [] && NoStrayBlanks(t) {
      forall i | 0 <= i < |s| - 1 ensures !(s[i] == ' ' && s[i + 1] == ' ') {
        if i > n { assert s[i] == t[i - n - 1] && s[i + 1] == t[i - n]; }
      }
    }
    if NoStrayBlanks(s) && t != [] {
      assert t[|t| - 1] == s[|s| - 1];
      forall i | 0 <= i < |t| - 1 ensures !(t[i] == ' ' && t[i + 1] == ' ') {
        assert s[n + 1 + i] == t[i] && s[n + 1 + (i + 1)] == t[i + 1];
      }
    }
  }

  lemma StrayBlanksOfWord(w: string)
    requires IsWord(w)
    ensures NoStrayBlanks(w)
  {
    assert w[0] in w && w[|w| - 1] in w && forall i | 0 <= i < |w| :: w[i] in w;
  }

  /** Blanks are the only whitespace; then collapsing changes nothing exactly on text without stray blanks. */
  lemma {:induction false} CollapseFixedIff(s: string)
    requires forall c | c in s :: IsSpace(c) ==> c == ' '
    ensures Collapse(s) == s <==> NoStrayBlanks(s)
  {
    if s == [] {
    } else if IsSpace(s[0]) {
      assert s[0] in s;
      CollapseShrinks(s);
      if Split(s) == [] { assert Collapse(s) == []; }
    } else {
      var n := WordLength(s);
      var w, rest := s[..n], s[n..];
      assert Split(s) == [w] + Split(rest);
      if rest == [] {
        assert s == w;
        StrayBlanksOfWord(w);
      } else {
        assert rest[0] == s[n] && s[n] in s;
        var t := rest[1..];
        assert s == w + " " + t;
        assert forall c | c in t :: c in s;
        assert Split(rest) == Split(t);
        StrayBlanksAfterWord(w, t);
        CollapseFixedIff(t);
        if Split(t) == [] {
          assert Collapse(t) == [];
        } else {
          assert ([w] + Split(t))[1..] == Split(t);
          assert Collapse(s) == w + " " + Collapse(t);
          if Collapse(s) == s {
            assert (w + " " + Collapse(t))[n + 1..] == Collapse(t);
            assert (w + " " + t)[n + 1..] == t;
          }
        }
      }
    }
  }

  lemma {:induction false} DropUnprintableAppend(a: string, b: string)
    ensures DropUnprintable(a + b) == DropUnprintable(a) + DropUnprintable(b)
  {
    if a == [] {
      assert a + b == b;
    } else {
      var first := if IsPrintable(a[0]) then [a[0]] else [];
      DropUnprintableAppend(a[1..], b);
      assert (a + b)[0] == a[0] && (a + b)[1..] == a[1..] + b;
      assert DropUnprintable(a + b) == first + DropUnprintable(a[1..] + b);
      assert DropUnprintable(a) == first + DropUnprintable(a[1..]);
      hide DropUnprintable, IsPrintable;
    }
  }

  /** In terms of the result: one application is enough exactly when it leaves no stray blank. */
  lemma IdempotentIffNoStrayBlanks(s: string, limit: nat)
    ensures SanitizeLabel(SanitizeLabel(s, limit), limit) == SanitizeLabel(s, limit)
            <==> NoStrayBlanks(SanitizeLabel(s, limit))
  {
    var once := SanitizeLabel(s, limit);
    DropUnprintableLeaves(Collapse(s));
    SecondPassOnlyCollapses(once, limit);
    CollapseFixedIff(once);
  }

  // --- in terms of the text itself ---

  predicate KeepsSomething(w: string) {
    exists i | 0 <= i < |w| :: IsPrintable(w[i])
  }

  /** Where word `i` starts once the words before it have lost their unprintable characters. */
  function Offset(words: seq<string>, i: nat): nat
    requires i < |words|
  {
    if i == 0 then 0 else |DropUnprintable(words[0])| + 1 + Offset(words[1..], i - 1)
  }

  /** No word that begins before the cut loses all its characters, and the cut does not fall just after a blank. */
  ghost predicate CutsCleanly(words: seq<string>, limit: nat) {
    && (forall i | 0 <= i < |words| && Offset(words, i) < limit :: KeepsSomething(words[i]))
    && (forall i | 0 < i < |words| :: Offset(words, i) != limit)
  }

  /** A text of at most one word, or of words that the limit cuts cleanly. */
  ghost predicate SettlesAtOnce(s: string, limit: nat) {
    |Split(s)| <= 1 || CutsCleanly(Split(s), limit)
  }

  lemma {:induction false} DropKeepsIff(w: string)
    ensures DropUnprintable(w) != [] <==> KeepsSomething(w)
  {
    if w != [] {
      DropKeepsIff(w[1..]);
      if KeepsSomething(w) && !IsPrintable(w[0]) {
        var i :| 0 <= i < |w| && IsPrintable(w[i]);
        assert w[1..][i - 1] == w[i];
      }
      if KeepsSomething(w[1..]) {
        var i :| 0 <= i < |w[1..]| && IsPrintable(w[1..][i]);
        assert w[i + 1] == w[1..][i];
      }
    }
  }

  lemma {:induction false} DropOfWord(w: string)
    requires IsWord(w)
    ensures forall c | c in DropUnprintable(w) :: !IsSpace(c)
  {
    assert w[0] in w;
    if |w| > 1 {
      assert forall c | c in w[1..] :: c in w;
      DropOfWord(w[1..]);
    }
  }

  lemma JoinTail(words: seq<string>)
    requires |words| > 1
    ensures DropUnprintable(Join(words)) == DropUnprintable(words[0]) + " " + DropUnprintable(Join(words[1..]))
  {
    var rest := Join(words[1..]);
    assert Join(words) == words[0] + " " + rest;
    BlankKept();
    hide DropUnprintable, Join;
    Assoc(words[0], " ", rest);
    DropUnprintableAppend(words[0], " " + rest);
    DropUnprintableAppend(" ", rest);
    Assoc(DropUnprintable(words[0]), " ", DropUnprintable(rest));
  }

  lemma BlankKept()
    ensures DropUnprintable(" ") == " "
  {
    assert IsPrintable(' ');
    assert " "[1..] == "";
  }

  lemma Assoc(a: string, b: string, c: string)
    ensures a + (b + c) == a + b + c
  {
  }

  /** How the cleanliness of a cut depends on the first word. */
  lemma CutsCleanlyStep(words: seq<string>, limit: nat)
    requires |words| > 1 && limit > 0
    ensures var d := |DropUnprintable(words[0])|;
            (CutsCleanly(words, limit)
             <==> KeepsSomething(words[0]) && limit != d + 1 && (limit <= d || CutsCleanly(words[1..], limit - d - 1)))
  {
    hide KeepsSomething, DropUnprintable;
    var d, rest := |DropUnprintable(words[0])|, words[1..];
    assert forall i | 0 < i < |words| :: Offset(words, i) == d + 1 + Offset(rest, i - 1) && words[i] == rest[i - 1];
    if CutsCleanly(words, limit) {
      assert Offset(words, 0) < limit;
      assert Offset(words, 1) != limit;
      if limit > d + 1 {
        forall i | 0 <= i < |rest| && Offset(rest, i) < limit - d - 1 ensures KeepsSomething(rest[i]) {
          assert Offset(words, i + 1) < limit;
        }
        forall i | 0 < i < |rest| ensures Offset(rest, i) != limit - d - 1 {
          assert Offset(words, i + 1) != limit;
        }
      }
    }
  }

  lemma CutOfWord(d: string, limit: nat)
    requires limit > 0 && forall c | c in d :: !IsSpace(c)
    ensures Cut(d, limit) != [] && NoStrayBlanks(Cut(d, limit)) <==> d != []
  {
    if d != [] {
      assert forall c | c in Cut(d, limit) :: c in d;
      StrayBlanksOfWord(Cut(d, limit));
    }
  }

  lemma CutAfterWord(d: string, rest: string, limit: nat)
    requires limit > 0 && forall c | c in d :: !IsSpace(c)
    ensures var t := Cut(d + " " + rest, limit);
            (t != [] && NoStrayBlanks(t)
             <==> (&& d != [] && limit != |d| + 1
                   && (limit <= |d| || (Cut(rest, limit - |d| - 1) != [] && NoStrayBlanks(Cut(rest, limit - |d| - 1))))))
  {
    hide NoStrayBlanks;
    var t := Cut(d + " " + rest, limit);
    if limit <= |d| {
      assert t == Cut(d, limit);
      CutOfWord(d, limit);
    } else if limit == |d| + 1 {
      assert t == d + " ";
      BlankAtAnEnd(t);
    } else {
      assert t == d + " " + Cut(rest, limit - |d| - 1);
      if d == [] {
        BlankAtAnEnd(t);
      } else {
        StrayBlanksAfterWord(d, Cut(rest, limit - |d| - 1));
      }
    }
  }

  lemma BlankAtAnEnd(t: string)
    requires t != [] && (t[0] == ' ' || t[|t| - 1] == ' ')
    ensures !NoStrayBlanks(t)
  {
  }

  lemma {:induction false} CutOfWords(words: seq<string>, limit: nat)
    requires words != [] && limit > 0 && forall w | w in words :: IsWord(w)
    ensures var t := Cut(DropUnprintable(Join(words)), limit);
            t != [] && NoStrayBlanks(t) <==> CutsCleanly(words, limit)
  {
    hide DropUnprintable, KeepsSomething, NoStrayBlanks, Cut;
    var w := words[0];
    assert w in words;
    var d := DropUnprintable(w);
    DropKeepsIff(w);
    DropOfWord(w);
    if |words| == 1 {
      CutOfWord(d, limit);
    } else {
      JoinTail(words);
      CutsCleanlyStep(words, limit);
      CutAfterWord(d, DropUnprintable(Join(words[1..])), limit);
      if limit > |d| + 1 {
        assert forall v | v in words[1..] :: v in words;
        CutOfWords(words[1..], limit - |d| - 1);
      }
    }
  }

  lemma SingleWordSettles(s: string, limit: nat)
    requires |Split(s)| <= 1 || limit == 0
    ensures NoStrayBlanks(SanitizeLabel(s, limit))
  {
    SplitYieldsWords(s);
    if |Split(s)| == 1 && limit > 0 {
      var w := Split(s)[0];
      DropOfWord(w);
      assert forall c | c in SanitizeLabel(s, limit) :: c in DropUnprintable(w);
      if SanitizeLabel(s, limit) != [] { StrayBlanksOfWord(SanitizeLabel(s, limit)); }
    }
  }

  /**
   One application is enough exactly when the text has at most one word, or every word that
   begins before the cut keeps a printable character and the cut does not fall just after a blank.
   */
  lemma SanitizeLabelIdempotentIff(s: string, limit: nat)
    ensures SanitizeLabel(SanitizeLabel(s, limit), limit) == SanitizeLabel(s, limit) <==> SettlesAtOnce(s, limit)
  {
    IdempotentIffNoStrayBlanks(s, limit);
    SplitYieldsWords(s);
    hide DropUnprintable, KeepsSomething, CutsCleanly, NoStrayBlanks;
    if |Split(s)| <= 1 {
      SingleWordSettles(s, limit);
    } else if limit == 0 {
      SingleWordSettles(s, limit);
      NothingToCut(Split(s));
    } else {
      CutOfWords(Split(s), limit);
      if SanitizeLabel(s, limit) == [] {
        JoinTail(Split(s));
      }
    }
  }

  lemma {:induction false} OffsetPositive(words: seq<string>, i: nat)
    requires 0 < i < |words|
    ensures Offset(words, i) > 0
  {
  }

  lemma NothingToCut(words: seq<string>)
    ensures CutsCleanly(words, 0)
  {
    forall i | 0 < i < |words| ensures Offset(words, i) != 0 { OffsetPositive(words, i); }
  }

  /** The other way to fail: a limit that cuts just after a blank leaves it at the end. */
  lemma SanitizeLabelCutAfterBlank(a: string, b: string)
    requires IsWord(a) && IsWord(b) && AllPrintable(a)
    ensures SanitizeLabel(a + " " + b, |a| + 1) == a + " "
    ensures SanitizeLabel(a + " ", |a| + 1) == a
  {
    SplitJoin([a, b]);
    assert Join([a, b]) == a + " " + b by { assert [a, b][1..] == [b]; }
    JoinTail([a, b]);
    assert [a, b][1..] == [b];
    DropUnprintableKeeps(a);
    SplitOfWordAndBlank(a);
  }

  lemma SplitOfWordAndBlank(a: string)
    requires IsWord(a)
    ensures Split(a + " ") == [a]
  {
    WordThenRest(a, " ");
    var s := a + " ";
    assert s[0] == a[0] && a[0] in a;
    assert s[..|a|] == a && s[|a|..] == " ";
    assert Split(" ") == [] by { assert " "[1..] == ""; }
  }

  /**
   The obvious stronger claim is false: a word without a printable character is dropped
   between its two neighbouring blanks, and both of them stay.
   */
  lemma SanitizeLabelNotIdempotent(a: string, u: string, b: string, limit: nat)
    requires IsWord(a) && IsWord(u) && IsWord(b)
    requires AllPrintable(a) && AllPrintable(b)
    requires NonePrintable(u)
    requires |a| + 2 + |b| <= limit
    ensures SanitizeLabel(a + " " + u + " " + b, limit) == a + "  " + b
    ensures SanitizeLabel(a + "  " + b, limit) != a + "  " + b
  {
    var s := a + " " + u + " " + b;
    assert Collapse(s) == s by { CollapseKeepsThreeWords(a, u, b); }
    var left, right := a + " ", " " + b;
    assert AllPrintable(left) && AllPrintable(right);
    DropMiddle(left, u, right);
    assert left + u + right == s;
    var once := a + "  " + b;
    assert left + right == once;
    assert once[|a|] == ' ' && once[|a| + 1] == ' ';
    IdempotentIffNoStrayBlanks(s, limit);
  }

  lemma CollapseKeepsThreeWords(a: string, u: string, b: string)
    requires IsWord(a) && IsWord(u) && IsWord(b)
    ensures Collapse(a + " " + u + " " + b) == a + " " + u + " " + b
  {
    var s := a + " " + (u + " " + b);
    assert s == a + " " + u + " " + b;
    StrayBlanksOfWord(b);
    StrayBlanksAfterWord(u, b);
    StrayBlanksAfterWord(a, u + " " + b);
    CollapseFixedIff(s);
  }

  lemma DropMiddle(left: string, u: string, right: string)
    requires AllPrintable(left) && AllPrintable(right)
    requires NonePrintable(u)
    ensures DropUnprintable(left + u + right) == left + right
  {
    DropUnprintableAppend(left, u);
    DropUnprintableAppend(left + u, right);
    DropAll(u);
    DropUnprintableKeeps(left);
    DropUnprintableKeeps(right);
    hide DropUnprintable, AllPrintable;
    assert left + "" == left;
  }

  lemma {:induction false} DropAll(u: string)
    requires NonePrintable(u)
    ensures DropUnprintable(u) == ""
  {
    if u != [] {
      assert u[0] in u;
      DropAll(u[1..]);
    }
  }

  /** One input of that family. */
  lemma SanitizeLabelNotIdempotentExample()
    ensures exists s: string :: SanitizeLabel(SanitizeLabel(s, 200), 200) != SanitizeLabel(s, 200)
  {
    var a, u, b := ['a'], ['\U{1}'], ['b'];
    SanitizeLabelNotIdempotent(a, u, b, 200);
    assert SanitizeLabel(a + " " + u + " " + b, 200) == a + "  " + b;
  }
}
