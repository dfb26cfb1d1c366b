/** What the text sanitisers keep: every character that says something, in order, up to the cut. */
module TextContent {
  import opened Labels
  import opened Models
  import LhpPayload

  /** The characters of a text that pass `keep`, in order. */
  function Ink(s: string, keep: char -> bool): string {
    if s == "" then "" else (if keep(s[0]) then [s[0]] else "") + Ink(s[1..], keep)
  }

  lemma InkFirst(a: string, b: string, keep: char -> bool)
    requires a != ""
    ensures Ink(a + b, keep) == Ink([a[0]], keep) + Ink(a[1..] + b, keep)
  {
    assert (a + b)[0] == a[0] && (a + b)[1..] == a[1..] + b;
    assert [a[0]][1..] == "";
  }

  lemma {:induction false} InkAppend(a: string, b: string, keep: char -> bool)
    ensures Ink(a + b, keep) == Ink(a, keep) + Ink(b, keep)
  {
    if a == "" {
      assert a + b == b;
    } else {
      hide Ink;
      var first := [a[0]];
      InkFirst(a, b, keep);
      InkFirst(a, "", keep);
      InkAppend(a[1..], b, keep);
      assert a + "" == a && a[1..] + "" == a[1..];
      Assoc(Ink(first, keep), Ink(a[1..], keep), Ink(b, keep));
    }
  }

  ghost predicate SkipsSpaces(keep: char -> bool) {
    forall c | keep(c) :: !IsSpace(c)
  }

  lemma {:induction false} InkJoin(words: seq<string>, keep: char -> bool)
    requires SkipsSpaces(keep) && words != []
    ensures Ink(Join(words), keep) == Ink(words[0], keep) + Ink(Join(words[1..]), keep)
  {
    if |words| == 1 {
      assert Ink(Join(words[1..]), keep) == "";
    } else {
      assert Ink(" ", keep) == "" by { assert !keep(' '); assert " "[1..] == ""; }
      InkAppend(words[0], " ", keep);
      InkAppend(words[0] + " ", Join(words[1..]), keep);
    }
  }

  /** Collapsing whitespace loses nothing that is kept. */
  lemma {:induction false} InkCollapse(s: string, keep: char -> bool)
    requires SkipsSpaces(keep)
    ensures Ink(Collapse(s), keep) == Ink(s, keep)
    decreases |s|
  {
    if s != "" {
      if IsSpace(s[0]) {
        InkCollapse(s[1..], keep);
        assert !keep(s[0]);
      } else {
        var n := WordLength(s);
        InkCollapse(s[n..], keep);
        InkAppend(s[..n], s[n..], keep);
        assert s[..n] + s[n..] == s;
        assert Split(s) == [s[..n]] + Split(s[n..]);
        InkJoin(Split(s), keep);
        assert Split(s)[1..] == Split(s[n..]);
      }
    }
  }

  lemma {:induction false} InkDrop(s: string, keep: char -> bool)
    requires forall c | keep(c) :: IsPrintable(c)
    ensures Ink(DropUnprintable(s), keep) == Ink(s, keep)
  {
    if s != "" {
      InkDrop(s[1..], keep);
      InkAppend(if IsPrintable(s[0]) then [s[0]] else "", DropUnprintable(s[1..]), keep);
      InkOne(s[0], keep);
    }
  }

  lemma InkOne(c: char, keep: char -> bool)
    ensures Ink([c], keep) == (if keep(c) then [c] else "") && Ink("", keep) == ""
  {
    assert [c][1..] == "";
  }

  lemma InkCut(s: string, n: nat, keep: char -> bool)
    ensures Ink(Cut(s, n), keep) <= Ink(s, keep)
    ensures |s| <= n ==> Ink(Cut(s, n), keep) == Ink(s, keep)
  {
    if |s| > n {
      assert s == s[..n] + s[n..];
      InkAppend(s[..n], s[n..], keep);
    }
  }

  // --- labels ---

  predicate Shows(c: char) {
    IsPrintable(c) && !IsSpace(c)
  }

  /**
   A label shows the printable characters of its text, in order, from the first one up to the cut,
   and loses none of them unless it is cut; it is as long as the limit then.
   */
  lemma LabelShows(s: string, limit: nat)
    ensures |SanitizeLabel(s, limit)| <= limit
    ensures Ink(SanitizeLabel(s, limit), Shows) <= Ink(s, Shows)
    ensures |SanitizeLabel(s, limit)| < limit ==> Ink(SanitizeLabel(s, limit), Shows) == Ink(s, Shows)
  {
    InkCollapse(s, Shows);
    InkDrop(Collapse(s), Shows);
    InkCut(DropUnprintable(Collapse(s)), limit, Shows);
    hide Ink, Collapse, DropUnprintable;
  }

  // --- handoff texts ---

  /** What a handoff text may hold besides blanks. */
  predicate Carries(c: char) {
    !IsSpace(c) && c != '`' && c != '<' && c != '>' && c != '[' && c != ']' && c != '{' && c != '}' && c >= ' '
  }

  lemma {:induction false} InkBlankOut(s: string)
    ensures Ink(LhpPayload.BlankOut(s), Carries) == Ink(s, Carries)
  {
    if s != "" {
      InkBlankOut(s[1..]);
      assert LhpPayload.BlankOut(s)[1..] == LhpPayload.BlankOut(s[1..]);
      assert LhpPayload.IsBlocked(s[0]) ==> !Carries(s[0]);
    }
  }

  lemma {:induction false} NoInkNoWords(s: string)
    ensures Collapse(s) == "" <==> forall i | 0 <= i < |s| :: IsSpace(s[i])
    decreases |s|
  {
    if s != "" {
      if IsSpace(s[0]) {
        NoInkNoWords(s[1..]);
        assert forall i | 0 < i < |s| :: s[i] == s[1..][i - 1];
      } else {
        var n := WordLength(s);
        assert Split(s) == [s[..n]] + Split(s[n..]);
        assert Join(Split(s)) != "";
      }
    }
  }

  /**
   A sanitised handoff text carries the characters of its source that are neither blank nor
   blocked, in order, up to the cut; a source with no character but those becomes a dash.
   */
  lemma HandoffTextCarries(s: string, limit: nat)
    requires Ink(s, Carries) != ""
    ensures Ink(LhpPayload.SafeText(s, limit), Carries) <= Ink(s, Carries)
    ensures |LhpPayload.SafeText(s, limit)| < limit ==> Ink(LhpPayload.SafeText(s, limit), Carries) == Ink(s, Carries)
  {
    InkBlankOut(s);
    InkCollapse(LhpPayload.BlankOut(s), Carries);
    var full := Collapse(LhpPayload.BlankOut(s));
    assert full != "";
    InkCut(full, LhpPayload.AtLeastOne(limit), Carries);
    hide Ink, Collapse;
  }

  /** In a payload, so do texts, values of no known kind, and all that lies below the last level. */
  lemma PayloadTextCarries(v: LhpPayload.Payload, limit: nat, depth: int, redacted: LhpPayload.Payload -> string)
    requires v.Text? || v.Other? || depth <= 0
    ensures var out := LhpPayload.Sanitize(v, limit, depth, redacted);
            && out.Text? && (Ink(redacted(v), Carries) == "" ==> out.s == ['\U{2014}'])
            && (Ink(redacted(v), Carries) != "" ==>
                  && Ink(out.s, Carries) <= Ink(redacted(v), Carries)
                  && (|out.s| < limit ==> Ink(out.s, Carries) == Ink(redacted(v), Carries)))
  {
    hide LhpPayload.SafeText, Ink;
    if Ink(redacted(v), Carries) != "" {
      HandoffTextCarries(redacted(v), limit);
    } else {
      NoInk(redacted(v));
      EmptyBecomesDash(redacted(v), limit);
    }
  }

  lemma {:induction false} NoInk(s: string)
    requires Ink(s, Carries) == ""
    ensures forall i | 0 <= i < |s| :: !Carries(s[i])
  {
    if s != "" {
      NoInk(s[1..]);
      assert forall i | 1 <= i < |s| :: s[i] == s[1..][i - 1];
    }
  }

  lemma EmptyBecomesDash(s: string, limit: nat)
    requires forall i | 0 <= i < |s| :: !Carries(s[i])
    ensures LhpPayload.SafeText(s, limit) == ['\U{2014}']
  {
    BlankOutLength(s);
    var t := LhpPayload.BlankOut(s);
    forall i | 0 <= i < |t| ensures IsSpace(t[i]) {
      assert !Carries(s[i]);
    }
    NoInkNoWords(t);
  }

  lemma {:induction false} BlankOutLength(s: string)
    ensures |LhpPayload.BlankOut(s)| == |s|
    ensures forall i | 0 <= i < |s| :: LhpPayload.BlankOut(s)[i] == if LhpPayload.IsBlocked(s[i]) then ' ' else s[i]
  {
    if s != "" {
      BlankOutLength(s[1..]);
    }
  }

  /** In particular a text of an event payload: four hundred characters of it. */
  lemma EventTextShows(s: string)
    ensures Shown(BoundText(s), s, 400)
  {
    LabelShows(s, 400);
    hide Ink, SanitizeLabel;
  }

  /** And the texts of a finding: title, resource and summary, as long as they may be. */
  lemma FindingTextsShow(raw: Finding)
    ensures var f := ScrubFinding(raw);
            && Shown(f.title, raw.title, 200) && Shown(f.resource, raw.resource, 120) && Shown(f.summary, raw.summary, 600)
            && f == raw.(title := f.title, resource := f.resource, summary := f.summary)
  {
    LabelShows(raw.title, 200);
    LabelShows(raw.resource, 120);
    LabelShows(raw.summary, 600);
    hide Ink, SanitizeLabel;
  }

  /** The text is a prefix of what its source shows, of at most `limit` characters, and all of it unless it fills them. */
  ghost predicate Shown(text: string, source: string, limit: nat) {
    && |text| <= limit && Ink(text, Shows) <= Ink(source, Shows)
    && (|text| < limit ==> Ink(text, Shows) == Ink(source, Shows))
  }
}
