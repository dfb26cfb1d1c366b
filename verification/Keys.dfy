/** What the idempotency key of a handoff says (app/cases/models.py). */
module Keys {
  import opened Models
  import opened Lifecycle
  import opened LhpTokens
  import Lhp = LhpHandoff

  /** A generated id, or a key of the program: token characters alone. */
  ghost predicate PlainText(s: string) {
    s != "" && OnlyTokenChars(s)
  }

  lemma SeparatorsAreTokens()
    ensures OnlyTokenChars(":engineering:") && OnlyTokenChars(":v1")
  {
    assert forall c | c in ":engineering:" :: c == ':' || 'a' <= c <= 'z';
    assert forall c | c in ":v1" :: c == ':' || 'a' <= c <= 'z' || c == '1';
  }

  /** For plain texts that leave room, the key reads case, loop, objective and version, with nothing changed or cut. */
  lemma KeyReads(id: string, f: Finding, objective: string)
    requires PlainText(id) && PlainText(objective) && objective == (if f.objectiveKey != "" then f.objectiveKey else f.checkId)
    requires |id| + |objective| + 16 <= 180
    ensures IdempotencyKey(id, f) == id + ":engineering:" + objective + ":v1"
  {
    SeparatorsAreTokens();
    var key := id + ":engineering:" + objective + ":v1";
    assert OnlyTokenChars(key);
    TokenFixedIff(key, Lhp.ID_LIMIT);
    hide SanitizeToken;
  }

  /** Keys of different cases differ, whatever their findings: case ids hold no colon. */
  lemma KeyNamesCase(c: string, d: string, f: Finding, g: Finding)
    requires PlainText(c) && PlainText(d) && ':' !in c && ':' !in d && |c| < Lhp.ID_LIMIT && |d| < Lhp.ID_LIMIT
    requires IdempotencyKey(c, f) == IdempotencyKey(d, g)
    ensures c == d
  {
    KeyStarts(c, f);
    KeyStarts(d, g);
    ColonAfter(IdempotencyKey(c, f), c);
    ColonAfter(IdempotencyKey(d, g), d);
  }

  /** The text before the first colon. */
  function BeforeColon(s: string): string {
    if s == "" || s[0] == ':' then "" else [s[0]] + BeforeColon(s[1..])
  }

  lemma {:induction false} ColonAfter(key: string, c: string)
    requires ':' !in c && |c| < |key| && key[..|c| + 1] == c + ":"
    ensures BeforeColon(key) == c
  {
    if c == "" {
      assert key[0] == (c + ":")[0];
    } else {
      assert key[0] == (c + ":")[0] == c[0];
      assert key[1..][..|c|] == key[..|c| + 1][1..] == c[1..] + ":";
      ColonAfter(key[1..], c[1..]);
    }
  }

  lemma KeyStarts(c: string, f: Finding)
    requires PlainText(c) && |c| < Lhp.ID_LIMIT
    ensures |c| + 1 <= |IdempotencyKey(c, f)| && IdempotencyKey(c, f)[..|c| + 1] == c + ":"
  {
    var rest := "engineering:" + OrElse(f.objectiveKey, f.checkId) + ":v1";
    var text := c + ":engineering:" + OrElse(f.objectiveKey, f.checkId) + ":v1";
    ColonKept(c);
    KeepAppend(c + ":", rest);
    hide KeepTokenChars;
    assert ":engineering:" == ":" + "engineering:";
    assert text == (c + ":") + rest;
    assert KeepTokenChars(text)[..|c| + 1] == c + ":";
  }

  lemma ColonKept(c: string)
    requires OnlyTokenChars(c)
    ensures KeepTokenChars(c + ":") == c + ":"
  {
    KeepTokenCharsLeaves(c + ":");
    forall x | x in c + ":" ensures IsTokenChar(x) {
      assert x in c || x == ':';
    }
  }
}
