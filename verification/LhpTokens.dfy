/**
 Loop Handoff Protocol tokens (app/lhp.py). Which characters outside ASCII count as letters or
 digits is left open; the model uses only that whitespace never does.
 */
module LhpTokens {
  import opened Wrappers
  import opened Labels

  /** An arbitrary set: which characters outside ASCII are letters or digits. */
  const ALNUM_BEYOND_ASCII: set<char>

  /** `str.isalnum` on one character. */
  predicate IsAlnum(c: char) {
    || 'a' <= c <= 'z' || 'A' <= c <= 'Z' || '0' <= c <= '9'
    || ('\U{7f}' < c && !IsSpace(c) && c in ALNUM_BEYOND_ASCII)
  }

  predicate IsTokenChar(c: char) {
    IsAlnum(c) || c == '_' || c == '-' || c == ':' || c == '.' || c == '/'
  }

  function KeepTokenChars(s: string): string {
    if s == [] then []
    else (if IsTokenChar(s[0]) then [s[0]] else []) + KeepTokenChars(s[1..])
  }

  /** Keep the allowed characters; an empty rest becomes `unknown`; cut. */
  function SanitizeToken(s: string, limit: nat): string {
    var kept := KeepTokenChars(s);
    Cut(if kept == [] then "unknown" else kept, if limit == 0 then 1 else limit)
  }

  /** A required token: blank text is refused before it is sanitised. */
  function RequireToken(s: string, limit: nat): Result<string, string> {
    if Blank(s) then Err("a required field is blank") else Ok(SanitizeToken(s, limit))
  }

  ghost predicate OnlyTokenChars(s: string) {
    forall c | c in s :: InAlphabet(c)
  }

  /** Letters, digits and five signs. */
  predicate InAlphabet(c: char) {
    || 'a' <= c <= 'z' || 'A' <= c <= 'Z' || '0' <= c <= '9'
    || c == '_' || c == '-' || c == ':' || c == '.' || c == '/'
    || (c > '\U{7f}' && c in ALNUM_BEYOND_ASCII && !IsSpace(c))
  }

  lemma {:induction false} KeepTokenCharsLeaves(s: string)
    ensures OnlyTokenChars(KeepTokenChars(s))
    ensures |KeepTokenChars(s)| <= |s|
    ensures KeepTokenChars(s) == s <==> OnlyTokenChars(s)
  {
    if s != [] {
      KeepTokenCharsLeaves(s[1..]);
      assert s == [s[0]] + s[1..];
      if OnlyTokenChars(s[1..]) && IsTokenChar(s[0]) {
        assert KeepTokenChars(s) == s;
      }
      if !IsTokenChar(s[0]) {
        assert s[0] in s;
      }
    }
  }

  lemma UnknownIsAToken()
    ensures OnlyTokenChars("unknown")
  {
    assert forall c | c in "unknown" :: 'a' <= c <= 'z';
  }

  /** A sanitised token is nonempty, short, and made of token characters only. */
  lemma TokenShape(s: string, limit: nat)
    ensures OnlyTokenChars(SanitizeToken(s, limit))
    ensures 0 < |SanitizeToken(s, limit)| <= if limit == 0 then 1 else limit
  {
    KeepTokenCharsLeaves(s);
    UnknownIsAToken();
    var full := if KeepTokenChars(s) == [] then "unknown" else KeepTokenChars(s);
    assert forall c | c in SanitizeToken(s, limit) :: c in full;
  }

  /** Sanitising leaves a text as it is exactly when the text already has the shape of a token. */
  lemma TokenFixedIff(s: string, limit: nat)
    ensures SanitizeToken(s, limit) == s
            <==> OnlyTokenChars(s) && 0 < |s| <= if limit == 0 then 1 else limit
  {
    TokenShape(s, limit);
    KeepTokenCharsLeaves(s);
  }

  /** The stored key and the looked-up key agree: sanitising twice is sanitising once. */
  lemma TokenIdempotent(s: string, limit: nat)
    ensures SanitizeToken(SanitizeToken(s, limit), limit) == SanitizeToken(s, limit)
  {
    TokenShape(s, limit);
    TokenFixedIff(SanitizeToken(s, limit), limit);
  }

  // --- when two texts share a token ---

  /** The text that a token is cut from. */
  function TokenText(s: string): string {
    if KeepTokenChars(s) == [] then "unknown" else KeepTokenChars(s)
  }

  /** The same characters at the first `n` places, or the same end before them. */
  ghost predicate AgreeUpTo(a: string, b: string, n: nat) {
    forall i: nat | i < n :: AgreeAt(a, b, i)
  }

  predicate AgreeAt(a: string, b: string, i: nat) {
    (i < |a| <==> i < |b|) && (i < |a| && i < |b| ==> a[i] == b[i])
  }

  /**
   Two texts share a token if and only if they have the same token characters up to the limit,
   where a text without any counts as `unknown`.
   */
  lemma TokensCollideIff(s: string, t: string, limit: nat)
    ensures SanitizeToken(s, limit) == SanitizeToken(t, limit)
       <==> AgreeUpTo(TokenText(s), TokenText(t), if limit == 0 then 1 else limit)
  {
    CutsAgreeIff(TokenText(s), TokenText(t), if limit == 0 then 1 else limit);
    hide KeepTokenChars;
  }

  lemma CutsAgreeIff(a: string, b: string, n: nat)
    ensures Cut(a, n) == Cut(b, n) <==> AgreeUpTo(a, b, n)
  {
    if AgreeUpTo(a, b, n) {
      assert |a| < n ==> AgreeAt(a, b, |a|);
      assert |b| < n ==> AgreeAt(a, b, |b|);
      forall i: nat | i < |Cut(a, n)| ensures Cut(a, n)[i] == Cut(b, n)[i] {
        assert AgreeAt(a, b, i);
      }
    }
    if Cut(a, n) == Cut(b, n) {
      forall i: nat | i < n ensures AgreeAt(a, b, i) {
        assert i < |a| ==> a[i] == Cut(a, n)[i];
        assert i < |b| ==> b[i] == Cut(b, n)[i];
      }
    }
  }

  /** The first cause: whatever follows the first token characters that fill the limit is cut off. */
  lemma TokensCollideByCut(a: string, u: string, v: string, limit: nat)
    requires |KeepTokenChars(a)| >= if limit == 0 then 1 else limit
    ensures SanitizeToken(a + u, limit) == SanitizeToken(a + v, limit)
  {
    KeepAppend(a, u);
    KeepAppend(a, v);
  }

  /** The second: a text without token characters becomes `unknown`. */
  lemma TokensCollideAsUnknown(u: string, limit: nat)
    requires NoTokenChars(u)
    ensures SanitizeToken(u, limit) == SanitizeToken("unknown", limit)
  {
    KeepNothing(u);
    UnknownIsAToken();
    KeepTokenCharsLeaves("unknown");
  }

  ghost predicate NoTokenChars(s: string) {
    forall c | c in s :: !InAlphabet(c)
  }

  /** The third: characters outside the alphabet are dropped, wherever they stand, and not replaced. */
  lemma TokensCollide(a: string, u: string, b: string, limit: nat)
    requires NoTokenChars(u)
    ensures SanitizeToken(a + u + b, limit) == SanitizeToken(a + b, limit)
  {
    KeepAppend(a + u, b);
    KeepAppend(a, u);
    KeepAppend(a, b);
    KeepNothing(u);
  }

  lemma {:induction false} KeepNothing(u: string)
    requires NoTokenChars(u)
    ensures KeepTokenChars(u) == []
  {
    if u != [] {
      assert u[0] in u && forall c | c in u[1..] :: c in u;
      KeepNothing(u[1..]);
    }
  }

  lemma {:induction false} KeepAppend(a: string, b: string)
    ensures KeepTokenChars(a + b) == KeepTokenChars(a) + KeepTokenChars(b)
  {
    if a == [] {
      assert a + b == b;
    } else {
      var first := if IsTokenChar(a[0]) then [a[0]] else [];
      KeepAppend(a[1..], b);
      assert (a + b)[0] == a[0] && (a + b)[1..] == a[1..] + b;
      assert KeepTokenChars(a + b) == first + KeepTokenChars(a[1..] + b);
      assert KeepTokenChars(a) == first + KeepTokenChars(a[1..]);
      hide KeepTokenChars, IsTokenChar;
    }
  }
}
