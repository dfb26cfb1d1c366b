/**
 The message that loop-to-loop signatures cover (app/lhp.py): four parts joined by line feeds.
 The part boundaries are recoverable, because only the path can contain a line feed.
 */
module LhpSigning {
  import opened Labels
  import opened LhpTokens
  import opened LhpJson

  /** An arbitrary map: upper-casing outside ASCII. */
  const UPPER_BEYOND_ASCII: map<char, string>

  function Upper(s: string): string {
    if s == [] then []
    else
      (if 'a' <= s[0] <= 'z' then [s[0] - 'a' + 'A']
       else if s[0] > '\U{7f}' && s[0] in UPPER_BEYOND_ASCII then UPPER_BEYOND_ASCII[s[0]]
       else [s[0]]) + Upper(s[1..])
  }

  /** `"\n".join` of the four signed parts. */
  function SignedMessage(httpMethod: string, path: string, timestamp: string, body: Json): string {
    Frame(SanitizeToken(Upper(httpMethod), 16), path, SanitizeToken(timestamp, 80), Render(body))
  }

  function Frame(httpMethod: string, path: string, timestamp: string, body: string): string {
    httpMethod + ['\n'] + path + ['\n'] + timestamp + ['\n'] + body
  }

  /** Index of the first line feed, or the length. */
  function FirstFeed(s: string): (n: nat)
    ensures n <= |s|
    ensures forall i | 0 <= i < n :: s[i] != '\n'
    ensures n < |s| ==> s[n] == '\n'
  {
    if s == [] || s[0] == '\n' then 0 else 1 + FirstFeed(s[1..])
  }

  /** One past the last line feed, or 0. */
  function AfterLastFeed(s: string): (n: nat)
    ensures n <= |s|
    ensures forall i | n <= i < |s| :: s[i] != '\n'
    ensures n > 0 ==> s[n - 1] == '\n'
  {
    if s == [] || s[|s| - 1] == '\n' then |s| else AfterLastFeed(s[..|s| - 1])
  }

  /** The text before and after the first line feed. */
  function SplitFirst(s: string): (string, string) {
    var n := FirstFeed(s);
    if n == |s| then (s, "") else (s[..n], s[n + 1..])
  }

  /** The text before and after the last line feed. */
  function SplitLast(s: string): (string, string) {
    var n := AfterLastFeed(s);
    if n == 0 then ("", s) else (s[..n - 1], s[n..])
  }

  /** Reads a message back: the body follows the last line feed, the timestamp the last one
      before it, and the method ends at the first. */
  function Unframe(message: string): (string, string, string, string) {
    var (head, body) := SplitLast(message);
    var (front, timestamp) := SplitLast(head);
    var (httpMethod, path) := SplitFirst(front);
    (httpMethod, path, timestamp, body)
  }

  lemma FirstFeedIs(s: string, n: nat)
    requires n < |s| && s[n] == '\n' && forall i | 0 <= i < n :: s[i] != '\n'
    ensures FirstFeed(s) == n
  {
  }

  lemma AfterLastFeedIs(s: string, n: nat)
    requires n < |s| && s[n] == '\n' && forall i | n < i < |s| :: s[i] != '\n'
    ensures AfterLastFeed(s) == n + 1
  {
  }

  lemma Halves(a: string, b: string)
    ensures var s := a + ['\n'] + b; s[..|a|] == a && s[|a| + 1..] == b
  {
  }

  lemma SplitFirstJoin(a: string, rest: string)
    requires OneLine(a)
    ensures SplitFirst(a + ['\n'] + rest) == (a, rest)
  {
    FirstFeedIs(a + ['\n'] + rest, |a|);
    Halves(a, rest);
  }

  lemma SplitLastJoin(front: string, b: string)
    requires OneLine(b)
    ensures SplitLast(front + ['\n'] + b) == (front, b)
  {
    AfterLastFeedIs(front + ['\n'] + b, |front|);
    Halves(front, b);
  }

  /** Framing is uniquely decodable whenever only the path may contain line feeds. */
  lemma UnframeFrame(httpMethod: string, path: string, timestamp: string, body: string)
    requires OneLine(httpMethod) && OneLine(timestamp) && OneLine(body)
    ensures Unframe(Frame(httpMethod, path, timestamp, body)) == (httpMethod, path, timestamp, body)
  {
    var front := httpMethod + ['\n'] + path;
    SplitFirstJoin(httpMethod, path);
    SplitLastJoin(front, timestamp);
    SplitLastJoin(front + ['\n'] + timestamp, body);
  }

  /** The signed message determines the method token, the path, the timestamp token and the canonical body. */
  lemma SignedMessageDecodes(httpMethod: string, path: string, timestamp: string, body: Json)
    ensures Unframe(SignedMessage(httpMethod, path, timestamp, body))
         == (SanitizeToken(Upper(httpMethod), 16), path, SanitizeToken(timestamp, 80), Render(body))
  {
    TokenShape(Upper(httpMethod), 16);
    TokenShape(timestamp, 80);
    assert !InAlphabet('\n');
    RenderIsOneLine(body);
    UnframeFrame(SanitizeToken(Upper(httpMethod), 16), path, SanitizeToken(timestamp, 80), Render(body));
  }

  /** So two requests are signed alike exactly when method, path and timestamp token and the JSON value agree. */
  lemma SignedMessagesAgreeIff(m0: string, p0: string, t0: string, b0: Json, m1: string, p1: string, t1: string, b1: Json)
    ensures SignedMessage(m0, p0, t0, b0) == SignedMessage(m1, p1, t1, b1)
       <==> (&& SanitizeToken(Upper(m0), 16) == SanitizeToken(Upper(m1), 16)
             && p0 == p1
             && SanitizeToken(t0, 80) == SanitizeToken(t1, 80)
             && b0 == b1)
  {
    SignedMessageDecodes(m0, p0, t0, b0);
    SignedMessageDecodes(m1, p1, t1, b1);
    RenderInjective(b0, b1);
    hide Render;
  }

  /** The letter itself, or its capital. */
  predicate CapitalOf(c: char, upper: char) {
    if 'a' <= c <= 'z' then upper as nat == c as nat - 32 else upper == c
  }

  lemma UpperFirst(s: string)
    requires s != [] && s[0] <= '\U{7f}'
    ensures |Upper(s)| == 1 + |Upper(s[1..])| && Upper(s)[1..] == Upper(s[1..]) && CapitalOf(s[0], Upper(s)[0])
  {
  }

  lemma {:induction false} UpperAscii(s: string)
    requires Ascii(s)
    ensures |Upper(s)| == |s| && forall i | 0 <= i < |s| :: CapitalOf(s[i], Upper(s)[i])
  {
    if s == [] {
      assert Upper(s) == [];
    } else {
      hide Upper, CapitalOf;
      assert forall c | c in s[1..] :: c in s;
      assert s[0] in s;
      UpperAscii(s[1..]);
      UpperFirst(s);
      forall i | 1 <= i < |s| ensures CapitalOf(s[i], Upper(s)[i]) {
        var j := i - 1;
        assert s[i] == s[1..][j] && Upper(s)[i] == Upper(s)[1..][j];
      }
    }
  }

  /** In particular the case of the method does not matter. */
  lemma MethodCaseIsDropped(m0: string, m1: string, path: string, timestamp: string, body: Json)
    requires Ascii(m0) && |m1| == |m0| && forall i | 0 <= i < |m0| :: CapitalOf(m0[i], m1[i])
    ensures SignedMessage(m0, path, timestamp, body) == SignedMessage(m1, path, timestamp, body)
  {
    forall c | c in m1 ensures c <= '\U{7f}' {
      var i :| 0 <= i < |m1| && m1[i] == c;
      assert CapitalOf(m0[i], m1[i]) && m0[i] in m0;
    }
    UpperAscii(m0);
    UpperAscii(m1);
    forall i | 0 <= i < |m0| ensures Upper(m0)[i] == Upper(m1)[i] {
      assert CapitalOf(m0[i], m1[i]) && CapitalOf(m1[i], Upper(m1)[i]) && CapitalOf(m0[i], Upper(m0)[i]);
    }
    assert Upper(m0) == Upper(m1);
  }
}
