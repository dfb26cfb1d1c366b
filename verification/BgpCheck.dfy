/**
 The lead posture check (app/posture/scanner.py): reading the BGP neighbours of a running
 configuration, and deciding whether every eBGP neighbour rejects RPKI-invalid routes and caps
 prefixes. The configuration comes as its lines.
 */
module BgpCheck {
  import opened Wrappers
  import opened Dicts
  import opened RouteMaps
  import opened ConfigLines

  // --- what they come to ---

  /** Line `i` is the last of its kind about `ip` among the first `n`. */
  ghost predicate LastAbout<T>(lines: seq<string>, read: string -> Option<(string, T)>, n: nat, ip: string, i: nat, v: T)
    requires n <= |lines|
  {
    && i < n && read(lines[i]) == Some((ip, v))
    && forall j | i < j < n :: !About(read(lines[j]), ip)
  }

  predicate About<T>(said: Option<(string, T)>, ip: string) {
    said.Some? && said.value.0 == ip
  }

  /** What the last line of its kind says about `ip`. */
  function LastSaid<T>(lines: seq<string>, read: string -> Option<(string, T)>, n: nat, ip: string): Option<T>
    requires n <= |lines|
  {
    if n == 0 then None
    else
      match read(lines[n - 1])
      case Some((about, v)) => if about == ip then Some(v) else LastSaid(lines, read, n - 1, ip)
      case None => LastSaid(lines, read, n - 1, ip)
  }

  lemma {:induction false} LastSaidIff<T>(lines: seq<string>, read: string -> Option<(string, T)>, n: nat, ip: string, v: T)
    requires n <= |lines|
    ensures LastSaid(lines, read, n, ip) == Some(v) <==> exists i: nat :: LastAbout(lines, read, n, ip, i, v)
  {
    if n > 0 {
      if About(read(lines[n - 1]), ip) {
        if read(lines[n - 1]) == Some((ip, v)) {
          assert LastAbout(lines, read, n, ip, n - 1, v);
        }
        if i: nat :| LastAbout(lines, read, n, ip, i, v) {
          assert i == n - 1;
        }
      } else {
        var m := n - 1;
        LastSaidIff(lines, read, m, ip, v);
        if i: nat :| LastAbout(lines, read, n, ip, i, v) {
          assert LastAbout(lines, read, m, ip, i, v);
        }
        if i: nat :| LastAbout(lines, read, m, ip, i, v) {
          assert LastAbout(lines, read, n, ip, i, v);
        }
      }
    }
  }

  lemma {:induction false} SaidIff<T>(lines: seq<string>, read: string -> Option<(string, T)>, n: nat, ip: string)
    requires n <= |lines|
    ensures LastSaid(lines, read, n, ip).Some? <==> exists i | 0 <= i < n :: About(read(lines[i]), ip)
  {
    if n > 0 {
      SaidIff(lines, read, n - 1, ip);
    }
  }

  /** The neighbours in the order of their first `remote-as` lines. */
  function Neighbors(lines: seq<string>, n: nat): seq<string>
    requires n <= |lines|
  {
    if n == 0 then []
    else
      var before := Neighbors(lines, n - 1);
      match RemoteAs(lines[n - 1])
      case Some((ip, _)) => if ip in before then before else before + [ip]
      case None => before
  }

  datatype Neighbor = Neighbor(ip: string, remoteAs: nat, routeMapIn: string, maxPrefix: bool)

  function OrEmpty(name: Option<string>): string {
    match name
    case Some(n) => n
    case None => ""
  }

  /** What the three passes over the lines make of a neighbour, each having read so many of them. */
  function ReadNeighbor(lines: seq<string>, remotes: nat, maps: nat, caps: nat, ip: string): Neighbor
    requires remotes <= |lines| && maps <= |lines| && caps <= |lines|
    requires LastSaid(lines, RemoteAs, remotes, ip).Some?
  {
    Neighbor(ip, LastSaid(lines, RemoteAs, remotes, ip).value, OrEmpty(LastSaid(lines, InboundMap, maps, ip)),
             LastSaid(lines, MaxPrefix, caps, ip).Some?)
  }

  ghost predicate ReadUpTo(lines: seq<string>, remotes: nat, maps: nat, caps: nat, nbs: Dict<string, Neighbor>)
    requires remotes <= |lines| && maps <= |lines| && caps <= |lines|
  {
    && nbs.keys == Neighbors(lines, remotes)
    && (forall ip :: ip in nbs.m <==> LastSaid(lines, RemoteAs, remotes, ip).Some?)
    && (forall ip | ip in nbs.m :: nbs.m[ip] == ReadNeighbor(lines, remotes, maps, caps, ip))
  }

  lemma RemoteStep(lines: seq<string>, i: nat, before: Dict<string, Neighbor>, after: Dict<string, Neighbor>)
    requires i < |lines| && ReadUpTo(lines, i, 0, 0, before)
    requires after == (match RemoteAs(lines[i])
                       case Some((ip, number)) => before.Put(ip, Neighbor(ip, number, "", false))
                       case None => before)
    ensures ReadUpTo(lines, i + 1, 0, 0, after)
  {
    hide RemoteAs, InboundMap, MaxPrefix;
  }

  lemma MapStep(lines: seq<string>, i: nat, before: Dict<string, Neighbor>, after: Dict<string, Neighbor>)
    requires i < |lines| && ReadUpTo(lines, |lines|, i, 0, before)
    requires after == (match InboundMap(lines[i])
                       case Some((ip, name)) => if ip in before.m then before.Put(ip, before.m[ip].(routeMapIn := name)) else before
                       case None => before)
    ensures ReadUpTo(lines, |lines|, i + 1, 0, after)
  {
    hide RemoteAs, InboundMap, MaxPrefix, Neighbors;
    SaidStep(lines, InboundMap, i);
    hide LastSaid;
  }

  lemma CapStep(lines: seq<string>, i: nat, before: Dict<string, Neighbor>, after: Dict<string, Neighbor>)
    requires i < |lines| && ReadUpTo(lines, |lines|, |lines|, i, before)
    requires after == (match MaxPrefix(lines[i])
                       case Some((ip, _)) => if ip in before.m then before.Put(ip, before.m[ip].(maxPrefix := true)) else before
                       case None => before)
    ensures ReadUpTo(lines, |lines|, |lines|, i + 1, after)
  {
    hide RemoteAs, InboundMap, MaxPrefix, Neighbors;
    SaidStep(lines, MaxPrefix, i);
    hide LastSaid;
  }

  lemma SaidStep<T>(lines: seq<string>, read: string -> Option<(string, T)>, i: nat)
    requires i < |lines|
    ensures forall ip :: LastSaid(lines, read, i + 1, ip)
                      == if About(read(lines[i]), ip) then Some(read(lines[i]).value.1) else LastSaid(lines, read, i, ip)
  {
  }

  lemma NothingRead(lines: seq<string>)
    ensures ReadUpTo(lines, 0, 0, 0, Empty<string, Neighbor>())
  {
  }

  /** The number of the first `router bgp` line. */
  function FirstRouter(lines: seq<string>): Option<nat> {
    if lines == [] then None
    else if RouterBgp(lines[0]).Some? then RouterBgp(lines[0])
    else FirstRouter(lines[1..])
  }

  /** The router's own number; 0 counts as missing. */
  function LocalAs(lines: seq<string>, fallback: nat): nat {
    match FirstRouter(lines)
    case Some(n) => if n != 0 then n else fallback
    case None => fallback
  }

  // --- the verdict, in terms of the text ---

  /** Line `i` is the last that gives the number of `ip`. */
  ghost predicate LastRemoteAs(lines: seq<string>, ip: string, i: nat, number: nat) {
    && i < |lines| && RemoteAsLine(lines[i], ip, number)
    && forall j, m | i < j < |lines| :: !RemoteAsLine(lines[j], ip, m)
  }

  /** Line `i` is the last that gives an inbound map of `ip`. */
  ghost predicate LastInboundMap(lines: seq<string>, ip: string, i: nat, name: string) {
    && i < |lines| && InboundMapLine(lines[i], ip, name)
    && forall j, m | i < j < |lines| :: !InboundMapLine(lines[j], ip, m)
  }

  /** Line `i` is the first `router bgp` line. */
  ghost predicate FirstRouterBgp(lines: seq<string>, i: nat, number: nat) {
    && i < |lines| && RouterBgpLine(lines[i], number)
    && forall j, m | 0 <= j < i :: !RouterBgpLine(lines[j], m)
  }

  /** The router's own number: that of its first `router bgp` line, or the fallback if there is none or it is 0. */
  ghost predicate OwnAs(lines: seq<string>, fallback: nat, own: nat) {
    || (exists i: nat, number: nat :: FirstRouterBgp(lines, i, number) && own == if number != 0 then number else fallback)
    || ((forall i, number | 0 <= i < |lines| :: !RouterBgpLine(lines[i], number)) && own == fallback)
  }

  /** A neighbour of another autonomous system, by its last `remote-as` line. */
  ghost predicate External(lines: seq<string>, fallback: nat, ip: string) {
    exists i: nat, number: nat, own: nat :: LastRemoteAs(lines, ip, i, number) && OwnAs(lines, fallback, own) && number != own
  }

  ghost predicate Capped(lines: seq<string>, ip: string) {
    exists i | 0 <= i < |lines| :: MaxPrefixLine(lines[i], ip)
  }

  /** Line `i` belongs to map `m`: it follows a header of it with only indented lines from there on that are no headers. */
  ghost predicate InMap(lines: seq<string>, i: nat, m: string)
    requires i < |lines|
  {
    exists j: nat | j < i :: MapReaches(lines, j, i, m)
  }

  ghost predicate MapReaches(lines: seq<string>, j: nat, i: nat, m: string)
    requires j < i < |lines|
  {
    && HeaderLine(lines[j], m)
    && forall k | j < k <= i :: lines[k] != "" && lines[k][0] == ' ' && forall other :: !HeaderLine(lines[k], other)
  }

  /** The map has a line about rpki. */
  ghost predicate AboutRpki(lines: seq<string>, m: string) {
    exists i | 0 <= i < |lines| :: InMap(lines, i, m) && MentionsRpki(Strip(lines[i]))
  }

  /** The last inbound map of the neighbour has a line about rpki. */
  ghost predicate Filtered(lines: seq<string>, ip: string) {
    exists i: nat, name: string :: LastInboundMap(lines, ip, i, name) && AboutRpki(lines, name)
  }

  /** A cap on prefixes, and an active validator or an inbound map about rpki. */
  ghost predicate Protected(lines: seq<string>, ip: string, cacheActive: bool) {
    Capped(lines, ip) && (cacheActive || Filtered(lines, ip))
  }

  /** The first line that gives a number of `ip`. */
  ghost predicate FirstRemoteAs(lines: seq<string>, ip: string, i: nat) {
    && i < |lines| && (exists number :: RemoteAsLine(lines[i], ip, number))
    && forall j, m | 0 <= j < i :: !RemoteAsLine(lines[j], ip, m)
  }

  /** In the order of their first `remote-as` lines, none twice. */
  ghost predicate InOrder(lines: seq<string>, ips: seq<string>) {
    forall a, b | 0 <= a < b < |ips| :: Precedes(lines, ips[a], ips[b])
  }

  ghost predicate Precedes(lines: seq<string>, ip: string, other: string) {
    exists i: nat, j: nat :: i < j && FirstRemoteAs(lines, ip, i) && FirstRemoteAs(lines, other, j)
  }

  // --- the readers and the text agree ---

  lemma AboutRemoteAs(line: string, ip: string)
    ensures About(RemoteAs(line), ip) <==> exists number :: RemoteAsLine(line, ip, number)
  {
    hide RemoteAs, RemoteAsLine;
    forall number: nat ensures RemoteAs(line) == Some((ip, number)) <==> RemoteAsLine(line, ip, number) {
      RemoteAsIff(line, ip, number);
    }
    if About(RemoteAs(line), ip) {
      assert RemoteAs(line) == Some((ip, RemoteAs(line).value.1));
    }
  }

  lemma AboutInboundMap(line: string, ip: string)
    ensures About(InboundMap(line), ip) <==> exists name :: InboundMapLine(line, ip, name)
  {
    hide InboundMap, InboundMapLine;
    forall name ensures InboundMap(line) == Some((ip, name)) <==> InboundMapLine(line, ip, name) {
      InboundMapIff(line, ip, name);
    }
    if About(InboundMap(line), ip) {
      assert InboundMap(line) == Some((ip, InboundMap(line).value.1));
    }
  }

  lemma LastRemoteAsIff(lines: seq<string>, ip: string, i: nat, number: nat)
    ensures LastAbout(lines, RemoteAs, |lines|, ip, i, number) <==> LastRemoteAs(lines, ip, i, number)
  {
    hide RemoteAs, RemoteAsLine, About;
    if i < |lines| {
      RemoteAsIff(lines[i], ip, number);
    }
    forall j | 0 <= j < |lines| ensures About(RemoteAs(lines[j]), ip) <==> exists m :: RemoteAsLine(lines[j], ip, m) {
      AboutRemoteAs(lines[j], ip);
    }
  }

  lemma LastInboundMapIff(lines: seq<string>, ip: string, i: nat, name: string)
    ensures LastAbout(lines, InboundMap, |lines|, ip, i, name) <==> LastInboundMap(lines, ip, i, name)
  {
    hide InboundMap, InboundMapLine, About;
    if i < |lines| {
      InboundMapIff(lines[i], ip, name);
    }
    forall j | 0 <= j < |lines| ensures About(InboundMap(lines[j]), ip) <==> exists m :: InboundMapLine(lines[j], ip, m) {
      AboutInboundMap(lines[j], ip);
    }
  }

  lemma NoRouterBgp(line: string)
    ensures RouterBgp(line).None? <==> forall number :: !RouterBgpLine(line, number)
  {
    hide RouterBgp, RouterBgpLine;
    forall number: nat ensures RouterBgp(line) == Some(number) <==> RouterBgpLine(line, number) {
      RouterBgpIff(line, number);
    }
    if RouterBgp(line).Some? {
      assert RouterBgp(line) == Some(RouterBgp(line).value);
    }
  }

  lemma {:induction false} FirstRouterIs(lines: seq<string>)
    ensures FirstRouter(lines).Some? ==> exists i: nat :: FirstRouterBgp(lines, i, FirstRouter(lines).value)
    ensures FirstRouter(lines).None? ==> forall i, number | 0 <= i < |lines| :: !RouterBgpLine(lines[i], number)
  {
    hide RouterBgp, RouterBgpLine;
    if lines != [] {
      NoRouterBgp(lines[0]);
      if RouterBgp(lines[0]).Some? {
        RouterBgpIff(lines[0], RouterBgp(lines[0]).value);
        assert FirstRouterBgp(lines, 0, RouterBgp(lines[0]).value);
      } else {
        FirstRouterIs(lines[1..]);
        if FirstRouter(lines[1..]).Some? {
          var i: nat :| FirstRouterBgp(lines[1..], i, FirstRouter(lines).value);
          FirstRouterLater(lines, i, FirstRouter(lines).value);
        } else {
          forall i, number | 0 <= i < |lines| ensures !RouterBgpLine(lines[i], number) {
            assert i > 0 ==> lines[i] == lines[1..][i - 1];
          }
        }
      }
    }
  }

  lemma FirstRouterLater(lines: seq<string>, i: nat, number: nat)
    requires lines != [] && FirstRouterBgp(lines[1..], i, number) && forall m :: !RouterBgpLine(lines[0], m)
    ensures FirstRouterBgp(lines, i + 1, number)
  {
    hide RouterBgpLine;
    assert lines[i + 1] == lines[1..][i];
    forall j, m | 0 <= j < i + 1 ensures !RouterBgpLine(lines[j], m) {
      assert j > 0 ==> lines[j] == lines[1..][j - 1];
    }
  }

  lemma OneNumber(line: string, n: nat, m: nat)
    requires RouterBgpLine(line, n) && RouterBgpLine(line, m)
    ensures n == m
  {
    RouterBgpIff(line, n);
    RouterBgpIff(line, m);
  }

  lemma OneFirst(lines: seq<string>, i: nat, n: nat, k: nat, m: nat)
    requires FirstRouterBgp(lines, i, n) && FirstRouterBgp(lines, k, m)
    ensures n == m
  {
    hide RouterBgpLine;
    assert i == k;
    OneNumber(lines[i], n, m);
  }

  /** The readers' own number is the text's, and the text has only one. */
  lemma OwnAsIff(lines: seq<string>, fallback: nat, own: nat)
    ensures OwnAs(lines, fallback, own) <==> own == LocalAs(lines, fallback)
  {
    hide RouterBgp, RouterBgpLine, FirstRouter;
    FirstRouterIs(lines);
    if FirstRouter(lines).Some? {
      var k: nat :| FirstRouterBgp(lines, k, FirstRouter(lines).value);
      forall i: nat, number: nat | FirstRouterBgp(lines, i, number) ensures number == FirstRouter(lines).value {
        OneFirst(lines, i, number, k, FirstRouter(lines).value);
      }
    }
  }

  lemma HeaderlessIff(line: string)
    ensures Header(line).None? <==> forall other :: !HeaderLine(line, other)
  {
    hide Header, HeaderLine;
    forall other ensures Header(line) == Some(other) <==> HeaderLine(line, other) {
      HeaderIff(line, other);
    }
    if Header(line).Some? {
      assert Header(line) == Some(Header(line).value);
    }
  }

  lemma MapReachesIff(lines: seq<string>, j: nat, i: nat, m: string)
    requires j < i < |lines|
    ensures HeaderReaches(lines, j, i, m) <==> MapReaches(lines, j, i, m)
  {
    hide Header, HeaderLine;
    HeaderIff(lines[j], m);
    forall k | j < k <= i ensures Header(lines[k]).None? <==> forall other :: !HeaderLine(lines[k], other) {
      HeaderlessIff(lines[k]);
    }
  }

  lemma InMapIff(lines: seq<string>, i: nat, m: string)
    requires i < |lines|
    ensures Belongs(lines, i, m) <==> InMap(lines, i, m)
  {
    hide HeaderReaches, MapReaches;
    forall j: nat | j < i ensures HeaderReaches(lines, j, i, m) <==> MapReaches(lines, j, i, m) {
      MapReachesIff(lines, j, i, m);
    }
  }

  lemma AboutRpkiIff(lines: seq<string>, m: string)
    ensures MentionedInText(lines, |lines|, m) <==> AboutRpki(lines, m)
  {
    hide Belongs, InMap, MentionsRpki, Strip;
    forall i: nat | i < |lines| ensures Belongs(lines, i, m) <==> InMap(lines, i, m) {
      InMapIff(lines, i, m);
    }
  }

  lemma CappedIff(lines: seq<string>, ip: string)
    ensures LastSaid(lines, MaxPrefix, |lines|, ip).Some? <==> Capped(lines, ip)
  {
    hide MaxPrefix, MaxPrefixLine, LastSaid;
    SaidIff(lines, MaxPrefix, |lines|, ip);
    forall i | 0 <= i < |lines| ensures About(MaxPrefix(lines[i]), ip) <==> MaxPrefixLine(lines[i], ip) {
      MaxPrefixIff(lines[i], ip);
      AboutUnit(MaxPrefix(lines[i]), ip);
    }
  }

  lemma AboutUnit(said: Option<(string, ())>, ip: string)
    ensures About(said, ip) <==> said == Some((ip, ()))
  {
    if said.Some? {
      match said.value
      case (about, u) =>
        match u
        case () =>
    }
  }

  // --- the order of the neighbours ---

  lemma {:induction false} NeighborsAre(lines: seq<string>, n: nat)
    requires n <= |lines|
    ensures forall ip :: ip in Neighbors(lines, n) <==> exists i: nat :: i < n && FirstRemoteAs(lines, ip, i)
    ensures InOrder(lines, Neighbors(lines, n))
  {
    hide RemoteAs, RemoteAsLine, FirstRemoteAs;
    if n > 0 {
      var (front, said) := (Neighbors(lines, n - 1), RemoteAs(lines[n - 1]));
      NeighborsAre(lines, n - 1);
      if said.Some? {
        var ip := said.value.0;
        FirstHere(lines, n - 1, ip);
        NeighborAdded(lines, n - 1, front, ip);
      } else {
        NothingFirst(lines, n - 1);
      }
    }
  }

  lemma FirstHere(lines: seq<string>, i: nat, ip: string)
    requires i < |lines| && About(RemoteAs(lines[i]), ip)
    ensures FirstRemoteAs(lines, ip, i) <==> !exists j: nat :: j < i && FirstRemoteAs(lines, ip, j)
    ensures forall other | FirstRemoteAs(lines, other, i) :: other == ip
  {
    hide RemoteAs, RemoteAsLine;
    AboutRemoteAs(lines[i], ip);
    FirstExists(lines, i, ip);
    forall other | FirstRemoteAs(lines, other, i) ensures other == ip {
      AboutRemoteAs(lines[i], other);
    }
  }

  /** If some line before `n` gives a number of `ip`, one of them is the first. */
  lemma {:induction false} FirstExists(lines: seq<string>, n: nat, ip: string)
    requires n <= |lines|
    ensures (exists j, m | 0 <= j < n :: RemoteAsLine(lines[j], ip, m)) <==> exists j: nat :: j < n && FirstRemoteAs(lines, ip, j)
  {
    hide RemoteAsLine;
    if n > 0 {
      var k := n - 1;
      FirstExists(lines, k, ip);
      if m :| RemoteAsLine(lines[k], ip, m) {
        if !exists j: nat :: j < k && FirstRemoteAs(lines, ip, j) {
          assert FirstRemoteAs(lines, ip, k);
        }
      }
    }
  }

  lemma NothingFirst(lines: seq<string>, i: nat)
    requires i < |lines| && RemoteAs(lines[i]).None?
    ensures forall ip :: !FirstRemoteAs(lines, ip, i)
  {
    hide RemoteAs, RemoteAsLine;
    forall ip ensures !FirstRemoteAs(lines, ip, i) {
      AboutRemoteAs(lines[i], ip);
    }
  }

  lemma NeighborAdded(lines: seq<string>, i: nat, front: seq<string>, ip: string)
    requires i < |lines| && InOrder(lines, front)
    requires forall other :: other in front <==> exists j: nat :: j < i && FirstRemoteAs(lines, other, j)
    requires ip !in front ==> FirstRemoteAs(lines, ip, i)
    ensures InOrder(lines, if ip in front then front else front + [ip])
  {
    hide FirstRemoteAs;
    if ip !in front {
      forall a | 0 <= a < |front| ensures Precedes(lines, front[a], ip) {
        assert front[a] in front;
        var j: nat :| j < i && FirstRemoteAs(lines, front[a], j);
      }
    }
  }

  predicate Fails(nb: Neighbor, maps: Dict<string, seq<string>>, cacheActive: bool) {
    var rejects := nb.routeMapIn != "" && RouteMapRejects(maps, nb.routeMapIn);
    !(cacheActive || rejects) || !nb.maxPrefix
  }

  lemma NameNotEmpty(line: string)
    ensures InboundMap(line).Some? ==> InboundMap(line).value.1 != ""
  {
  }

  lemma {:induction false} SaidNameNotEmpty(lines: seq<string>, n: nat, ip: string)
    requires n <= |lines|
    ensures LastSaid(lines, InboundMap, n, ip) != Some("")
  {
    hide InboundMap;
    if n > 0 {
      NameNotEmpty(lines[n - 1]);
      SaidNameNotEmpty(lines, n - 1, ip);
    }
  }

  lemma FilteredIff(lines: seq<string>, ip: string)
    ensures Filtered(lines, ip)
       <==> (LastSaid(lines, InboundMap, |lines|, ip).Some?
             && MentionedInText(lines, |lines|, LastSaid(lines, InboundMap, |lines|, ip).value))
  {
    hide InboundMap, InboundMapLine, MentionedInText, AboutRpki, LastAbout, LastInboundMap, LastSaid;
    var said := LastSaid(lines, InboundMap, |lines|, ip);
    if said.Some? {
      LastSaidIff(lines, InboundMap, |lines|, ip, said.value);
      AboutRpkiIff(lines, said.value);
      forall i: nat ensures LastAbout(lines, InboundMap, |lines|, ip, i, said.value) <==> LastInboundMap(lines, ip, i, said.value) {
        LastInboundMapIff(lines, ip, i, said.value);
      }
    }
    if i: nat, name: string :| LastInboundMap(lines, ip, i, name) && AboutRpki(lines, name) {
      LastInboundMapIff(lines, ip, i, name);
      LastSaidIff(lines, InboundMap, |lines|, ip, name);
      AboutRpkiIff(lines, name);
    }
  }

  lemma FailsIff(lines: seq<string>, maps: Dict<string, seq<string>>, nbs: Dict<string, Neighbor>, ip: string, cacheActive: bool)
    requires Collected(lines, |lines|, maps) && ReadUpTo(lines, |lines|, |lines|, |lines|, nbs) && ip in nbs.m
    ensures Fails(nbs.m[ip], maps, cacheActive) <==> !Protected(lines, ip, cacheActive)
  {
    hide InboundMap, MaxPrefix, RemoteAs, MentionedInText, LastSaid, Collected, RouteMapRejects, Filtered, Capped, Neighbors;
    CappedIff(lines, ip);
    SaidNameNotEmpty(lines, |lines|, ip);
    FilteredIff(lines, ip);
    RejectsIff(lines, maps, nbs.m[ip].routeMapIn);
  }

  lemma ExternalIff(lines: seq<string>, nbs: Dict<string, Neighbor>, fallback: nat, ip: string)
    requires ReadUpTo(lines, |lines|, |lines|, |lines|, nbs)
    ensures External(lines, fallback, ip) <==> ip in nbs.m && nbs.m[ip].remoteAs != LocalAs(lines, fallback)
  {
    hide InboundMap, MaxPrefix, RemoteAs, RemoteAsLine, LastSaid, LastAbout, LastRemoteAs, LocalAs, OwnAs, Neighbors;
    var own := LocalAs(lines, fallback);
    OwnAsIff(lines, fallback, own);
    if ip in nbs.m {
      LastSaidIff(lines, RemoteAs, |lines|, ip, nbs.m[ip].remoteAs);
      var i: nat :| LastAbout(lines, RemoteAs, |lines|, ip, i, nbs.m[ip].remoteAs);
      LastRemoteAsIff(lines, ip, i, nbs.m[ip].remoteAs);
    }
    if i: nat, number: nat, other: nat :| LastRemoteAs(lines, ip, i, number) && OwnAs(lines, fallback, other) && number != other {
      OwnAsIff(lines, fallback, other);
      LastRemoteAsIff(lines, ip, i, number);
      LastSaidIff(lines, RemoteAs, |lines|, ip, number);
    }
  }

  lemma NeighborsRead(lines: seq<string>, nbs: Dict<string, Neighbor>, fallback: nat)
    requires ReadUpTo(lines, |lines|, |lines|, |lines|, nbs)
    ensures nbs.keys == Neighbors(lines, |lines|)
    ensures forall ip :: External(lines, fallback, ip) <==> ip in nbs.m && nbs.m[ip].remoteAs != LocalAs(lines, fallback)
  {
    hide External, LastSaid, Neighbors, LocalAs;
    forall ip ensures External(lines, fallback, ip) <==> ip in nbs.m && nbs.m[ip].remoteAs != LocalAs(lines, fallback) {
      ExternalIff(lines, nbs, fallback, ip);
    }
  }

  // --- reading and checking ---

  /** What the text says of the neighbours: those of some `remote-as` line, in the order of their
      first, with the number of the last, the last inbound map if any, and whether a line caps them. */
  ghost predicate AsWritten(lines: seq<string>, nbs: Dict<string, Neighbor>) {
    && InOrder(lines, nbs.keys)
    && (forall ip :: ip in nbs.m <==> exists i: nat :: FirstRemoteAs(lines, ip, i))
    && forall ip | ip in nbs.m :: NeighborWritten(lines, ip, nbs.m[ip])
  }

  ghost predicate NeighborWritten(lines: seq<string>, ip: string, nb: Neighbor) {
    && nb.ip == ip && (exists i: nat :: LastRemoteAs(lines, ip, i, nb.remoteAs))
    && (if nb.routeMapIn != "" then exists i: nat :: LastInboundMap(lines, ip, i, nb.routeMapIn)
        else forall i, name | 0 <= i < |lines| :: !InboundMapLine(lines[i], ip, name))
    && (nb.maxPrefix <==> Capped(lines, ip))
  }

  lemma NoInboundMap(lines: seq<string>, ip: string)
    ensures LastSaid(lines, InboundMap, |lines|, ip).None? <==> forall i, name | 0 <= i < |lines| :: !InboundMapLine(lines[i], ip, name)
  {
    hide InboundMap, InboundMapLine, About;
    SaidIff(lines, InboundMap, |lines|, ip);
    forall i | 0 <= i < |lines| ensures About(InboundMap(lines[i]), ip) <==> exists name :: InboundMapLine(lines[i], ip, name) {
      AboutInboundMap(lines[i], ip);
    }
  }

  lemma NeighborIsWritten(lines: seq<string>, ip: string)
    requires LastSaid(lines, RemoteAs, |lines|, ip).Some?
    ensures NeighborWritten(lines, ip, ReadNeighbor(lines, |lines|, |lines|, |lines|, ip))
  {
    hide RemoteAs, InboundMap, MaxPrefix, LastSaid, LastAbout, LastRemoteAs, LastInboundMap, Capped, InboundMapLine;
    var nb := ReadNeighbor(lines, |lines|, |lines|, |lines|, ip);
    LastSaidIff(lines, RemoteAs, |lines|, ip, nb.remoteAs);
    var i: nat :| LastAbout(lines, RemoteAs, |lines|, ip, i, nb.remoteAs);
    LastRemoteAsIff(lines, ip, i, nb.remoteAs);
    CappedIff(lines, ip);
    SaidNameNotEmpty(lines, |lines|, ip);
    NoInboundMap(lines, ip);
    if nb.routeMapIn != "" {
      LastSaidIff(lines, InboundMap, |lines|, ip, nb.routeMapIn);
      var j: nat :| LastAbout(lines, InboundMap, |lines|, ip, j, nb.routeMapIn);
      LastInboundMapIff(lines, ip, j, nb.routeMapIn);
    }
  }

  lemma SaidIsFirst(lines: seq<string>, ip: string)
    ensures ip in Neighbors(lines, |lines|) <==> exists i: nat :: FirstRemoteAs(lines, ip, i)
  {
    hide Neighbors, RemoteAsLine;
    NeighborsAre(lines, |lines|);
  }

  lemma ReadIsWritten(lines: seq<string>, nbs: Dict<string, Neighbor>)
    requires ReadUpTo(lines, |lines|, |lines|, |lines|, nbs)
    ensures AsWritten(lines, nbs)
  {
    hide RemoteAs, LastSaid, Neighbors, ReadNeighbor, NeighborWritten, FirstRemoteAs, InOrder;
    NeighborsAre(lines, |lines|);
    forall ip ensures ip in nbs.m <==> exists i: nat :: FirstRemoteAs(lines, ip, i) {
      SaidIsFirst(lines, ip);
    }
    forall ip | ip in nbs.m ensures NeighborWritten(lines, ip, nbs.m[ip]) {
      NeighborIsWritten(lines, ip);
    }
  }

  /** Three passes, as over three lists of matches: neighbours, then their inbound maps, then their caps. */
  method ParseNeighbors(lines: seq<string>) returns (nbs: Dict<string, Neighbor>)
    ensures ReadUpTo(lines, |lines|, |lines|, |lines|, nbs)
    ensures AsWritten(lines, nbs)
  {
    nbs := Empty<string, Neighbor>();
    NothingRead(lines);
    hide RemoteAs, InboundMap, MaxPrefix, ReadUpTo;
    for i := 0 to |lines|
      invariant ReadUpTo(lines, i, 0, 0, nbs)
    {
      ghost var before := nbs;
      var said := RemoteAs(lines[i]);
      if said.Some? {
        nbs := nbs.Put(said.value.0, Neighbor(said.value.0, said.value.1, "", false));
      }
      RemoteStep(lines, i, before, nbs);
    }
    for i := 0 to |lines|
      invariant ReadUpTo(lines, |lines|, i, 0, nbs)
    {
      ghost var before := nbs;
      var said := InboundMap(lines[i]);
      if said.Some? && said.value.0 in nbs.m {
        nbs := nbs.Put(said.value.0, nbs.m[said.value.0].(routeMapIn := said.value.1));
      }
      MapStep(lines, i, before, nbs);
    }
    for i := 0 to |lines|
      invariant ReadUpTo(lines, |lines|, |lines|, i, nbs)
    {
      ghost var before := nbs;
      var said := MaxPrefix(lines[i]);
      if said.Some? && said.value.0 in nbs.m {
        nbs := nbs.Put(said.value.0, nbs.m[said.value.0].(maxPrefix := true));
      }
      CapStep(lines, i, before, nbs);
    }
    ReadIsWritten(lines, nbs);
  }

  /** The external neighbours that lack protection, in the order of the configuration. */
  ghost function Unprotected(lines: seq<string>, fallback: nat, ips: seq<string>, cacheActive: bool): seq<string> {
    if ips == [] then []
    else
      var n := |ips| - 1;
      Unprotected(lines, fallback, ips[..n], cacheActive)
      + if External(lines, fallback, ips[n]) && !Protected(lines, ips[n], cacheActive) then [ips[n]] else []
  }

  lemma {:induction false} UnprotectedIff(lines: seq<string>, fallback: nat, ips: seq<string>, cacheActive: bool, ip: string)
    ensures ip in Unprotected(lines, fallback, ips, cacheActive)
       <==> ip in ips && External(lines, fallback, ip) && !Protected(lines, ip, cacheActive)
  {
    hide External, Protected;
    if ips != [] {
      var n := |ips| - 1;
      UnprotectedIff(lines, fallback, ips[..n], cacheActive, ip);
      assert ips == ips[..n] + [ips[n]];
    }
  }

  /**
   The check on one router: there is a finding exactly when it has an external neighbour; the
   finding passes exactly when every one of them has a `maximum-prefix` line and the cache is
   active or its last inbound map has a line about rpki; otherwise it names the others, in the
   order of the configuration.
   */
  method CheckRpki(lines: seq<string>, fallback: nat, cacheActive: bool)
    returns (checked: bool, passed: bool, failing: seq<string>)
    ensures checked <==> exists ip :: External(lines, fallback, ip)
    ensures checked ==> (passed <==> forall ip | External(lines, fallback, ip) :: Protected(lines, ip, cacheActive))
    ensures forall ip :: ip in failing <==> External(lines, fallback, ip) && !Protected(lines, ip, cacheActive)
    ensures InOrder(lines, failing)
  {
    hide Collected, LastSaid, External, Protected, Fails, LocalAs, Neighbors, ReadUpTo, AsWritten, InOrder;
    var maps := ParseRouteMaps(lines);
    var nbs := ParseNeighbors(lines);
    var local := LocalAs(lines, fallback);
    NeighborsRead(lines, nbs, fallback);
    var ips := nbs.keys;
    checked, passed, failing := false, true, [];
    for i := 0 to |ips|
      invariant checked <==> exists k | 0 <= k < i :: External(lines, fallback, ips[k])
      invariant failing == Unprotected(lines, fallback, ips[..i], cacheActive)
    {
      assert ips[..i + 1][..i] == ips[..i];
      var nb := nbs.m[ips[i]];
      if nb.remoteAs != local {
        checked := true;
        FailsIff(lines, maps, nbs, ips[i], cacheActive);
        if Fails(nb, maps, cacheActive) {
          failing := failing + [ips[i]];
        }
      }
    }
    assert ips[..|ips|] == ips;
    passed := failing == [];
    NoneUnprotectedIff(lines, fallback, ips, cacheActive);
    FailingAre(lines, fallback, cacheActive);
  }

  lemma {:induction false} UnprotectedOrder(lines: seq<string>, fallback: nat, ips: seq<string>, cacheActive: bool)
    requires InOrder(lines, ips)
    ensures InOrder(lines, Unprotected(lines, fallback, ips, cacheActive))
  {
    hide External, Protected, Precedes;
    if ips != [] {
      var n := |ips| - 1;
      var front := Unprotected(lines, fallback, ips[..n], cacheActive);
      UnprotectedOrder(lines, fallback, ips[..n], cacheActive);
      forall a | 0 <= a < |front| ensures Precedes(lines, front[a], ips[n]) {
        UnprotectedIff(lines, fallback, ips[..n], cacheActive, front[a]);
        assert front[a] in front;
      }
    }
  }

  lemma FailingAre(lines: seq<string>, fallback: nat, cacheActive: bool)
    ensures var failing := Unprotected(lines, fallback, Neighbors(lines, |lines|), cacheActive);
            && InOrder(lines, failing)
            && forall ip :: ip in failing <==> External(lines, fallback, ip) && !Protected(lines, ip, cacheActive)
  {
    hide Protected, InOrder, Neighbors, Unprotected, OwnAs, RemoteAsLine;
    NeighborsAre(lines, |lines|);
    UnprotectedOrder(lines, fallback, Neighbors(lines, |lines|), cacheActive);
    forall ip
      ensures ip in Unprotected(lines, fallback, Neighbors(lines, |lines|), cacheActive)
         <==> External(lines, fallback, ip) && !Protected(lines, ip, cacheActive)
    {
      UnprotectedIff(lines, fallback, Neighbors(lines, |lines|), cacheActive, ip);
      if External(lines, fallback, ip) {
        ExternalIsNeighbor(lines, fallback, ip);
      }
    }
  }

  lemma ExternalIsNeighbor(lines: seq<string>, fallback: nat, ip: string)
    requires External(lines, fallback, ip)
    ensures ip in Neighbors(lines, |lines|)
  {
    hide RemoteAsLine, OwnAs, Neighbors;
    FirstExists(lines, |lines|, ip);
    NeighborsAre(lines, |lines|);
  }

  lemma NoneUnprotectedIff(lines: seq<string>, fallback: nat, ips: seq<string>, cacheActive: bool)
    requires forall ip | External(lines, fallback, ip) :: ip in ips
    ensures Unprotected(lines, fallback, ips, cacheActive) == []
       <==> forall ip | External(lines, fallback, ip) :: Protected(lines, ip, cacheActive)
  {
    hide External, Protected;
    var failing := Unprotected(lines, fallback, ips, cacheActive);
    forall ip ensures ip in failing <==> ip in ips && External(lines, fallback, ip) && !Protected(lines, ip, cacheActive) {
      UnprotectedIff(lines, fallback, ips, cacheActive, ip);
    }
    hide Unprotected;
    if failing != [] {
      assert failing[0] in failing;
    }
  }
}
