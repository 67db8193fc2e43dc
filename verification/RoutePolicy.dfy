/**
 * Which companion endpoints become private mesh routes, and with which network hint. The URL parser, the host
 * canonicaliser built on it, Number() and the collation of origins are parameters, gathered in Platform.
 */
module RoutePolicy {

  import opened Prelude

  datatype EndpointKind = Tailscale | Lan | Loopback

  /** The meshNetworkKind of an endpoint; Strange is any value that is not one of the named four. */
  datatype Declared = Absent | DeclaredLan | DeclaredPrivate | DeclaredLoopback | Unknown | Strange

  datatype NetworkKind = LanNetwork | PrivateNetwork | LoopbackNetwork

  type Hint = Option<NetworkKind>

  /** port is None when it is not an integer. */
  datatype Endpoint = Endpoint(kind: EndpointKind, declared: Declared, host: string, port: Option<int>)

  /** What new URL(...) yields; bare says no user name, password, search or hash and the path "/". */
  datatype Parsed = Parsed(bare: bool, hostname: string, origin: string)

  datatype Platform = Platform(parse: (string, int) -> Option<Parsed>, canonical: string -> string,
                               number: string -> Option<int>, before: (string, string) -> bool)

  datatype Route = Route(url: string, hint: Hint)

  // ---- Strings ----

  predicate StartsWith(s: string, prefix: string) {
    |prefix| <= |s| && s[..|prefix|] == prefix
  }

  predicate EndsWith(s: string, suffix: string) {
    |suffix| <= |s| && s[|s| - |suffix|..] == suffix
  }

  predicate LowerHex(c: char) {
    '0' <= c <= '9' || 'a' <= c <= 'f'
  }

  /** prefix, two hexadecimal digits, a colon. */
  predicate StartsWithHextet(s: string, prefix: string) {
    StartsWith(s, prefix) && |s| >= |prefix| + 3 && LowerHex(s[|prefix|]) && LowerHex(s[|prefix| + 1]) && s[|prefix| + 2] == ':'
  }

  function Split(s: string): (parts: seq<string>)
    ensures parts != []
  {
    if s == [] then [""]
    else
      var rest := Split(s[1..]);
      if s[0] == '.' then [""] + rest else [[s[0]] + rest[0]] + rest[1..]
  }

  // ---- Addresses ----

  /** Four decimal octets. */
  datatype Address = Address(a: int, b: int, c: int, d: int)

  predicate Octet(p: Platform, part: string) {
    p.number(part).Some? && 0 <= p.number(part).value <= 255
  }

  function ParseAddress(p: Platform, hostname: string): Option<Address> {
    var parts := Split(hostname);
    if |parts| == 4 && forall i :: 0 <= i < 4 ==> Octet(p, parts[i])
    then Some(Address(p.number(parts[0]).value, p.number(parts[1]).value, p.number(parts[2]).value, p.number(parts[3]).value))
    else None
  }

  predicate SharedRange(x: Address) {
    x.a == 100 && x.b >= 64 && x.b <= 127
  }

  predicate IsSharedAddress(p: Platform, host: string) {
    var address := ParseAddress(p, p.canonical(host));
    address.Some? && SharedRange(address.value)
  }

  predicate IsLoopbackHost(p: Platform, host: string) {
    var hostname := p.canonical(host);
    || hostname == "localhost" || EndsWith(hostname, ".localhost") || hostname == "::1"
    || StartsWith(hostname, "127.") || StartsWithHextet(hostname, "::ffff:7f")
  }

  predicate PrivateRange(x: Address) {
    || x.a == 10
    || (x.a == 172 && x.b >= 16 && x.b <= 31)
    || (x.a == 192 && x.b == 168)
    || (x.a == 169 && x.b == 254)
  }

  predicate IsPrivateHostname(p: Platform, host: string) {
    var hostname := p.canonical(host);
    if IsLoopbackHost(p, hostname) || EndsWith(hostname, ".local") then true
    else if ':' in hostname then
      StartsWithHextet(hostname, "fc") || StartsWithHextet(hostname, "fd") || StartsWith(hostname, "fe80:")
    else
      var address := ParseAddress(p, hostname);
      address.Some? && (PrivateRange(address.value) || IsSharedAddress(p, hostname))
  }

  /** An address as a 32-bit number, and the blocks of addresses that agree with it in their first bits. */
  function Number32(x: Address): int {
    ((x.a * 256 + x.b) * 256 + x.c) * 256 + x.d
  }

  predicate InBlock(x: Address, base: Address, hostBits: int)
    requires hostBits > 0
  {
    Number32(x) / hostBits == Number32(base) / hostBits
  }

  predicate Octets(x: Address) {
    0 <= x.a <= 255 && 0 <= x.b <= 255 && 0 <= x.c <= 255 && 0 <= x.d <= 255
  }

  /** 100.64.0.0/10. */
  lemma SharedRangeIsABlock(x: Address)
    requires Octets(x)
    ensures SharedRange(x) <==> InBlock(x, Address(100, 64, 0, 0), 0x40_0000)
  {
    assert Number32(x) / 0x40_0000 == x.a * 4 + x.b / 64;
  }

  /** 10.0.0.0/8, 172.16.0.0/12, 192.168.0.0/16 and 169.254.0.0/16. */
  lemma PrivateRangeIsFourBlocks(x: Address)
    requires Octets(x)
    ensures PrivateRange(x) <==>
              || InBlock(x, Address(10, 0, 0, 0), 0x100_0000) || InBlock(x, Address(172, 16, 0, 0), 0x10_0000)
              || InBlock(x, Address(192, 168, 0, 0), 0x1_0000) || InBlock(x, Address(169, 254, 0, 0), 0x1_0000)
  {
    var n := Number32(x);
    assert n / 0x100_0000 == x.a;
    assert n / 0x10_0000 == x.a * 16 + x.b / 16;
    assert n / 0x1_0000 == x.a * 256 + x.b;
  }

  // ---- Hints ----

  function Normalized(declared: Declared): Hint {
    match declared
    case DeclaredLan => Some(LanNetwork)
    case DeclaredPrivate => Some(PrivateNetwork)
    case DeclaredLoopback => Some(LoopbackNetwork)
    case _ => None
  }

  function KindForEndpoint(p: Platform, e: Endpoint): Hint {
    if IsLoopbackHost(p, e.host) then Some(LoopbackNetwork)
    else if e.kind == Loopback || e.declared == Unknown then None
    else
      var explicit := Normalized(e.declared);
      if explicit == Some(LoopbackNetwork) then None
      else if explicit == Some(LanNetwork) && (e.kind == Tailscale || IsSharedAddress(p, e.host)) then None
      else if explicit.Some? then explicit
      else if e.kind == Tailscale && IsSharedAddress(p, e.host) then Some(PrivateNetwork)
      else None
  }

  /** When each hint is given: nothing but an explicit, credible declaration ever claims the local network. */
  lemma HintsAreConservative(p: Platform, e: Endpoint)
    ensures KindForEndpoint(p, e) == Some(LanNetwork) <==>
              && e.declared == DeclaredLan && e.kind == Lan
              && !IsSharedAddress(p, e.host) && !IsLoopbackHost(p, e.host)
    ensures KindForEndpoint(p, e) == Some(LoopbackNetwork) <==> IsLoopbackHost(p, e.host)
    ensures KindForEndpoint(p, e) == Some(PrivateNetwork) <==>
              && !IsLoopbackHost(p, e.host) && e.kind != Loopback
              && (e.declared == DeclaredPrivate ||
                  (e.kind == Tailscale && IsSharedAddress(p, e.host) && (e.declared == Absent || e.declared == Strange)))
  {
  }

  // ---- Merging ----

  /** Two hints for one address: kept when they agree. */
  function Join(a: Hint, b: Hint): Hint {
    if a == b then a else None
  }

  /** A join semilattice in which "no hint" absorbs. */
  lemma JoinLaws(a: Hint, b: Hint, c: Hint)
    ensures Join(a, Join(b, c)) == Join(Join(a, b), c)
    ensures Join(a, b) == Join(b, a) && Join(a, a) == a && Join(a, None) == None
  {
  }

  /** The route an endpoint asks for, if it is dialable. */
  function RouteOf(p: Platform, e: Endpoint): Option<Route> {
    if e.kind == Loopback || |e.host| > 253 || '/' in e.host || e.port == None || e.port.value < 1 || e.port.value > 65535
    then None
    else
      var url := p.parse(e.host, e.port.value);
      if url == None || !url.value.bare || IsLoopbackHost(p, url.value.hostname) || !IsPrivateHostname(p, url.value.hostname)
      then None
      else Some(Route(url.value.origin, KindForEndpoint(p, e)))
  }

  ghost predicate Wants(p: Platform, endpoints: seq<Endpoint>, route: Route) {
    exists e :: e in endpoints && RouteOf(p, e) == Some(route)
  }

  ghost predicate WantsHint(p: Platform, endpoints: seq<Endpoint>, url: string, hint: Hint) {
    Wants(p, endpoints, Route(url, hint))
  }

  /** A hint survives when every endpoint with this address gives it; otherwise the address goes without one. */
  ghost predicate Advertised(p: Platform, endpoints: seq<Endpoint>, route: Route) {
    && (exists hint :: WantsHint(p, endpoints, route.url, hint))
    && (route.hint.Some? <==> exists given: Hint :: given.Some? && OnlyHint(p, endpoints, route.url, given))
    && (route.hint.Some? ==> OnlyHint(p, endpoints, route.url, route.hint))
  }

  ghost predicate OnlyHint(p: Platform, endpoints: seq<Endpoint>, url: string, given: Hint) {
    forall hint :: WantsHint(p, endpoints, url, hint) ==> hint == given
  }

  // ---- Order ----

  ghost predicate StrictTotalOrder(before: (string, string) -> bool) {
    && (forall a :: !before(a, a))
    && (forall a, b :: a != b ==> before(a, b) || before(b, a))
    && (forall a, b, c :: before(a, b) && before(b, c) ==> before(a, c))
  }

  ghost predicate Ascending(before: (string, string) -> bool, routes: seq<Route>) {
    forall i, j :: 0 <= i < j < |routes| ==> before(routes[i].url, routes[j].url)
  }

  /** The list to be advertised, without reference to any order of the endpoints. */
  ghost predicate IsAdvertisement(p: Platform, endpoints: seq<Endpoint>, routes: seq<Route>) {
    Ascending(p.before, routes) && forall r :: r in routes <==> Advertised(p, endpoints, r)
  }

  function Insert(before: (string, string) -> bool, r: Route, sorted: seq<Route>): seq<Route> {
    if sorted == [] || before(r.url, sorted[0].url) then [r] + sorted else [sorted[0]] + Insert(before, r, sorted[1..])
  }

  function SortByUrl(before: (string, string) -> bool, routes: seq<Route>): seq<Route> {
    if routes == [] then [] else Insert(before, routes[0], SortByUrl(before, routes[1..]))
  }

  lemma {:induction false} InsertOk(before: (string, string) -> bool, r: Route, sorted: seq<Route>)
    requires StrictTotalOrder(before) && Ascending(before, sorted) && forall x :: x in sorted ==> x.url != r.url
    ensures Ascending(before, Insert(before, r, sorted)) && forall x :: x in Insert(before, r, sorted) <==> x == r || x in sorted
  {
    if sorted != [] {
      var rest := sorted[1..];
      assert sorted == [sorted[0]] + rest && sorted[0] in sorted;
      if !before(r.url, sorted[0].url) {
        InsertOk(before, r, rest);
        var tail := Insert(before, r, rest);
        forall j | 0 <= j < |tail|
          ensures before(sorted[0].url, tail[j].url)
        {
          assert tail[j] in tail;
          if tail[j] != r {
            var k :| 0 <= k < |rest| && rest[k] == tail[j];
            assert sorted[k + 1] == tail[j];
          }
        }
      }
    }
  }

  ghost predicate DistinctUrls(routes: seq<Route>) {
    forall i, j :: 0 <= i < j < |routes| ==> routes[i].url != routes[j].url
  }

  lemma {:induction false} SortOk(before: (string, string) -> bool, routes: seq<Route>)
    requires StrictTotalOrder(before) && DistinctUrls(routes)
    ensures Ascending(before, SortByUrl(before, routes)) && forall x :: x in SortByUrl(before, routes) <==> x in routes
  {
    hide StrictTotalOrder, Insert, Ascending;
    if routes == [] {
      assert Ascending(before, []) by { NothingAscends(before); }
    } else {
      var rest := routes[1..];
      assert routes == [routes[0]] + rest;
      SortOk(before, rest);
      InsertOk(before, routes[0], SortByUrl(before, rest));
    }
  }

  lemma NothingAscends(before: (string, string) -> bool)
    ensures Ascending(before, [])
  {
  }

  // ---- The loop over the endpoints ----

  /** The Map holds exactly the routes advertised by the endpoints seen so far. */
  ghost predicate Holds(p: Platform, seen: seq<Endpoint>, hints: map<string, Hint>) {
    forall r: Route :: (r.url in hints && hints[r.url] == r.hint) <==> Advertised(p, seen, r)
  }

  lemma WantsAppend(p: Platform, seen: seq<Endpoint>, e: Endpoint, r: Route)
    ensures Wants(p, seen + [e], r) <==> Wants(p, seen, r) || RouteOf(p, e) == Some(r)
  {
    hide RouteOf;
    if RouteOf(p, e) == Some(r) { assert e in seen + [e]; }
    if x :| x in seen && RouteOf(p, x) == Some(r) { assert x in seen + [e]; }
  }

  /** Every wanted address is advertised with exactly one hint. */
  lemma AdvertisedOnce(p: Platform, seen: seq<Endpoint>, url: string, hint: Hint)
    requires WantsHint(p, seen, url, hint)
    ensures exists g: Hint :: Advertised(p, seen, Route(url, g))
    ensures forall g: Hint, h: Hint :: Advertised(p, seen, Route(url, g)) && Advertised(p, seen, Route(url, h)) ==> g == h
  {
    hide Wants;
    if given: Hint :| given.Some? && OnlyHint(p, seen, url, given) {
      assert Advertised(p, seen, Route(url, given));
    } else {
      assert Advertised(p, seen, Route(url, None));
    }
  }

  lemma SkippingHolds(p: Platform, seen: seq<Endpoint>, e: Endpoint, hints: map<string, Hint>)
    requires Holds(p, seen, hints) && RouteOf(p, e) == None
    ensures Holds(p, seen + [e], hints)
  {
    hide RouteOf;
    forall url, hint
      ensures WantsHint(p, seen + [e], url, hint) <==> WantsHint(p, seen, url, hint)
    {
      WantsAppend(p, seen, e, Route(url, hint));
    }
    hide WantsHint;
    forall url, given
      ensures OnlyHint(p, seen + [e], url, given) <==> OnlyHint(p, seen, url, given)
    {
    }
    hide OnlyHint;
    forall r: Route
      ensures Advertised(p, seen + [e], r) <==> Advertised(p, seen, r)
    {
    }
  }

  /** Joining the hint an address has with the one a further endpoint gives. */
  lemma Joined(p: Platform, seen: seq<Endpoint>, e: Endpoint, g: Hint)
    requires RouteOf(p, e).Some?
    requires var url := RouteOf(p, e).value.url;
             Advertised(p, seen, Route(url, g)) || (forall hint :: !WantsHint(p, seen, url, hint))
    ensures var (url, hint) := (RouteOf(p, e).value.url, RouteOf(p, e).value.hint);
            Advertised(p, seen + [e], Route(url, if Advertised(p, seen, Route(url, g)) then Join(g, hint) else hint))
  {
    hide RouteOf;
    var (url, hint) := (RouteOf(p, e).value.url, RouteOf(p, e).value.hint);
    var all := seen + [e];
    forall h
      ensures WantsHint(p, all, url, h) <==> WantsHint(p, seen, url, h) || h == hint
    {
      WantsAppend(p, seen, e, Route(url, h));
    }
    hide WantsHint;
    assert WantsHint(p, all, url, hint);
    if Advertised(p, seen, Route(url, g)) {
      var k :| WantsHint(p, seen, url, k);
      assert WantsHint(p, all, url, k);
      if g == hint && g.Some? {
        assert OnlyHint(p, all, url, g);
      }
    } else {
      assert OnlyHint(p, all, url, hint);
      if given: Hint :| given.Some? && OnlyHint(p, all, url, given) { assert given == hint; }
    }
  }

  /** Setting one address joins the hint in the Map with the new one. */
  lemma JoiningHolds(p: Platform, seen: seq<Endpoint>, e: Endpoint, hints: map<string, Hint>)
    requires Holds(p, seen, hints) && RouteOf(p, e).Some?
    ensures var r := RouteOf(p, e).value;
            Holds(p, seen + [e], hints[r.url := if r.url in hints then Join(hints[r.url], r.hint) else r.hint])
  {
    hide RouteOf;
    var (url, hint) := (RouteOf(p, e).value.url, RouteOf(p, e).value.hint);
    var all := seen + [e];
    var joined := if url in hints then Join(hints[url], hint) else hint;
    if url in hints {
      assert Advertised(p, seen, Route(url, hints[url]));
      Joined(p, seen, e, hints[url]);
    } else {
      forall h
        ensures !WantsHint(p, seen, url, h)
      {
        if WantsHint(p, seen, url, h) { AdvertisedOnce(p, seen, url, h); }
      }
      NotWanted(p, seen, url, None);
      Joined(p, seen, e, None);
    }
    assert Advertised(p, all, Route(url, joined));
    WantsAppend(p, seen, e, Route(url, hint));
    assert WantsHint(p, all, url, hint);
    AdvertisedOnce(p, all, url, hint);
    forall r: Route | r.url != url
      ensures Advertised(p, all, r) <==> Advertised(p, seen, r)
    {
      ElsewhereUnchanged(p, seen, e, r);
    }
    hide Advertised;
    forall r: Route
      ensures (r.url in hints[url := joined] && hints[url := joined][r.url] == r.hint) <==> Advertised(p, all, r)
    {
      assert (r.url in hints && hints[r.url] == r.hint) <==> Advertised(p, seen, r);
      assert r.url == url ==> r == Route(url, r.hint);
    }
  }

  lemma NotWanted(p: Platform, seen: seq<Endpoint>, url: string, g: Hint)
    requires forall hint :: !WantsHint(p, seen, url, hint)
    ensures !Advertised(p, seen, Route(url, g))
  {
  }

  lemma ElsewhereUnchanged(p: Platform, seen: seq<Endpoint>, e: Endpoint, r: Route)
    requires RouteOf(p, e).Some? && r.url != RouteOf(p, e).value.url
    ensures Advertised(p, seen + [e], r) <==> Advertised(p, seen, r)
  {
    hide RouteOf;
    forall hint
      ensures WantsHint(p, seen + [e], r.url, hint) <==> WantsHint(p, seen, r.url, hint)
    {
      WantsAppend(p, seen, e, Route(r.url, hint));
    }
    hide WantsHint;
    forall given
      ensures OnlyHint(p, seen + [e], r.url, given) <==> OnlyHint(p, seen, r.url, given)
    {
    }
    hide OnlyHint;
  }

  method PrivateRoutes(p: Platform, endpoints: seq<Endpoint>) returns (routes: seq<Route>)
    requires StrictTotalOrder(p.before)
    ensures IsAdvertisement(p, endpoints, routes)
  {
    hide StrictTotalOrder, Advertised, IsLoopbackHost, IsPrivateHostname, KindForEndpoint;
    var urls: seq<string> := [];
    var hints: map<string, Hint> := map[];
    NothingHeld(p);
    for i := 0 to |endpoints|
      invariant Holds(p, endpoints[..i], hints)
      invariant forall j, k :: 0 <= j < k < |urls| ==> urls[j] != urls[k]
      invariant forall u :: u in hints <==> u in urls
    {
      var e := endpoints[i];
      assert endpoints[..i + 1] == endpoints[..i] + [e];
      if RouteOf(p, e) == None { SkippingHolds(p, endpoints[..i], e, hints); } else { JoiningHolds(p, endpoints[..i], e, hints); }
      if e.kind == Loopback || |e.host| > 253 || '/' in e.host || e.port == None || e.port.value < 1 || e.port.value > 65535 {
        continue;
      }
      var url := p.parse(e.host, e.port.value);
      if url == None { continue; }
      if !url.value.bare || IsLoopbackHost(p, url.value.hostname) || !IsPrivateHostname(p, url.value.hostname) { continue; }
      var origin, hint := url.value.origin, KindForEndpoint(p, e);
      if origin !in hints { urls := urls + [origin]; }
      if origin in hints && hints[origin] != hint {
        hints := hints[origin := None];
      } else {
        hints := hints[origin := hint];
      }
    }
    assert endpoints[..|endpoints|] == endpoints;
    var values := seq(|urls|, i requires 0 <= i < |urls| && urls[i] in hints => Route(urls[i], hints[urls[i]]));
    SortOk(p.before, values);
    routes := SortByUrl(p.before, values);
    forall r: Route
      ensures r in routes <==> Advertised(p, endpoints, r)
    {
      if r.url in hints && hints[r.url] == r.hint {
        var k :| 0 <= k < |urls| && urls[k] == r.url;
        assert values[k] == r;
      }
    }
  }

  lemma NothingHeld(p: Platform)
    ensures Holds(p, [], map[])
  {
  }

  // ---- The order of the endpoints ----

  lemma SameWants(p: Platform, es: seq<Endpoint>, fs: seq<Endpoint>, r: Route)
    requires forall e :: e in es <==> e in fs
    ensures Advertised(p, es, r) <==> Advertised(p, fs, r)
  {
    hide RouteOf;
    forall hint
      ensures WantsHint(p, es, r.url, hint) <==> WantsHint(p, fs, r.url, hint)
    {
    }
    hide WantsHint;
    forall given
      ensures OnlyHint(p, es, r.url, given) <==> OnlyHint(p, fs, r.url, given)
    {
    }
    hide OnlyHint;
  }

  /** Two ascending lists with the same routes are the same list. */
  lemma {:induction false} AscendingUnique(before: (string, string) -> bool, r: seq<Route>, s: seq<Route>)
    requires StrictTotalOrder(before) && Ascending(before, r) && Ascending(before, s)
    requires forall x :: x in r <==> x in s
    ensures r == s
  {
    if r == [] {
      if s != [] { FirstMember(s); }
    } else {
      assert r[0] in r && s != [] && s[0] in s;
      assert r[0] == s[0];
      forall x
        ensures x in r[1..] <==> x in s[1..]
      {
        TailMembers(before, r, x);
        TailMembers(before, s, x);
      }
      AscendingUnique(before, r[1..], s[1..]);
    }
  }

  lemma FirstMember(s: seq<Route>)
    requires s != []
    ensures s[0] in s
  {
  }

  lemma TailMembers(before: (string, string) -> bool, r: seq<Route>, x: Route)
    requires StrictTotalOrder(before) && Ascending(before, r) && r != []
    ensures x in r[1..] <==> x in r && x != r[0]
  {
    assert r == [r[0]] + r[1..];
  }

  /** The list depends on the set of endpoints only: not on their order, not on repetitions. */
  lemma OrderAndRepetitionDoNotMatter(p: Platform, es: seq<Endpoint>, fs: seq<Endpoint>, r: seq<Route>, s: seq<Route>)
    requires StrictTotalOrder(p.before) && forall e :: e in es <==> e in fs
    requires IsAdvertisement(p, es, r) && IsAdvertisement(p, fs, s)
    ensures r == s
  {
    hide StrictTotalOrder, Advertised;
    forall x
      ensures x in r <==> x in s
    {
      SameWants(p, es, fs, x);
    }
    AscendingUnique(p.before, r, s);
  }

  /** One entry for each address, with a hint exactly when all endpoints of that address agree on it. */
  lemma HintSurvivesAgreement(p: Platform, es: seq<Endpoint>, routes: seq<Route>, e: Endpoint)
    requires StrictTotalOrder(p.before) && IsAdvertisement(p, es, routes) && e in es && RouteOf(p, e).Some?
    ensures var (url, hint) := (RouteOf(p, e).value.url, RouteOf(p, e).value.hint);
            && (exists g: Hint :: Route(url, g) in routes)
            && (forall g: Hint, h: Hint :: Route(url, g) in routes && Route(url, h) in routes ==> g == h)
            && (hint.Some? && Route(url, hint) in routes <==>
                  hint.Some? && forall f :: f in es && RouteOf(p, f).Some? && RouteOf(p, f).value.url == url ==>
                    RouteOf(p, f).value.hint == hint)
  {
    hide RouteOf, StrictTotalOrder;
    var (url, hint) := (RouteOf(p, e).value.url, RouteOf(p, e).value.hint);
    assert WantsHint(p, es, url, hint);
    AdvertisedOnce(p, es, url, hint);
    assert OnlyHint(p, es, url, hint) <==>
      forall f :: f in es && RouteOf(p, f).Some? && RouteOf(p, f).value.url == url ==> RouteOf(p, f).value.hint == hint by {
      forall f | f in es && RouteOf(p, f).Some? && RouteOf(p, f).value.url == url
        ensures WantsHint(p, es, url, RouteOf(p, f).value.hint)
      {
        assert RouteOf(p, f) == Some(Route(url, RouteOf(p, f).value.hint));
      }
    }
    hide OnlyHint, WantsHint;
    assert Route(url, hint) in routes <==> Advertised(p, es, Route(url, hint));
  }
}
