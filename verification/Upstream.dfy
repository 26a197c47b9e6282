/** Where an attempt goes: the balancer's choice of a URL, and the request rebuilt for it. Either can panic. */
module Upstreams {
  import opened BalancerAnswers
  import opened Headers
  import opened LoadBalancers
  import opened Options
  import opened Routing

  /** What the proxy keeps of a parsed URI. */
  datatype Uri = Uri(authority: Option<Value>)

  /** None for a string that is no URI. */
  type UriParser = string -> Option<Uri>

  /** What all requests share: the balancer's configuration, if there is one, with the order in which its table of paths
      is iterated, and the parsers of the HTTP library. */
  datatype Site = Site(balancer: Option<Config>, order: seq<string>, uris: UriParser, names: NameParser)

  /** The original request: the first URL of its target, the length of the key its target was found under, and the
      configured transforms. */
  datatype Original = Original(
    path: string,
    query: string,
    headers: HeaderValues,
    clientIp: Value,
    firstUrl: string,
    keyLength: nat,
    transforms: seq<Transform>)

  datatype Outgoing = Outgoing(uri: string, headers: HeaderValues)

  // ------------------------------------------------------------------------------------------------
  // The balancer's choice

  const NO_TABLES := State(map[], map[])

  /** A call of get_target for a path, or nothing if there is no balancer. */
  function Asked(site: Site, st: State, path: string): (State, Choice) {
    if site.balancer.None? then (st, NoTarget) else Called(site.balancer.value, st, path, site.order)
  }

  /** The tables after calls by other requests. */
  function AskedBy(site: Site, st: State, paths: seq<string>): State {
    if paths == [] then st else Asked(site, AskedBy(site, st, paths[..|paths| - 1]), paths[|paths| - 1]).0
  }

  /** The URL that a choice comes to; None for a panic. */
  function UrlOf(o: Original, c: Choice): Option<string> {
    match c
    case Chosen(url) => Some(url)
    case NoTarget => Some(o.firstUrl)
    case Panicked => None
  }

  // ------------------------------------------------------------------------------------------------
  // The rebuilt request

  function UriTo(o: Original, url: string): string
    requires o.keyLength <= |o.path|
  {
    var target := url + o.path[o.keyLength..];
    if o.query == "" then target else target + "?" + o.query
  }

  predicate Rebuilds(site: Site, o: Original, url: string) {
    o.keyLength <= |o.path| && site.uris(UriTo(o, url)).Some?
  }

  /** The request sent to a URL; None for a panic. */
  function OutgoingTo(site: Site, o: Original, url: string): Option<Outgoing> {
    if !Rebuilds(site, o, url) then None
    else
      var authority := site.uris(UriTo(o, url)).value.authority;
      Some(Outgoing(UriTo(o, url),
                    Transformed(site.names, UpstreamHeaders(o.headers, o.clientIp, authority), o.transforms)))
  }

  /** An attempt asks its URL for what follows the matched key in the path, with the query if there is one, and panics
      only if that is no URI. */
  lemma UriKeepsSuffix(site: Site, o: Original, url: string, key: string, rest: string)
    requires o.path == key + rest && o.keyLength == |key|
    ensures
      var uri := url + rest + (if o.query == "" then "" else "?" + o.query);
      && (OutgoingTo(site, o, url).Some? <==> site.uris(uri).Some?)
      && (OutgoingTo(site, o, url).Some? ==> OutgoingTo(site, o, url).value.uri == uri)
  {
    assert o.path[o.keyLength..] == rest;
    if o.query == "" {
      assert url + rest + "" == url + rest;
    } else {
      assert url + rest + "?" + o.query == url + rest + ("?" + o.query);
    }
  }

  /** A request that was routed under a key is sent on with that key taken off its path. */
  lemma RoutedUri(
      site: Site, routes: map<string, Route>, order: seq<string>, o: Original, target: Target, url: string)
    requires FirstSelected(routes, order, o.path, o.headers) == Some(target) && o.keyLength == |target.key|
    requires OutgoingTo(site, o, url).Some?
    ensures exists rest ::
              && o.path == target.key + rest
              && OutgoingTo(site, o, url).value.uri == url + rest + (if o.query == "" then "" else "?" + o.query)
  {
    SelectedIsPrefix(routes, order, o.path, o.headers);
    var rest := o.path[|target.key|..];
    assert o.path == target.key + rest;
    UriKeepsSuffix(site, o, url, target.key, rest);
  }

  lemma {:induction false} SelectedIsPrefix(
      routes: map<string, Route>, order: seq<string>, path: string, headers: HeaderValues)
    ensures FirstSelected(routes, order, path, headers).Some? ==>
              FirstSelected(routes, order, path, headers).value.key <= path
    decreases |order|
  {
    if order != [] {
      SelectedIsPrefix(routes, order[1..], path, headers);
    }
  }

  /** The headers of an attempt: its transforms applied to the rebuilt ones, whose host is that of the URI sent to. */
  lemma OutgoingHeaders(site: Site, o: Original, url: string)
    requires OutgoingTo(site, o, url).Some?
    ensures
      var out := OutgoingTo(site, o, url).value;
      && site.uris(out.uri).Some?
      && forall n: Name ::
           Lookup(out.headers, n)
           == Fold(Rebuilt(o.headers, o.clientIp, site.uris(out.uri).value.authority, n),
                   Naming(site.names, o.transforms, n))
  {
    var out := OutgoingTo(site, o, url).value;
    var authority := site.uris(out.uri).value.authority;
    forall n: Name
      ensures Lookup(out.headers, n)
              == Fold(Rebuilt(o.headers, o.clientIp, authority, n), Naming(site.names, o.transforms, n))
    {
      TransformsFactorPerHeader(site.names, UpstreamHeaders(o.headers, o.clientIp, authority), o.transforms, n);
      UpstreamHeadersAre(o.headers, o.clientIp, authority, n);
    }
  }

  /** Rebuilds the request from the original and applies the transforms. */
  method Rebuild(site: Site, o: Original, url: string, pairs: seq<(Name, Value)>) returns (out: Option<Outgoing>)
    requires Iterates(pairs, o.headers)
    ensures out == OutgoingTo(site, o, url)
  {
    if o.keyLength > |o.path| {
      return None;
    }
    var target := url + o.path[o.keyLength..];
    var uri := if o.query == "" then target else target + "?" + o.query;
    var parsed := site.uris(uri);
    if parsed.None? {
      return None;
    }
    var headers := RebuildHeaders(o.headers, pairs, o.clientIp, parsed.value.authority);
    headers.ApplyTransforms(site.names, o.transforms);
    out := Some(Outgoing(uri, headers.values));
  }

  // ------------------------------------------------------------------------------------------------
  // What becomes of an attempt

  predicate Goes(site: Site, o: Original, c: Choice) {
    UrlOf(o, c).Some? && Rebuilds(site, o, UrlOf(o, c).value)
  }

  /** The URL that an attempt is sent to, with the tables as they are; None if it panics before. */
  function Fate(site: Site, st: State, o: Original): Option<string> {
    var c := Asked(site, st, o.path).1;
    if Goes(site, o, c) then UrlOf(o, c) else None
  }

  /** What the configuration lets the balancer answer for a path. */
  ghost predicate Allowed(site: Site, path: string, c: Choice) {
    if site.balancer.None? then c == NoTarget else CanAnswer(site.balancer.value, path, site.order, c)
  }

  /** Some attempt of a request can be sent. */
  ghost predicate CanGo(site: Site, o: Original) {
    exists c :: Allowed(site, o.path, c) && Goes(site, o, c)
  }

  /** Some attempt of a request can panic before it is sent. */
  ghost predicate CanFall(site: Site, o: Original) {
    exists c :: Allowed(site, o.path, c) && !Goes(site, o, c)
  }

  /** The tables are such as calls lead to. */
  ghost predicate TablesSound(site: Site, st: State) {
    site.balancer.Some? ==> Sound(site.balancer.value, st)
  }

  lemma AskedAllowed(site: Site, st: State, o: Original)
    requires TablesSound(site, st)
    ensures Allowed(site, o.path, Asked(site, st, o.path).1) && TablesSound(site, Asked(site, st, o.path).0)
    ensures Fate(site, st, o).Some? ==> CanGo(site, o)
    ensures Fate(site, st, o).None? ==> CanFall(site, o)
  {
    if site.balancer.Some? {
      CallAnswers(site.balancer.value, st, o.path, site.order);
      CallIsTurn(site.balancer.value, st, o.path, site.order);
    }
  }

  function AskedTimes(site: Site, st: State, path: string, n: nat): State
    decreases n
  {
    if n == 0 then st else AskedTimes(site, Asked(site, st, path).0, path, n - 1)
  }

  lemma {:induction false} AskedTimesAgain(site: Site, st: State, path: string, n: nat)
    requires site.balancer.Some?
    ensures AskedTimes(site, st, path, n) == AskedAgain(site.balancer.value, st, path, site.order, n)
    decreases n
  {
    if n > 0 {
      AskedTimesAgain(site, Asked(site, st, path).0, path, n - 1);
    }
  }

  /** From every sound state, after some calls for the path, an attempt is sent, if any can be, or panics, if any
      can. */
  lemma FateRecurs(site: Site, st: State, o: Original, goes: bool) returns (n: nat)
    requires TablesSound(site, st) && (if goes then CanGo(site, o) else CanFall(site, o))
    ensures Fate(site, AskedTimes(site, st, o.path, n), o).Some? <==> goes
  {
    n := 0;
    var c :| Allowed(site, o.path, c) && Goes(site, o, c) == goes;
    if site.balancer.Some? {
      n := AnswersRecur(site.balancer.value, st, o.path, site.order, c);
      AskedTimesAgain(site, st, o.path, n);
    }
  }

  /** An attempt can be sent or panic. */
  lemma GoesOrFalls(site: Site, o: Original)
    ensures CanGo(site, o) || CanFall(site, o)
  {
    var c := NoTarget;
    if site.balancer.Some? {
      c := SomeAnswer(site.balancer.value, o.path, site.order);
    }
    assert Allowed(site, o.path, c);
  }

  /** Where there is no balancer, or it has nobody to choose for the path, the attempt goes to the first URL of the
      target, or panics if that makes no URI. */
  lemma GoesToFirstUrl(site: Site, st: State, o: Original)
    requires TablesSound(site, st)
    requires site.balancer.Some? ==> Decisive(site.balancer.value, o.path, site.order).None?
    ensures Fate(site, st, o) == if Rebuilds(site, o, o.firstUrl) then Some(o.firstUrl) else None
  {
    if site.balancer.Some? {
      CallIsTurn(site.balancer.value, st, o.path, site.order);
    }
  }

  /** Otherwise it goes to a URL that the decisive path can take, or to the first URL if that path has no weights. */
  lemma GoesToTaken(site: Site, st: State, o: Original, url: string)
    requires TablesSound(site, st) && Fate(site, st, o) == Some(url) && site.balancer.Some?
    requires Decisive(site.balancer.value, o.path, site.order).Some?
    ensures
      var cfg, key := site.balancer.value, Decisive(site.balancer.value, o.path, site.order).value;
      || (exists i :: 0 <= i < |cfg.targets[key]| && Takes(cfg, key, i) && cfg.targets[key][i] == url)
      || (Unweighted(cfg, key) && url == o.firstUrl)
  {
    CallAnswers(site.balancer.value, st, o.path, site.order);
  }

  // ------------------------------------------------------------------------------------------------
  // Choosing, with the balancer as an object

  /** The site's balancer, or null if it has none. */
  ghost predicate Serves(site: Site, balancer: LoadBalancer?) {
    && (balancer == null <==> site.balancer.None?)
    && (balancer != null ==>
          balancer.Valid() && site.balancer == Some(balancer.Cfg()) && Visits(site.order, balancer.targets.Keys))
  }

  ghost function Tables(balancer: LoadBalancer?): State
    reads balancer
  {
    if balancer == null then NO_TABLES else balancer.View()
  }

  method Ask(site: Site, balancer: LoadBalancer?, path: string) returns (choice: Choice)
    requires Serves(site, balancer)
    modifies balancer
    ensures (Tables(balancer), choice) == Asked(site, old(Tables(balancer)), path)
  {
    choice := NoTarget;
    if balancer != null {
      choice := balancer.GetTarget(path, site.order);
    }
  }

  /** Calls by other requests, in the order in which they got hold of the lock. */
  method AskForOthers(site: Site, balancer: LoadBalancer?, paths: seq<string>)
    requires Serves(site, balancer)
    modifies balancer
    ensures Tables(balancer) == AskedBy(site, old(Tables(balancer)), paths)
  {
    for i := 0 to |paths|
      invariant Tables(balancer) == AskedBy(site, old(Tables(balancer)), paths[..i])
    {
      assert paths[..i + 1][..i] == paths[..i];
      var _ := Ask(site, balancer, paths[i]);
    }
    assert paths[..|paths|] == paths;
  }

  /** Chooses a URL and rebuilds the request for it; None for a panic in either. */
  method Prepare(site: Site, balancer: LoadBalancer?, o: Original, pairs: seq<(Name, Value)>)
    returns (out: Option<Outgoing>)
    requires Serves(site, balancer) && Iterates(pairs, o.headers)
    modifies balancer
    ensures Tables(balancer) == Asked(site, old(Tables(balancer)), o.path).0
    ensures
      match Fate(site, old(Tables(balancer)), o)
      case None => out == None
      case Some(url) => out.Some? && out == OutgoingTo(site, o, url)
  {
    var choice := Ask(site, balancer, o.path);
    match choice {
      case Panicked => out := None;
      case Chosen(url) => out := Rebuild(site, o, url, pairs);
      case NoTarget => out := Rebuild(site, o, o.firstUrl, pairs);
    }
  }
}
