/** Prefix lookups over tables that are iterated in an arbitrary order: the target of a request and its rate limiter.
    `a <= b` on strings means that a is a prefix of b. */
module Routing {
  import opened Headers
  import opened Options
  import opened RateLimiters
  import opened Units

  /** What routing reads of a configured target. */
  datatype Route = Route(
    urls: seq<string>,
    routingHeader: Option<Name>,
    routingValues: Option<map<string, string>>)

  /** A selected target: the key under which it was found, and the URLs to send to. */
  datatype Target = Target(key: string, urls: seq<string>)

  /** An iteration over a table visits each key once, in any order. */
  ghost predicate Visits(order: seq<string>, keys: set<string>) {
    multiset(order) == multiset(keys)
  }

  /** No key is a proper prefix of another. */
  ghost predicate PrefixFree(keys: set<string>) {
    forall a, b :: a in keys && b in keys && a <= b ==> a == b
  }

  lemma VisitsMembers(order: seq<string>, keys: set<string>)
    requires Visits(order, keys)
    ensures forall k :: k in order <==> k in keys
  {
    assert forall k :: k in order <==> k in multiset(order);
  }

  /** What one table entry contributes to a request: nothing unless its key is a prefix of the path and, where it routes
      on a header, the header's value is a configured one. */
  function Select(key: string, route: Route, path: string, headers: HeaderValues): Option<Target> {
    if !(key <= path) then None
    else match route.routingHeader
      case None => Some(Target(key, route.urls))
      case Some(name) =>
        var values := Lookup(headers, name);
        if values.None? || values.value == [] || route.routingValues.None? then None
        else
          var text := if Readable(values.value[0]) then values.value[0] else "";
          if text in route.routingValues.value
          then Some(Target(key, [route.routingValues.value[text]]))
          else None
  }

  /** The text of a header's first value; one that cannot be read counts as empty. */
  predicate ReadsAs(headers: HeaderValues, name: Name, text: string) {
    && name in headers && headers[name] != []
    && text == if Readable(headers[name][0]) then headers[name][0] else ""
  }

  /** A table entry sends a request to its own URLs if it has no routing header, and otherwise to the one URL configured
      for the text of that header; it sends it nowhere if the header is missing or its text is not configured, or if its
      key is no prefix of the path. */
  lemma SelectsTo(key: string, route: Route, path: string, headers: HeaderValues, target: Target)
    ensures Select(key, route, path, headers) == Some(target) <==>
              && key <= path && target.key == key
              && match route.routingHeader
                 case None => target.urls == route.urls
                 case Some(name) =>
                   && route.routingValues.Some?
                   && exists text ::
                        && ReadsAs(headers, name, text) && text in route.routingValues.value
                        && target.urls == [route.routingValues.value[text]]
  {
    if key <= path && route.routingHeader.Some? && route.routingHeader.value in headers
       && headers[route.routingHeader.value] != [] {
      var first := headers[route.routingHeader.value][0];
      assert ReadsAs(headers, route.routingHeader.value, if Readable(first) then first else "");
    }
  }

  /** The first entry of an iteration that contributes a target. */
  method FindTarget(routes: map<string, Route>, order: seq<string>, path: string, headers: HeaderValues)
    returns (target: Option<Target>)
    requires Visits(order, routes.Keys)
    ensures target.Some? ==>
              && target.value.key in routes
              && target == Select(target.value.key, routes[target.value.key], path, headers)
    ensures target.None? ==> forall k :: k in routes ==> Select(k, routes[k], path, headers).None?
    ensures target == FirstSelected(routes, order, path, headers)
  {
    VisitsMembers(order, routes.Keys);
    target := None;
    for i := 0 to |order|
      invariant target.None?
      invariant forall j :: 0 <= j < i ==> Select(order[j], routes[order[j]], path, headers).None?
      invariant FirstSelected(routes, order, path, headers) == FirstSelected(routes, order[i..], path, headers)
    {
      assert order[i..][0] == order[i] && order[i..][1..] == order[i + 1..];
      target := Select(order[i], routes[order[i]], path, headers);
      if target.Some? {
        break;
      }
    }
  }

  function FirstSelected(routes: map<string, Route>, order: seq<string>, path: string, headers: HeaderValues)
    : Option<Target>
  {
    if order == [] then None
    else
      var selected := if order[0] in routes then Select(order[0], routes[order[0]], path, headers) else None;
      if selected.Some? then selected else FirstSelected(routes, order[1..], path, headers)
  }

  lemma {:induction false} FirstSelectedIs(
      routes: map<string, Route>, order: seq<string>, path: string, headers: HeaderValues, k: string)
    requires PrefixFree(routes.Keys) && k in routes && k in order && k <= path
    ensures FirstSelected(routes, order, path, headers) == Select(k, routes[k], path, headers)
    decreases |order|
  {
    if order[0] != k {
      assert order[0] in routes ==> !(order[0] <= path) by {
        if order[0] in routes && order[0] <= path {
          OnePrefix(routes.Keys, order[0], k, path);
          assert false;
        }
      }
      FirstSelectedIs(routes, order[1..], path, headers, k);
    } else if k in order[1..] {
      FirstSelectedIs(routes, order[1..], path, headers, k);
    } else {
      NoneSelected(routes, order[1..], path, headers, k);
    }
  }

  lemma {:induction false} NoneSelected(
      routes: map<string, Route>, order: seq<string>, path: string, headers: HeaderValues, k: string)
    requires k !in order
    requires PrefixFree(routes.Keys) && k in routes && k <= path
    ensures FirstSelected(routes, order, path, headers) == None
    decreases |order|
  {
    if order != [] {
      assert order[0] in routes ==> !(order[0] <= path) by {
        if order[0] in routes && order[0] <= path {
          OnePrefix(routes.Keys, order[0], k, path);
          assert false;
        }
      }
      NoneSelected(routes, order[1..], path, headers, k);
    }
  }

  /** Of two prefixes of one path, the shorter is a prefix of the longer. */
  lemma PrefixesNest(a: string, b: string, path: string)
    requires a <= path && b <= path && |a| <= |b|
    ensures a <= b
  {
    assert a == path[..|a|] && b[..|a|] == path[..|a|];
  }

  lemma OnePrefix(keys: set<string>, a: string, b: string, path: string)
    requires PrefixFree(keys) && a in keys && b in keys && a <= path && b <= path
    ensures a == b
  {
    if |a| <= |b| {
      PrefixesNest(a, b, path);
    } else {
      PrefixesNest(b, a, path);
    }
  }

  // ------------------------------------------------------------------------------------------------
  // Lookups by prefix alone

  /** The first key of an iteration that is a prefix of the path. */
  function FirstPrefix(order: seq<string>, path: string): Option<string> {
    if order == [] then None
    else if order[0] <= path then Some(order[0])
    else FirstPrefix(order[1..], path)
  }

  lemma {:induction false} FirstPrefixFound(order: seq<string>, path: string)
    ensures
      match FirstPrefix(order, path)
      case None => forall k :: k in order ==> !(k <= path)
      case Some(k) => k in order && k <= path
    decreases |order|
  {
    if order != [] {
      assert order == [order[0]] + order[1..];
      FirstPrefixFound(order[1..], path);
    }
  }

  /** The prefix found is the first in the order: every key before it is none. */
  lemma {:induction false} FirstPrefixIsFirst(order: seq<string>, path: string, k: string)
    ensures FirstPrefix(order, path) == Some(k) <==>
              exists i :: 0 <= i < |order| && order[i] == k && k <= path &&
                            forall j :: 0 <= j < i ==> !(order[j] <= path)
    decreases |order|
  {
    if order != [] && !(order[0] <= path) {
      FirstPrefixIsFirst(order[1..], path, k);
      if i :| 0 <= i < |order| && order[i] == k && k <= path && forall j :: 0 <= j < i ==> !(order[j] <= path) {
        assert order[1..][i - 1] == k && forall j :: 0 <= j < i - 1 ==> order[1..][j] == order[j + 1];
      }
      if i :| 0 <= i < |order[1..]| && order[1..][i] == k && forall j :: 0 <= j < i ==> !(order[1..][j] <= path) {
        assert order[i + 1] == k && forall j :: 0 < j < i + 1 ==> order[j] == order[1..][j - 1];
      }
    }
  }

  /** An entry selects the target, and no entry before it in the order selects any. */
  ghost predicate SelectsFirst(
      routes: map<string, Route>, order: seq<string>, path: string, headers: HeaderValues, i: nat, target: Target)
  {
    && i < |order| && order[i] in routes
    && Select(order[i], routes[order[i]], path, headers) == Some(target)
    && forall j :: 0 <= j < i && order[j] in routes ==> Select(order[j], routes[order[j]], path, headers) == None
  }

  /** Nested keys or not, the target found is that of the first entry in the order that selects one. */
  lemma {:induction false} FoundIsFirst(
      routes: map<string, Route>, order: seq<string>, path: string, headers: HeaderValues, target: Target)
    ensures FirstSelected(routes, order, path, headers) == Some(target) <==>
              exists i: nat :: SelectsFirst(routes, order, path, headers, i, target)
    decreases |order|
  {
    if order != [] {
      var rest := order[1..];
      FoundIsFirst(routes, rest, path, headers, target);
      var here := if order[0] in routes then Select(order[0], routes[order[0]], path, headers) else None;
      if here.Some? {
        assert here == Some(target) ==> SelectsFirst(routes, order, path, headers, 0, target);
        assert order[0] in routes;
      } else {
        SelectsFirstLater(routes, order, path, headers, target);
      }
    }
  }

  lemma SelectsFirstLater(
      routes: map<string, Route>, order: seq<string>, path: string, headers: HeaderValues, target: Target)
    requires order != [] && (order[0] in routes ==> Select(order[0], routes[order[0]], path, headers) == None)
    ensures (exists i: nat :: SelectsFirst(routes, order, path, headers, i, target)) <==>
              exists i: nat :: SelectsFirst(routes, order[1..], path, headers, i, target)
  {
    var rest := order[1..];
    if i: nat :| SelectsFirst(routes, order, path, headers, i, target) {
      assert forall j :: 0 <= j < i - 1 ==> rest[j] == order[j + 1];
      assert SelectsFirst(routes, rest, path, headers, i - 1, target);
    }
    if i: nat :| SelectsFirst(routes, rest, path, headers, i, target) {
      assert forall j :: 0 < j < i + 1 ==> order[j] == rest[j - 1];
      assert SelectsFirst(routes, order, path, headers, i + 1, target);
    }
  }

  /** Iteration orders agree on every path. */
  ghost predicate OrderIndependent(keys: set<string>) {
    forall path, o, p :: Visits(o, keys) && Visits(p, keys) ==> FirstPrefix(o, path) == FirstPrefix(p, path)
  }

  lemma PrefixFreeAgrees(keys: set<string>, path: string, o: seq<string>, p: seq<string>)
    requires PrefixFree(keys) && Visits(o, keys) && Visits(p, keys)
    ensures FirstPrefix(o, path) == FirstPrefix(p, path)
  {
    VisitsMembers(o, keys);
    VisitsMembers(p, keys);
    FirstPrefixFound(o, path);
    FirstPrefixFound(p, path);
    match (FirstPrefix(o, path), FirstPrefix(p, path)) {
      case (Some(a), Some(b)) => OnePrefix(keys, a, b, path);
      case _ =>
    }
  }

  /** Some iteration starts with a given key. */
  lemma OrderStartingWith(keys: set<string>, order: seq<string>, k: string) returns (o: seq<string>)
    requires Visits(order, keys) && k in keys
    ensures Visits(o, keys) && o != [] && o[0] == k
  {
    VisitsMembers(order, keys);
    var i :| 0 <= i < |order| && order[i] == k;
    o := [k] + order[..i] + order[i + 1..];
    assert order == order[..i] + [k] + order[i + 1..];
  }

  lemma {:induction false} SomeOrder(keys: set<string>) returns (o: seq<string>)
    ensures Visits(o, keys)
    decreases |keys|
  {
    if keys == {} {
      o := [];
    } else {
      var k :| k in keys;
      var rest := SomeOrder(keys - {k});
      o := [k] + rest;
      assert multiset(keys) == multiset(keys - {k}) + multiset{k};
    }
  }

  /** The target of a path is independent of the iteration order for exactly the tables without nested keys. */
  lemma OrderIndependentIffPrefixFree(keys: set<string>)
    ensures OrderIndependent(keys) <==> PrefixFree(keys)
  {
    if PrefixFree(keys) {
      forall path, o, p | Visits(o, keys) && Visits(p, keys)
        ensures FirstPrefix(o, path) == FirstPrefix(p, path)
      {
        PrefixFreeAgrees(keys, path, o, p);
      }
    } else {
      var a, b :| a in keys && b in keys && a <= b && a != b;
      var order := SomeOrder(keys);
      var o := OrderStartingWith(keys, order, a);
      var p := OrderStartingWith(keys, order, b);
      assert FirstPrefix(o, b) == Some(a) && FirstPrefix(p, b) == Some(b);
    }
  }

  /** Without nested keys the selected target is the same under every iteration order, header routing included. */
  lemma FindTargetOrderIndependent(
      routes: map<string, Route>, path: string, headers: HeaderValues, o: seq<string>, p: seq<string>)
    requires PrefixFree(routes.Keys) && Visits(o, routes.Keys) && Visits(p, routes.Keys)
    ensures FirstSelected(routes, o, path, headers) == FirstSelected(routes, p, path, headers)
  {
    VisitsMembers(o, routes.Keys);
    VisitsMembers(p, routes.Keys);
    if k :| k in routes && k <= path {
      FirstSelectedIs(routes, o, path, headers, k);
      FirstSelectedIs(routes, p, path, headers, k);
    } else {
      NothingSelected(routes, o, path, headers);
      NothingSelected(routes, p, path, headers);
    }
  }

  /** Without nested keys, under every iteration order, a request under a target with a routing header goes to the URL
      configured for the text of that header, and to no target at all if the header is missing or its text is not
      configured. */
  lemma HeaderRouting(
      routes: map<string, Route>, path: string, headers: HeaderValues, o: seq<string>, k: string, name: Name)
    requires PrefixFree(routes.Keys) && Visits(o, routes.Keys)
    requires k in routes && k <= path && routes[k].routingHeader == Some(name)
    ensures
      var found := FirstSelected(routes, o, path, headers);
      match routes[k].routingValues
      case None => found == None
      case Some(values) =>
        && (forall text :: ReadsAs(headers, name, text) ==>
              found == if text in values then Some(Target(k, [values[text]])) else None)
        && ((forall text :: !ReadsAs(headers, name, text)) ==> found == None)
  {
    VisitsMembers(o, routes.Keys);
    FirstSelectedIs(routes, o, path, headers, k);
    var found := Select(k, routes[k], path, headers);
    if found.Some? {
      SelectsTo(k, routes[k], path, headers, found.value);
    }
  }

  lemma {:induction false} NothingSelected(
      routes: map<string, Route>, order: seq<string>, path: string, headers: HeaderValues)
    requires forall k :: k in routes ==> !(k <= path)
    ensures FirstSelected(routes, order, path, headers) == None
    decreases |order|
  {
    if order != [] {
      NothingSelected(routes, order[1..], path, headers);
    }
  }

  /** Without nested keys, a path that falls under a target without a routing header gets that target under any
      iteration order, the balancer's own iteration over the same keys finds the same key, and the key followed by the
      forwarded suffix is the path. */
  lemma RoutingAgreement(
      routes: map<string, Route>, path: string, headers: HeaderValues, k: string, o: seq<string>, p: seq<string>)
    requires PrefixFree(routes.Keys) && Visits(o, routes.Keys) && Visits(p, routes.Keys)
    requires k in routes && k <= path && routes[k].routingHeader.None?
    ensures FirstSelected(routes, o, path, headers) == Some(Target(k, routes[k].urls))
    ensures FirstPrefix(p, path) == Some(k)
    ensures k + path[|k|..] == path
  {
    VisitsMembers(o, routes.Keys);
    VisitsMembers(p, routes.Keys);
    FirstSelectedIs(routes, o, path, headers, k);
    FirstPrefixFound(p, path);
    OnePrefix(routes.Keys, FirstPrefix(p, path).value, k, path);
  }

  // ------------------------------------------------------------------------------------------------
  // Rate limiter lookup

  class RateLimiterManager {
    var limiters: map<string, RateLimiter>

    constructor ()
      ensures limiters == map[]
    {
      limiters := map[];
    }

    /** Inserts or replaces the limiter of one target; false where creating it panics, and then nothing changes. */
    method AddLimiter(target: string, config: Config, now: nat) returns (added: bool)
      modifies this
      ensures added <==> config.capacity > 0 && config.maxRate % TWO_32 > 0
      ensures !added ==> limiters == old(limiters)
      ensures added ==>
                && target in limiters && limiters == old(limiters)[target := limiters[target]]
                && fresh(limiters[target]) && limiters[target].config == config
                && limiters[target].Valid() && limiters[target].history == []
    {
      var limiter := RateLimiter.New(config, now);
      if limiter.Some? {
        limiters := limiters[target := limiter.value];
      }
      added := limiter.Some?;
    }

    /** The limiter under the path itself, or else the first one whose key is a prefix of it. */
    method GetLimiter(target: string, order: seq<string>) returns (limiter: Option<RateLimiter>)
      requires Visits(order, limiters.Keys)
      ensures match LimiterKey(limiters.Keys, order, target)
              case None => limiter == None
              case Some(k) => k in limiters && limiter == Some(limiters[k])
    {
      VisitsMembers(order, limiters.Keys);
      FirstPrefixFound(order, target);
      if target in limiters {
        return Some(limiters[target]);
      }
      for i := 0 to |order|
        invariant FirstPrefix(order, target) == FirstPrefix(order[i..], target)
      {
        assert order[i..][0] == order[i] && order[i..][1..] == order[i + 1..];
        if order[i] <= target {
          return Some(limiters[order[i]]);
        }
      }
      limiter := None;
    }
  }

  function LimiterKey(keys: set<string>, order: seq<string>, target: string): Option<string> {
    if target in keys then Some(target) else FirstPrefix(order, target)
  }

  /** A limiter configured for the very path is the one that is used, under every iteration order; otherwise one
      whose key is a prefix of the path, and none only if there is no such key. */
  lemma LimiterFor(keys: set<string>, order: seq<string>, target: string)
    requires Visits(order, keys)
    ensures
      match LimiterKey(keys, order, target)
      case None => forall k :: k in keys ==> !(k <= target)
      case Some(k) => k in keys && k <= target && (target in keys ==> k == target)
  {
    VisitsMembers(order, keys);
    FirstPrefixFound(order, target);
  }

  /** A string that is longer than every key and extends a given one. */
  lemma {:induction false} Extension(keys: set<string>, b: string) returns (path: string)
    ensures b <= path && path !in keys
    ensures forall k :: k in keys ==> |k| < |path|
    decreases |keys|
  {
    if keys == {} {
      path := b + "/";
    } else {
      var k :| k in keys;
      path := Extension(keys - {k}, b);
      path := path + k + "/";
      assert forall j :: j in keys && j != k ==> j in keys - {k};
    }
  }

  /** The limiter that a path gets is independent of the iteration order for exactly the tables without nested keys;
      the exact match that is tried first does not help paths below both keys. */
  lemma LimiterOrderIndependentIffPrefixFree(keys: set<string>)
    ensures (forall path, o, p :: Visits(o, keys) && Visits(p, keys) ==>
               LimiterKey(keys, o, path) == LimiterKey(keys, p, path))
            <==> PrefixFree(keys)
  {
    if PrefixFree(keys) {
      forall path, o, p | Visits(o, keys) && Visits(p, keys)
        ensures LimiterKey(keys, o, path) == LimiterKey(keys, p, path)
      {
        PrefixFreeAgrees(keys, path, o, p);
      }
    } else {
      var a, b :| a in keys && b in keys && a <= b && a != b;
      var path := Extension(keys, b);
      var order := SomeOrder(keys);
      var o := OrderStartingWith(keys, order, a);
      var p := OrderStartingWith(keys, order, b);
      assert a <= path;
      assert LimiterKey(keys, o, path) == Some(a) && LimiterKey(keys, p, path) == Some(b);
    }
  }
}
