/** Header maps, the configured header transforms, and the headers of the request that is sent upstream.
    A name is in the lower-case form that parsing yields; a value is a string of byte values. */
module Headers {
  import opened Options

  type Name = string
  type Value = string

  /** Each name's values in the order in which they were added. */
  type HeaderValues = map<Name, seq<Value>>

  /** How the HTTP library parses a header name; None for a name that is not a token. */
  type NameParser = string -> Option<Name>

  datatype Transform = Transform(name: string, value: Option<Value>, operation: string)

  /** The bytes a header value may hold. */
  predicate ValidValue(v: Value) {
    forall i :: 0 <= i < |v| ==> v[i] == '\t' || (v[i] as int >= 32 && v[i] as int != 127)
  }

  /** The values that can be read as text. */
  predicate Readable(v: Value) {
    forall i :: 0 <= i < |v| ==> v[i] == '\t' || 32 <= v[i] as int < 127
  }

  function OrEmpty(v: Option<Value>): Value {
    if v.Some? then v.value else ""
  }

  function Sanitized(v: Value): Value {
    if ValidValue(v) then v else ""
  }

  function Lookup(h: HeaderValues, n: Name): Option<seq<Value>> {
    if n in h then Some(h[n]) else None
  }

  /** The first value of a name, if there is one and it can be read. */
  function FirstReadable(vs: Option<seq<Value>>): Option<Value> {
    if vs.Some? && vs.value != [] && Readable(vs.value[0]) then Some(vs.value[0]) else None
  }

  // ------------------------------------------------------------------------------------------------
  // What transforms mean

  /** A transform as a change to the values of the one header it names. */
  function NewValues(vs: Option<seq<Value>>, t: Transform): Option<seq<Value>> {
    match t.operation
    case "Set" => Some([Sanitized(OrEmpty(t.value))])
    case "Remove" => None
    case "Append" =>
      var current := FirstReadable(vs);
      Some([Sanitized((if current.Some? then current.value else "") + OrEmpty(t.value))])
    case _ => vs
  }

  function Fold(vs: Option<seq<Value>>, ts: seq<Transform>): Option<seq<Value>>
    decreases |ts|
  {
    if ts == [] then vs else Fold(NewValues(vs, ts[0]), ts[1..])
  }

  /** The transforms of a list that name a header. */
  function Naming(parse: NameParser, ts: seq<Transform>, n: Name): seq<Transform> {
    if ts == [] then []
    else if parse(ts[0].name) == Some(n) then [ts[0]] + Naming(parse, ts[1..], n)
    else Naming(parse, ts[1..], n)
  }

  /** Set and Remove forget the earlier values. */
  predicate Resets(t: Transform) {
    t.operation == "Set" || t.operation == "Remove"
  }

  /** A header map in place. */
  class HeaderMap {
    var values: HeaderValues

    constructor (values: HeaderValues)
      ensures this.values == values
    {
      this.values := values;
    }

    method Insert(n: Name, v: Value)
      modifies this
      ensures values == old(values)[n := [v]]
    {
      values := values[n := [v]];
    }

    method Remove(n: Name)
      modifies this
      ensures values == old(values) - {n}
    {
      values := values - {n};
    }

    /** Applies the transforms in order. */
    method ApplyTransforms(parse: NameParser, ts: seq<Transform>)
      modifies this
      ensures values == Transformed(parse, old(values), ts)
    {
      for i := 0 to |ts|
        invariant Transformed(parse, values, ts[i..]) == Transformed(parse, old(values), ts)
      {
        assert ts[i..][0] == ts[i] && ts[i..][1..] == ts[i + 1..];
        var parsed := parse(ts[i].name);
        if parsed.Some? {
          Apply(parsed.value, ts[i]);
        }
      }
    }

    method Apply(n: Name, t: Transform)
      modifies this
      ensures values == WithValues(old(values), n, NewValues(Lookup(old(values), n), t))
    {
      match t.operation {
        case "Set" =>
          Insert(n, Sanitized(OrEmpty(t.value)));
        case "Remove" =>
          Remove(n);
        case "Append" =>
          var current := FirstReadable(Lookup(values, n));
          Insert(n, Sanitized((if current.Some? then current.value else "") + OrEmpty(t.value)));
        case _ =>
      }
    }
  }

  function WithValues(h: HeaderValues, n: Name, vs: Option<seq<Value>>): HeaderValues {
    if vs.Some? then h[n := vs.value] else h - {n}
  }

  function TransformedByOne(parse: NameParser, h: HeaderValues, t: Transform): HeaderValues {
    match parse(t.name)
    case None => h
    case Some(n) => WithValues(h, n, NewValues(Lookup(h, n), t))
  }

  function Transformed(parse: NameParser, h: HeaderValues, ts: seq<Transform>): HeaderValues
    decreases |ts|
  {
    if ts == [] then h else Transformed(parse, TransformedByOne(parse, h, ts[0]), ts[1..])
  }

  /** Headers do not influence each other: the values of each one are the fold of the transforms that name it. */
  lemma {:induction false} TransformsFactorPerHeader(parse: NameParser, h: HeaderValues, ts: seq<Transform>, n: Name)
    ensures Lookup(Transformed(parse, h, ts), n) == Fold(Lookup(h, n), Naming(parse, ts, n))
    decreases |ts|
  {
    if ts != [] {
      var g := TransformedByOne(parse, h, ts[0]);
      TransformsFactorPerHeader(parse, g, ts[1..], n);
      if parse(ts[0].name) == Some(n) {
        assert Lookup(g, n) == NewValues(Lookup(h, n), ts[0]);
        assert Naming(parse, ts, n)[1..] == Naming(parse, ts[1..], n);
      } else {
        assert Lookup(g, n) == Lookup(h, n);
      }
    }
  }

  /** Transforms with an operation other than the three, and those whose name is no header name, do nothing. */
  lemma {:induction false} UnknownOperations(parse: NameParser, h: HeaderValues, ts: seq<Transform>)
    requires forall i :: 0 <= i < |ts| ==>
               parse(ts[i].name).None? || ts[i].operation !in {"Set", "Remove", "Append"}
    ensures Transformed(parse, h, ts) == h
    decreases |ts|
  {
    if ts != [] {
      var g := TransformedByOne(parse, h, ts[0]);
      assert forall n: Name :: Lookup(g, n) == Lookup(h, n);
      SameLookups(g, h);
      UnknownOperations(parse, h, ts[1..]);
    }
  }

  /** Nothing but tabs and bytes from 32 up to a last one, save 127. */
  predicate AllBytes(v: Value, last: int) {
    forall i :: 0 <= i < |v| ==> v[i] as int == 9 || (32 <= v[i] as int <= last && v[i] as int != 127)
  }

  /** What cannot be a header value is set to the empty one, and what cannot be read is appended to as if it were
      empty. */
  lemma SetAndAppend(parse: NameParser, h: HeaderValues, t: Transform, n: Name)
    requires parse(t.name) == Some(n)
    ensures
      var given := match t.value case Some(v) => v case None => "";
      var current := if n in h && h[n] != [] && AllBytes(h[n][0], 126) then h[n][0] + given else given;
      var after := Transformed(parse, h, [t]);
      && (t.operation == "Set" ==> Lookup(after, n) == Some([if AllBytes(given, 0x10_FFFF) then given else ""]))
      && (t.operation == "Append" ==> Lookup(after, n) == Some([if AllBytes(current, 0x10_FFFF) then current else ""]))
      && (t.operation == "Remove" ==> Lookup(after, n) == None)
  {
    var given := OrEmpty(t.value);
    var current := FirstReadable(Lookup(h, n));
    LookupOnce(parse, h, t, n);
    BytesOf(given);
    if n in h && h[n] != [] {
      BytesOf(h[n][0]);
      BytesOf(h[n][0] + given);
    }
    assert "" + given == given;
  }

  lemma LookupOnce(parse: NameParser, h: HeaderValues, t: Transform, n: Name)
    requires parse(t.name) == Some(n)
    ensures Lookup(Transformed(parse, h, [t]), n) == NewValues(Lookup(h, n), t)
  {
    assert Transformed(parse, h, [t]) == Transformed(parse, TransformedByOne(parse, h, t), []);
  }

  lemma BytesOf(v: Value)
    ensures ValidValue(v) <==> AllBytes(v, 0x10_FFFF)
    ensures Readable(v) <==> AllBytes(v, 126)
  {
  }

  /** After a reset the values from before it do not matter. */
  lemma {:induction false} ResetForgets(vs: Option<seq<Value>>, ws: Option<seq<Value>>, ts: seq<Transform>, i: nat)
    requires i < |ts| && Resets(ts[i])
    ensures Fold(vs, ts) == Fold(ws, ts)
    decreases i
  {
    if i > 0 {
      ResetForgets(NewValues(vs, ts[0]), NewValues(ws, ts[0]), ts[1..], i - 1);
    }
  }

  /** A later transform sets or removes the header that t names. */
  ghost predicate Dead(parse: NameParser, t: Transform, later: seq<Transform>) {
    parse(t.name).Some?
    && exists i :: 0 <= i < |later| && parse(later[i].name) == parse(t.name) && Resets(later[i])
  }

  /** The list without its dead transforms. */
  ghost function Pruned(parse: NameParser, ts: seq<Transform>): seq<Transform> {
    if ts == [] then []
    else if Dead(parse, ts[0], ts[1..]) then Pruned(parse, ts[1..])
    else [ts[0]] + Pruned(parse, ts[1..])
  }

  lemma {:induction false} NamingReset(parse: NameParser, ts: seq<Transform>, n: Name, i: nat) returns (j: nat)
    requires i < |ts| && parse(ts[i].name) == Some(n) && Resets(ts[i])
    ensures j < |Naming(parse, ts, n)| && Resets(Naming(parse, ts, n)[j])
    decreases i
  {
    if i == 0 {
      j := 0;
    } else {
      j := NamingReset(parse, ts[1..], n, i - 1);
      if parse(ts[0].name) == Some(n) {
        j := j + 1;
      }
    }
  }

  lemma DeadHasNoEffect(parse: NameParser, h: HeaderValues, t: Transform, later: seq<Transform>)
    requires Dead(parse, t, later)
    ensures Transformed(parse, TransformedByOne(parse, h, t), later) == Transformed(parse, h, later)
  {
    var g := TransformedByOne(parse, h, t);
    var with, without := Transformed(parse, g, later), Transformed(parse, h, later);
    forall n: Name
      ensures Lookup(with, n) == Lookup(without, n)
    {
      TransformsFactorPerHeader(parse, g, later, n);
      TransformsFactorPerHeader(parse, h, later, n);
      if parse(t.name) == Some(n) {
        var i :| 0 <= i < |later| && parse(later[i].name) == parse(t.name) && Resets(later[i]);
        var j := NamingReset(parse, later, n, i);
        ResetForgets(Lookup(g, n), Lookup(h, n), Naming(parse, later, n), j);
      } else {
        assert Lookup(g, n) == Lookup(h, n);
      }
    }
    SameLookups(with, without);
  }

  lemma SameLookups(g: HeaderValues, h: HeaderValues)
    requires forall n: Name :: Lookup(g, n) == Lookup(h, n)
    ensures g == h
  {
    assert forall n: Name :: n in g <==> Lookup(g, n).Some?;
    assert forall n: Name :: n in h <==> Lookup(h, n).Some?;
    assert forall n: Name :: n in g ==> g[n] == Lookup(g, n).value && h[n] == Lookup(h, n).value;
  }

  /** Every transform that precedes a Set or Remove of its own header can be deleted: on any headers the shorter list
      has the same result. */
  lemma {:induction false} PruningPreservesMeaning(parse: NameParser, h: HeaderValues, ts: seq<Transform>)
    ensures Transformed(parse, h, Pruned(parse, ts)) == Transformed(parse, h, ts)
    decreases |ts|
  {
    if ts != [] {
      if Dead(parse, ts[0], ts[1..]) {
        PruningPreservesMeaning(parse, h, ts[1..]);
        DeadHasNoEffect(parse, h, ts[0], ts[1..]);
      } else {
        PruningPreservesMeaning(parse, TransformedByOne(parse, h, ts[0]), ts[1..]);
        assert Pruned(parse, ts)[1..] == Pruned(parse, ts[1..]);
      }
    }
  }

  /** What pruning leaves of a header: no reset except at the front. */
  lemma {:induction false} PrunedHasOneReset(parse: NameParser, ts: seq<Transform>, n: Name, j: nat)
    requires j < |Naming(parse, Pruned(parse, ts), n)| && Resets(Naming(parse, Pruned(parse, ts), n)[j])
    ensures j == 0
    decreases |ts|
  {
    var kept := Pruned(parse, ts[1..]);
    if Dead(parse, ts[0], ts[1..]) || parse(ts[0].name) != Some(n) {
      assert !Dead(parse, ts[0], ts[1..]) ==> Pruned(parse, ts)[1..] == kept;
      PrunedHasOneReset(parse, ts[1..], n, j);
    } else if j > 0 {
      assert Pruned(parse, ts)[1..] == kept;
      var i := NamingOrigin(parse, kept, n, j - 1);
      var k := PrunedOrigin(parse, ts[1..], i);
      assert false;
    }
  }

  lemma {:induction false} NamingOrigin(parse: NameParser, ts: seq<Transform>, n: Name, j: nat) returns (i: nat)
    requires j < |Naming(parse, ts, n)|
    ensures i < |ts| && ts[i] == Naming(parse, ts, n)[j] && parse(ts[i].name) == Some(n)
    decreases |ts|
  {
    if parse(ts[0].name) == Some(n) {
      if j == 0 {
        i := 0;
      } else {
        i := NamingOrigin(parse, ts[1..], n, j - 1);
        i := i + 1;
      }
    } else {
      i := NamingOrigin(parse, ts[1..], n, j);
      i := i + 1;
    }
  }

  lemma {:induction false} PrunedOrigin(parse: NameParser, ts: seq<Transform>, i: nat) returns (k: nat)
    requires i < |Pruned(parse, ts)|
    ensures k < |ts| && ts[k] == Pruned(parse, ts)[i]
    decreases |ts|
  {
    if Dead(parse, ts[0], ts[1..]) {
      k := PrunedOrigin(parse, ts[1..], i);
      k := k + 1;
    } else if i == 0 {
      k := 0;
    } else {
      k := PrunedOrigin(parse, ts[1..], i - 1);
      k := k + 1;
    }
  }

  /** The values of a list of transforms, one after the other. */
  function Joined(ts: seq<Transform>): Value {
    if ts == [] then "" else OrEmpty(ts[0].value) + Joined(ts[1..])
  }

  predicate ReadableAppend(t: Transform) {
    t.operation == "Append" && Readable(OrEmpty(t.value))
  }

  ghost predicate ReadableAppends(ts: seq<Transform>) {
    forall i :: 0 <= i < |ts| ==> ReadableAppend(ts[i])
  }

  lemma AppendReadable(v: Value, t: Transform)
    requires Readable(v) && ReadableAppend(t)
    ensures NewValues(Some([v]), t) == Some([v + OrEmpty(t.value)]) && Readable(v + OrEmpty(t.value))
  {
    assert ValidValue(v + OrEmpty(t.value));
  }

  lemma Associative(a: Value, b: Value, c: Value)
    ensures a + b + c == a + (b + c)
  {
  }

  lemma {:induction false} AppendsConcatenate(v: Value, ts: seq<Transform>)
    requires Readable(v) && ReadableAppends(ts)
    ensures Fold(Some([v]), ts) == Some([v + Joined(ts)])
    decreases |ts|
  {
    if ts == [] {
      assert v + "" == v;
    } else {
      var t, rest := ts[0], ts[1..];
      assert Fold(Some([v]), ts) == Fold(NewValues(Some([v]), t), rest);
      AppendReadable(v, t);
      AppendsConcatenate(v + OrEmpty(t.value), rest);
      Associative(v, OrEmpty(t.value), Joined(rest));
    }
  }

  /** The value that was set followed by the appended values; nothing if the header was removed for good. */
  function Settled(reset: Transform, appends: seq<Transform>): Option<seq<Value>> {
    if reset.operation == "Set" then Some([OrEmpty(reset.value) + Joined(appends)])
    else if appends == [] then None
    else Some([Joined(appends)])
  }

  lemma ResetThenAppends(vs: Option<seq<Value>>, reset: Transform, appends: seq<Transform>)
    requires Resets(reset) && Readable(OrEmpty(reset.value)) && ReadableAppends(appends)
    ensures Fold(NewValues(vs, reset), appends) == Settled(reset, appends)
  {
    if reset.operation == "Set" {
      assert ValidValue(OrEmpty(reset.value));
      AppendsConcatenate(OrEmpty(reset.value), appends);
    } else if appends != [] {
      var x := OrEmpty(appends[0].value);
      assert "" + x == x && ValidValue(x);
      AppendsConcatenate(x, appends[1..]);
    }
  }

  /** What a header ends up as when the transforms that name it finish with a reset and then appends of readable text:
      the appended values in order, after the value that was set, whatever the header was before. */
  lemma FinalValue(
      parse: NameParser, h: HeaderValues, ts: seq<Transform>, n: Name,
      before: seq<Transform>, reset: Transform, appends: seq<Transform>)
    requires Naming(parse, ts, n) == before + ([reset] + appends)
    requires Resets(reset) && Readable(OrEmpty(reset.value)) && ReadableAppends(appends)
    ensures Lookup(Transformed(parse, h, ts), n) == Settled(reset, appends)
  {
    TransformsFactorPerHeader(parse, h, ts, n);
    FoldConcat(Lookup(h, n), before, [reset] + appends);
    assert ([reset] + appends)[0] == reset && ([reset] + appends)[1..] == appends;
    ResetThenAppends(Fold(Lookup(h, n), before), reset, appends);
  }

  lemma {:induction false} FoldConcat(vs: Option<seq<Value>>, a: seq<Transform>, b: seq<Transform>)
    ensures Fold(vs, a + b) == Fold(Fold(vs, a), b)
    decreases |a|
  {
    if a == [] {
      assert a + b == b;
    } else {
      assert (a + b)[0] == a[0] && (a + b)[1..] == a[1..] + b;
      FoldConcat(NewValues(vs, a[0]), a[1..], b);
    }
  }

  // ------------------------------------------------------------------------------------------------
  // The request sent upstream

  /** The pairs an iteration over a header map yields for one name, in order. */
  function ValuesOf(pairs: seq<(Name, Value)>, n: Name): seq<Value> {
    if pairs == [] then []
    else
      var last := pairs[|pairs| - 1];
      ValuesOf(pairs[..|pairs| - 1], n) + if last.0 == n then [last.1] else []
  }

  /** An iteration over a header map: names in any order, every name's values in theirs. */
  ghost predicate Iterates(pairs: seq<(Name, Value)>, h: HeaderValues) {
    forall n: Name :: ValuesOf(pairs, n) == if n in h then h[n] else []
  }

  /** Only the last value of each name is copied. */
  function LastValues(h: HeaderValues): HeaderValues {
    map n | n in h && h[n] != [] :: [h[n][|h[n]| - 1]]
  }

  function ForwardedFor(h: HeaderValues, clientIp: Value): Value {
    var existing := FirstReadable(Lookup(h, "x-forwarded-for"));
    if existing.Some? then existing.value + ", " + clientIp else clientIp
  }

  /** The headers of the upstream request, before the configured transforms. */
  function UpstreamHeaders(h: HeaderValues, clientIp: Value, authority: Option<Value>): HeaderValues {
    var copied := LastValues(h)["x-forwarded-for" := [ForwardedFor(h, clientIp)]];
    var hosted := if authority.Some? then copied["host" := [authority.value]] else copied;
    hosted["x-proxy" := ["road7"]]
  }

  /** What each rebuilt header holds: the client's address after those that the original names, the authority of the URI
      as the host, the proxy's mark, and otherwise the last of the original's values. */
  function Rebuilt(h: HeaderValues, clientIp: Value, authority: Option<Value>, n: Name): Option<seq<Value>> {
    if n == "x-proxy" then Some(["road7"])
    else if n == "host" && authority.Some? then Some([authority.value])
    else if n == "x-forwarded-for" then
      if n in h && h[n] != [] && Readable(h[n][0]) then Some([h[n][0] + ", " + clientIp]) else Some([clientIp])
    else if n in h && h[n] != [] then Some([h[n][|h[n]| - 1]])
    else None
  }

  lemma UpstreamHeadersAre(h: HeaderValues, clientIp: Value, authority: Option<Value>, n: Name)
    ensures Lookup(UpstreamHeaders(h, clientIp, authority), n) == Rebuilt(h, clientIp, authority, n)
  {
  }

  /** Rebuilds the headers from the original request, whatever order its header map is iterated in. */
  method RebuildHeaders(original: HeaderValues, pairs: seq<(Name, Value)>, clientIp: Value, authority: Option<Value>)
    returns (rebuilt: HeaderMap)
    requires Iterates(pairs, original)
    ensures fresh(rebuilt)
    ensures rebuilt.values == UpstreamHeaders(original, clientIp, authority)
  {
    rebuilt := CopyHeaders(original, pairs);
    rebuilt.Insert("x-forwarded-for", ForwardedFor(original, clientIp));
    if authority.Some? {
      rebuilt.Insert("host", authority.value);
    }
    rebuilt.Insert("x-proxy", "road7");
  }

  /** Inserting pair after pair keeps the last value of each name. */
  method CopyHeaders(original: HeaderValues, pairs: seq<(Name, Value)>) returns (copy: HeaderMap)
    requires Iterates(pairs, original)
    ensures fresh(copy) && copy.values == LastValues(original)
  {
    copy := new HeaderMap(map[]);
    for i := 0 to |pairs|
      invariant fresh(copy)
      invariant forall n: Name :: Lookup(copy.values, n) == LastOf(ValuesOf(pairs[..i], n))
    {
      assert pairs[..i + 1][..i] == pairs[..i];
      copy.Insert(pairs[i].0, pairs[i].1);
    }
    assert pairs[..|pairs|] == pairs;
    CopiedAll(original, pairs, copy.values);
  }

  lemma CopiedAll(original: HeaderValues, pairs: seq<(Name, Value)>, copied: HeaderValues)
    requires Iterates(pairs, original)
    requires forall n: Name :: Lookup(copied, n) == LastOf(ValuesOf(pairs, n))
    ensures copied == LastValues(original)
  {
    forall n: Name
      ensures Lookup(copied, n) == Lookup(LastValues(original), n)
    {
      assert ValuesOf(pairs, n) == if n in original then original[n] else [];
    }
    SameLookups(copied, LastValues(original));
  }

  function LastOf(vs: seq<Value>): Option<seq<Value>> {
    if vs == [] then None else Some([vs[|vs| - 1]])
  }
}
