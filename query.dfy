/**
 * The upstream query each route sends to the earthquake catalogue
 * (index.js:41-49, 69). Parameters are kept as raw name/value pairs in the
 * order they are appended; percent-encoding is not part of this model.
 */
module Query {
  import opened Wrappers

  const DefaultLimit := "10"

  /** One query parameter, name and unencoded value. */
  type Param = (string, string)

  /** The list route's query fields, each `None` when absent from the request. */
  datatype Filters = Filters(
    startTime: Option<string>,
    endTime: Option<string>,
    minMagnitude: Option<string>,
    maxMagnitude: Option<string>,
    limit: Option<string>)

  /** JavaScript truthiness of a query field: present and not the empty string. */
  predicate Truthy(v: Option<string>)
  {
    v.Some? && v.value != ""
  }

  /** `if (v) params.append(name, v)` */
  function AppendIf(ps: seq<Param>, name: string, v: Option<string>): seq<Param>
  {
    if Truthy(v) then ps + [(name, v.value)] else ps
  }

  /** The destructuring default `limit = 10` applies only to an absent field. */
  function LimitValue(limit: Option<string>): string
  {
    match limit
    case Some(s) => s
    case None => DefaultLimit
  }

  /** The parameters of the list route's upstream query, in append order. */
  function ListParams(f: Filters): seq<Param>
  {
    var ps := AppendIf([], "starttime", f.startTime);
    var ps := AppendIf(ps, "endtime", f.endTime);
    var ps := AppendIf(ps, "minmagnitude", f.minMagnitude);
    var ps := AppendIf(ps, "maxmagnitude", f.maxMagnitude);
    ps + [("limit", LimitValue(f.limit)), ("format", "geojson")]
  }

  /** The detail route's upstream query string, built by template with the id spliced in verbatim. */
  function DetailQuery(id: string): string
  {
    "eventid=" + id + "&format=geojson"
  }

  // ---------------------------------------------------------------------------
  // Views of a parameter list, used to state what the builders produce.

  /** How many times `name` occurs. */
  function Count(ps: seq<Param>, name: string): nat
  {
    if ps == [] then 0 else (if ps[0].0 == name then 1 else 0) + Count(ps[1..], name)
  }

  /** The first value given for `name`, as `URLSearchParams.get` reads it. */
  function ValueOf(ps: seq<Param>, name: string): Option<string>
  {
    if ps == [] then None
    else if ps[0].0 == name then Some(ps[0].1)
    else ValueOf(ps[1..], name)
  }

  /** Unencoded `name=value` pairs joined by `&`. */
  function Render(ps: seq<Param>): string
  {
    if ps == [] then ""
    else if |ps| == 1 then ps[0].0 + "=" + ps[0].1
    else ps[0].0 + "=" + ps[0].1 + "&" + Render(ps[1..])
  }

  /** Position of a parameter name in the list route's fixed order; 6 for any other name. */
  function Rank(name: string): nat
  {
    if name == "starttime" then 0
    else if name == "endtime" then 1
    else if name == "minmagnitude" then 2
    else if name == "maxmagnitude" then 3
    else if name == "limit" then 4
    else if name == "format" then 5
    else 6
  }

  /** Names strictly follow the fixed order, so none repeats. */
  ghost predicate Ordered(ps: seq<Param>)
  {
    forall i, j :: 0 <= i < j < |ps| ==> Rank(ps[i].0) < Rank(ps[j].0)
  }

  /**
   * Reference view of the list query, independent of the append sequence:
   * the value each name should carry, or `None` when it must be absent.
   */
  function Supplied(f: Filters, name: string): Option<string>
  {
    if name == "starttime" then (if Truthy(f.startTime) then f.startTime else None)
    else if name == "endtime" then (if Truthy(f.endTime) then f.endTime else None)
    else if name == "minmagnitude" then (if Truthy(f.minMagnitude) then f.minMagnitude else None)
    else if name == "maxmagnitude" then (if Truthy(f.maxMagnitude) then f.maxMagnitude else None)
    else if name == "limit" then Some(LimitValue(f.limit))
    else if name == "format" then Some("geojson")
    else None
  }

  // ---------------------------------------------------------------------------
  // Lemmas

  lemma {:induction false} AppendFacts(ps: seq<Param>, x: Param, name: string)
    ensures Count(ps + [x], name) == Count(ps, name) + (if x.0 == name then 1 else 0)
    ensures ValueOf(ps + [x], name) ==
      if ValueOf(ps, name).Some? then ValueOf(ps, name)
      else if x.0 == name then Some(x.1) else None
  {
    if ps == [] {
      assert [] + [x] == [x];
    } else {
      assert (ps + [x])[1..] == ps[1..] + [x];
      AppendFacts(ps[1..], x, name);
    }
  }

  lemma AppendIfFacts(ps: seq<Param>, n: string, v: Option<string>, name: string)
    ensures Count(AppendIf(ps, n, v), name) == Count(ps, name) + (if Truthy(v) && n == name then 1 else 0)
    ensures ValueOf(AppendIf(ps, n, v), name) ==
      if ValueOf(ps, name).Some? then ValueOf(ps, name)
      else if Truthy(v) && n == name then v else None
  {
    if Truthy(v) {
      AppendFacts(ps, (n, v.value), name);
    }
  }

  /**
   * Each name of the list query occurs exactly once with its supplied value
   * when `Supplied` gives one, and not at all otherwise: the four filters
   * only when truthy, `limit` always (defaulting to "10" when absent),
   * `format=geojson` always.
   */
  lemma ListParamsMatchSupplied(f: Filters, name: string)
    ensures Count(ListParams(f), name) == (if Supplied(f, name).Some? then 1 else 0)
    ensures ValueOf(ListParams(f), name) == Supplied(f, name)
  {
    var p0 := AppendIf([], "starttime", f.startTime);
    var p1 := AppendIf(p0, "endtime", f.endTime);
    var p2 := AppendIf(p1, "minmagnitude", f.minMagnitude);
    var p3 := AppendIf(p2, "maxmagnitude", f.maxMagnitude);
    AppendIfFacts([], "starttime", f.startTime, name);
    AppendIfFacts(p0, "endtime", f.endTime, name);
    AppendIfFacts(p1, "minmagnitude", f.minMagnitude, name);
    AppendIfFacts(p2, "maxmagnitude", f.maxMagnitude, name);
    var lim := ("limit", LimitValue(f.limit));
    AppendFacts(p3, lim, name);
    AppendFacts(p3 + [lim], ("format", "geojson"), name);
    assert ListParams(f) == p3 + [lim] + [("format", "geojson")];
  }

  /**
   * The list query's names appear in the fixed order starttime, endtime,
   * minmagnitude, maxmagnitude, limit, format, and it ends with exactly
   * `limit` then `format=geojson`.
   */
  lemma ListParamsOrdered(f: Filters)
    ensures Ordered(ListParams(f))
    ensures forall i :: 0 <= i < |ListParams(f)| ==> Rank(ListParams(f)[i].0) < 6
    ensures |ListParams(f)| >= 2
    ensures ListParams(f)[|ListParams(f)| - 2..] == [("limit", LimitValue(f.limit)), ("format", "geojson")]
  {
  }

  /** The list query has the two fixed parameters plus one per truthy filter. */
  lemma ListParamsLength(f: Filters)
    ensures |ListParams(f)| == 2 + (if Truthy(f.startTime) then 1 else 0) + (if Truthy(f.endTime) then 1 else 0)
                               + (if Truthy(f.minMagnitude) then 1 else 0) + (if Truthy(f.maxMagnitude) then 1 else 0)
  {
  }

  /** The detail query is the eventid and format pairs rendered without encoding. */
  lemma DetailQueryRendered(id: string)
    ensures DetailQuery(id) == Render([("eventid", id), ("format", "geojson")])
  {
  }

  /** Reads the event id back out of a detail query string. */
  function EventIdOf(q: string): Option<string>
  {
    var pre, suf := "eventid=", "&format=geojson";
    if |q| >= |pre| + |suf| && q[..|pre|] == pre && q[|q| - |suf|..] == suf
    then Some(q[|pre|..|q| - |suf|])
    else None
  }

  /** The detail query carries the id unchanged: reading it back gives the id. */
  lemma DetailQueryRoundTrip(id: string)
    ensures EventIdOf(DetailQuery(id)) == Some(id)
  {
  }

  /**
   * The id is not encoded: an id holding `&` adds its own parameters to the
   * upstream query, here a `limit` between `eventid` and `format`.
   */
  lemma DetailQueryInjects()
    ensures DetailQuery("x&limit=1") == Render([("eventid", "x"), ("limit", "1"), ("format", "geojson")])
  {
  }

  /** Distinct ids give distinct upstream queries. */
  lemma DetailQueryInjective(a: string, b: string)
    ensures DetailQuery(a) == DetailQuery(b) <==> a == b
  {
    DetailQueryRoundTrip(a);
    DetailQueryRoundTrip(b);
  }
}
