/** The handler registry: a JavaScript `Map` from pattern string to handler,
    which iterates in insertion order, plus one optional default handler. */
module Registry {
  import opened Wrappers
  import opened Types

  /** One `[pattern, handler]` entry of the map, in iteration order. */
  datatype Entry = Entry(pattern: Pattern, handler: Handler)

  /** A `Map` never holds a key twice. */
  ghost predicate DistinctPatterns(es: seq<Entry>)
  {
    forall i, j :: 0 <= i < j < |es| ==> es[i].pattern != es[j].pattern
  }

  /** `Map.get`. */
  function Get(es: seq<Entry>, p: Pattern): (r: Option<Handler>)
    ensures r.None? <==> (forall i :: 0 <= i < |es| ==> es[i].pattern != p)
    ensures forall i :: 0 <= i < |es| && es[i].pattern == p && (forall j :: 0 <= j < i ==> es[j].pattern != p) ==>
              r == Some(es[i].handler)
  {
    if es == [] then None
    else if es[0].pattern == p then Some(es[0].handler)
    else
      var r := Get(es[1..], p);
      GetSkipsHead(es, p, r);
      r
  }

  /** The step of `Get` past a head entry with another key. */
  lemma GetSkipsHead(es: seq<Entry>, p: Pattern, r: Option<Handler>)
    requires es != [] && es[0].pattern != p
    requires r.None? <==> (forall i :: 0 <= i < |es[1..]| ==> es[1..][i].pattern != p)
    requires forall i :: 0 <= i < |es[1..]| && es[1..][i].pattern == p && (forall j :: 0 <= j < i ==> es[1..][j].pattern != p) ==>
               r == Some(es[1..][i].handler)
    ensures r.None? <==> (forall i :: 0 <= i < |es| ==> es[i].pattern != p)
    ensures forall i :: 0 <= i < |es| && es[i].pattern == p && (forall j :: 0 <= j < i ==> es[j].pattern != p) ==>
              r == Some(es[i].handler)
  {
    assert forall i :: 1 <= i < |es| ==> es[1..][i - 1] == es[i];
  }

  /** `Map.set`: a new key goes last; an existing key keeps its place and
      gets the new handler. */
  function MapSet(es: seq<Entry>, p: Pattern, h: Handler): (r: seq<Entry>)
    requires DistinctPatterns(es)
    ensures DistinctPatterns(r)
    ensures forall i :: 0 <= i < |es| && es[i].pattern == p ==> r == es[i := Entry(p, h)]
    ensures (forall i :: 0 <= i < |es| ==> es[i].pattern != p) ==> r == es + [Entry(p, h)]
  {
    if es == [] then [Entry(p, h)]
    else if es[0].pattern == p then
      assert [Entry(p, h)] + es[1..] == es[0 := Entry(p, h)];
      [Entry(p, h)] + es[1..]
    else
      var rest := MapSet(es[1..], p, h);
      MapSetSkipsHead(es, p, h, rest);
      [es[0]] + rest
  }

  /** The step of `MapSet` past a head entry with another key. */
  lemma MapSetSkipsHead(es: seq<Entry>, p: Pattern, h: Handler, rest: seq<Entry>)
    requires DistinctPatterns(es) && es != [] && es[0].pattern != p
    requires DistinctPatterns(rest)
    requires forall i :: 0 <= i < |es[1..]| && es[1..][i].pattern == p ==> rest == es[1..][i := Entry(p, h)]
    requires (forall i :: 0 <= i < |es[1..]| ==> es[1..][i].pattern != p) ==> rest == es[1..] + [Entry(p, h)]
    ensures DistinctPatterns([es[0]] + rest)
    ensures forall i :: 0 <= i < |es| && es[i].pattern == p ==> [es[0]] + rest == es[i := Entry(p, h)]
    ensures (forall i :: 0 <= i < |es| ==> es[i].pattern != p) ==> [es[0]] + rest == es + [Entry(p, h)]
  {
    assert forall i :: 1 <= i < |es| ==> es[1..][i - 1] == es[i];
    assert forall i :: 1 <= i < |es| && es[i].pattern == p ==>
      [es[0]] + es[1..][i - 1 := Entry(p, h)] == es[i := Entry(p, h)];
    assert [es[0]] + (es[1..] + [Entry(p, h)]) == es + [Entry(p, h)];
  }

  /** The map laws: after `set(p, h)`, `get(p)` is `h` and every other key
      reads as before. */
  lemma {:induction false} GetAfterMapSet(es: seq<Entry>, p: Pattern, h: Handler, q: Pattern)
    requires DistinctPatterns(es)
    ensures Get(MapSet(es, p, h), q) == if q == p then Some(h) else Get(es, q)
  {
    if es != [] && es[0].pattern != p {
      GetAfterMapSet(es[1..], p, h, q);
      assert MapSet(es, p, h) == [es[0]] + MapSet(es[1..], p, h);
      assert ([es[0]] + MapSet(es[1..], p, h))[1..] == MapSet(es[1..], p, h);
    }
  }

  /** Some entry's pattern matches `url`. */
  predicate AnyMatches(es: seq<Entry>, url: Url, matches: (Pattern, Url) -> bool)
  {
    es != [] && (matches(es[0].pattern, url) || AnyMatches(es[1..], url, matches))
  }

  /** `findMatchingHandler`: the handler of the first entry, in insertion
      order, whose pattern matches `url`; `None` (null) when none matches. */
  function MatchingHandler(es: seq<Entry>, url: Url, matches: (Pattern, Url) -> bool): (r: Option<Handler>)
    ensures r.Some? <==> AnyMatches(es, url, matches)
  {
    if es == [] then None
    else if matches(es[0].pattern, url) then Some(es[0].handler)
    else MatchingHandler(es[1..], url, matches)
  }

  /** The handler found is that of the first matching entry, and there is
      none exactly when no entry matches. */
  lemma {:induction false} MatchingHandlerIsFirstMatch(es: seq<Entry>, url: Url, matches: (Pattern, Url) -> bool)
    ensures var r := MatchingHandler(es, url, matches);
            && (r.None? <==> (forall i :: 0 <= i < |es| ==> !matches(es[i].pattern, url)))
            && (forall i :: 0 <= i < |es| && matches(es[i].pattern, url) && (forall j :: 0 <= j < i ==> !matches(es[j].pattern, url)) ==>
                  r == Some(es[i].handler))
  {
    if es != [] && !matches(es[0].pattern, url) {
      MatchingHandlerIsFirstMatch(es[1..], url, matches);
      assert forall i :: 1 <= i < |es| ==> es[1..][i - 1] == es[i];
    }
  }

  /** `findMatchingHandler(url) || defaultRequestHandler`. */
  function Resolve(es: seq<Entry>, default: Option<Handler>, url: Url, matches: (Pattern, Url) -> bool): (r: Option<Handler>)
    ensures r.None? <==> default.None? && !AnyMatches(es, url, matches)
    ensures !AnyMatches(es, url, matches) ==> r == default
  {
    match MatchingHandler(es, url, matches)
    case Some(h) => Some(h)
    case None => default
  }

  /** The handler used is the first matching one when some pattern matches,
      and the default one (possibly none) when no pattern does. */
  lemma ResolveMatchThenDefault(es: seq<Entry>, default: Option<Handler>, url: Url, matches: (Pattern, Url) -> bool)
    ensures (exists i :: 0 <= i < |es| && matches(es[i].pattern, url)) ==>
              Resolve(es, default, url, matches) == MatchingHandler(es, url, matches) != None
    ensures (forall i :: 0 <= i < |es| ==> !matches(es[i].pattern, url)) ==> Resolve(es, default, url, matches) == default
  {
    MatchingHandlerIsFirstMatch(es, url, matches);
  }

  /** Registration order is the tie-break: when two entries both match, the
      earlier one's handler is resolved and the later one's entry never is. */
  lemma {:induction false} EarlierRegistrationWins(es: seq<Entry>, url: Url, matches: (Pattern, Url) -> bool, i: nat, j: nat)
    requires i < j < |es|
    requires matches(es[i].pattern, url) && matches(es[j].pattern, url)
    ensures exists k :: 0 <= k <= i && MatchingHandler(es, url, matches) == Some(es[k].handler)
  {
    if !matches(es[0].pattern, url) {
      EarlierRegistrationWins(es[1..], url, matches, i - 1, j - 1);
      var k :| 0 <= k <= i - 1 && MatchingHandler(es[1..], url, matches) == Some(es[1..][k].handler);
      assert MatchingHandler(es, url, matches) == Some(es[k + 1].handler);
    }
  }
}
