/** `_buildURI`: appends the present parameters of a record to the query
    of a base URL. Parsing and serialising the URL (and the percent-encoding
    that goes with it) are not modelled: a URL is its part before the query
    and its query as a sequence of decoded key/value pairs. */
module UriBuilder {

  import opened Strings

  /** A parameter value as the builder meets it at run time. */
  datatype ParamValue = Undefined | Null | Str(s: string) | Num(n: int)

  type Param = (string, ParamValue)
  type QueryPair = (string, string)

  datatype Url = Url(path: string, query: seq<QueryPair>)

  /** The builder skips `null`, `undefined` and the empty string, and
      nothing else: numbers, 0 included, are kept. */
  predicate Skipped(v: ParamValue) {
    v.Undefined? || v.Null? || v == Str("")
  }

  /** A string is passed on as it is, anything else through `String(value)`. */
  function Stringify(v: ParamValue): (s: string)
    ensures v.Str? ==> s == v.s
    ensures v.Num? ==> ParseInt(s) == v.n
  {
    match v
    case Str(x) => x
    case Num(n) => IntToDecimalParses(n); IntToDecimal(n)
    case Null => "null"
    case Undefined => "undefined"
  }

  /** The pair appended for one parameter (none when it is skipped). */
  function PairFor(p: Param): (pairs: seq<QueryPair>)
    ensures |pairs| <= 1
  {
    if Skipped(p.1) then [] else [(p.0, Stringify(p.1))]
  }

  /** The pairs the loop appends, parameter by parameter in key order. */
  function Appended(params: seq<Param>): (pairs: seq<QueryPair>)
    ensures |pairs| <= |params|
  {
    if params == [] then []
    else Appended(params[..|params| - 1]) + PairFor(params[|params| - 1])
  }

  /** The positions of the parameters that are not skipped: each such
      position once, in increasing order, and no other. */
  function KeptIndices(params: seq<Param>): (ks: seq<nat>)
    ensures forall k :: 0 <= k < |ks| ==> ks[k] < |params|
    ensures forall k, l :: 0 <= k < l < |ks| ==> ks[k] < ks[l]
    ensures forall i :: 0 <= i < |params| ==> (i in ks <==> !Skipped(params[i].1))
  {
    if params == [] then []
    else
      var n := |params| - 1;
      KeptIndices(params[..n]) + (if Skipped(params[n].1) then [] else [n])
  }

  /** The appended pairs are exactly the kept parameters, in order, each
      once, with its key and its stringified value. */
  lemma {:induction false} AppendedIsKept(params: seq<Param>)
    ensures |Appended(params)| == |KeptIndices(params)|
    ensures forall k :: 0 <= k < |Appended(params)| ==>
              Appended(params)[k] == (params[KeptIndices(params)[k]].0, Stringify(params[KeptIndices(params)[k]].1))
  {
    if params != [] {
      var n := |params| - 1;
      AppendedIsKept(params[..n]);
      forall k | 0 <= k < |KeptIndices(params[..n])|
        ensures KeptIndices(params)[k] == KeptIndices(params[..n])[k]
        ensures params[KeptIndices(params)[k]] == params[..n][KeptIndices(params[..n])[k]]
      {
      }
    }
  }

  /** Building over a concatenation appends the pairs of both halves. */
  lemma {:induction false} AppendedConcat(a: seq<Param>, b: seq<Param>)
    ensures Appended(a + b) == Appended(a) + Appended(b)
  {
    if b == [] {
      assert a + b == a;
    } else {
      var n := |b| - 1;
      assert (a + b)[..|a + b| - 1] == a + b[..n];
      assert (a + b)[|a + b| - 1] == b[n];
      AppendedConcat(a, b[..n]);
    }
  }

  lemma AppendedOne(p: Param)
    ensures Appended([p]) == PairFor(p)
  {
    assert [p][..0] == [];
  }

  /** The builder treats each parameter on its own: for a record of three or
      four keys the result is the pairs of each key, one after the other. */
  lemma AppendedThree(p1: Param, p2: Param, p3: Param)
    ensures Appended([p1, p2, p3]) == PairFor(p1) + PairFor(p2) + PairFor(p3)
  {
    assert [p1, p2, p3] == [p1] + [p2] + [p3];
    AppendedConcat([p1] + [p2], [p3]);
    AppendedConcat([p1], [p2]);
    AppendedOne(p1);
    AppendedOne(p2);
    AppendedOne(p3);
  }

  lemma AppendedFour(p1: Param, p2: Param, p3: Param, p4: Param)
    ensures Appended([p1, p2, p3, p4]) == PairFor(p1) + PairFor(p2) + PairFor(p3) + PairFor(p4)
  {
    assert [p1, p2, p3, p4] == [p1, p2, p3] + [p4];
    AppendedConcat([p1, p2, p3], [p4]);
    AppendedThree(p1, p2, p3);
    AppendedOne(p4);
  }

  /** `_buildURI(url, params)`: the base URL's pairs stay first and
      unchanged; each kept parameter is appended after them. */
  method BuildUri(url: Url, params: seq<Param>) returns (r: Url)
    ensures r.path == url.path
    ensures r.query == url.query + Appended(params)
  {
    var search := url.query;
    var i := 0;
    while i < |params|
      invariant 0 <= i <= |params|
      invariant search == url.query + Appended(params[..i])
    {
      var (key, value) := params[i];
      assert params[..i + 1][..i] == params[..i];
      assert Appended(params[..i + 1]) == Appended(params[..i]) + PairFor(params[i]);
      if !Skipped(value) {
        search := search + [(key, Stringify(value))];
      }
      i := i + 1;
    }
    assert params[..i] == params;
    r := Url(url.path, search);
  }

  /** Appending never replaces: a key already in the base query and also
      given as a kept parameter occurs twice in the result. */
  lemma AppendNotReplace(url: Url, params: seq<Param>, a: nat, b: nat)
    requires a < |url.query| && b < |params|
    requires url.query[a].0 == params[b].0 && !Skipped(params[b].1)
    ensures exists i, j :: 0 <= i < j < |url.query + Appended(params)| &&
              (url.query + Appended(params))[i].0 == params[b].0 &&
              (url.query + Appended(params))[j].0 == params[b].0
  {
    AppendedIsKept(params);
    var ks := KeptIndices(params);
    assert b in ks;
    var k :| 0 <= k < |ks| && ks[k] == b;
    var q := url.query + Appended(params);
    assert q[a].0 == params[b].0;
    assert q[|url.query| + k].0 == params[b].0;
  }
}
