/** One action becomes one RPC: `parseAction` and `getResponse`. */
module Actions {
  import opened Wrappers
  import opened StringOps
  import opened Sorting
  import opened Design
  import opened Fields
  import opened MediaTypes

  /** An RPC: the action it comes from, its name, its request fields sorted
      by name, and its response, nil when none was found. */
  datatype RPCDefinition = RPCDefinition(
    action: Action,
    name: string,
    query: seq<Param>,
    response: Option<Response>)

  /** The sort key of `AlphabeticalName`. */
  function ParamName(p: Param): string
  {
    p.name
  }

  /** The fields of an optional object, in its iteration order. */
  function ObjectParams(nm: Naming, o: Option<Object>): seq<Param>
    requires OptionalObjectOk(o)
  {
    if o.None? then []
    else seq(|o.value|, i requires 0 <= i < |o.value| => NewParam(nm, o.value[i].0, o.value[i].1))
  }

  /** The request fields before sorting: path parameters, then query
      parameters, then payload attributes, nothing merged. */
  function RawQuery(nm: Naming, a: Action): seq<Param>
    requires ActionOk(a)
  {
    ObjectParams(nm, a.pathParams) + ObjectParams(nm, a.queryParams) + ObjectParams(nm, a.payload)
  }

  /** A declared response that names a media type with a recorded
      response. */
  predicate Qualifies(rd: ResponseDef, responses: map<string, Response>)
  {
    rd.mediaType != "" && rd.mediaType in responses
  }

  /** The response of the first qualifying declared response, or none. */
  function FirstResponse(rs: seq<ResponseDef>, responses: map<string, Response>): (r: Option<Response>)
    ensures r.None? <==> forall i :: 0 <= i < |rs| ==> !Qualifies(rs[i], responses)
    ensures r.Some? ==>
              exists i :: 0 <= i < |rs| && Qualifies(rs[i], responses)
                          && r.value == responses[rs[i].mediaType]
                          && forall j :: 0 <= j < i ==> !Qualifies(rs[j], responses)
  {
    if rs == [] then None
    else if Qualifies(rs[0], responses) then Some(responses[rs[0].mediaType])
    else
      var r := FirstResponse(rs[1..], responses);
      assert forall i :: 1 <= i < |rs| ==> rs[i] == rs[1..][i - 1];
      r
  }

  /** `getResponse`: scans the declared responses in order and returns the
      first one whose media type has a recorded response. */
  method GetResponse(a: Action, responses: map<string, Response>) returns (r: Option<Response>)
    ensures r == FirstResponse(a.responses, responses)
  {
    var i := 0;
    while i < |a.responses|
      invariant 0 <= i <= |a.responses|
      invariant FirstResponse(a.responses[i..], responses) == FirstResponse(a.responses, responses)
    {
      var resp := a.responses[i];
      if resp.mediaType == "" {
        i := i + 1;
        continue;
      }
      if resp.mediaType !in responses {
        i := i + 1;
        continue;
      }
      return Some(responses[resp.mediaType]);
    }
    return None;
  }

  /** What `parseAction` promises: the RPC's action and name, its request
      fields as a permutation of the raw fields sorted by name, and the first
      matching response. */
  ghost predicate ParsedFrom(nm: Naming, a: Action, responses: map<string, Response>, rpc: RPCDefinition)
  {
    && ActionOk(a)
    && rpc.action == a
    && rpc.name == nm.goify(a.name, true)
    && multiset(rpc.query) == multiset(RawQuery(nm, a))
    && SortedBy(rpc.query, ParamName)
    && rpc.response == FirstResponse(a.responses, responses)
  }

  /** One of the three loops of `parseAction`: append the fields of one
      object. */
  method AppendParams(nm: Naming, query: seq<Param>, o: Object) returns (r: seq<Param>)
    requires ObjectOk(o)
    ensures r == query + ObjectParams(nm, Some(o))
  {
    r := query;
    var i := 0;
    while i < |o|
      invariant 0 <= i <= |o|
      invariant r == query + ObjectParams(nm, Some(o[..i]))
    {
      r := r + [NewParam(nm, o[i].0, o[i].1)];
      i := i + 1;
    }
    assert o[..i] == o;
  }

  /** `parseAction`. It has no error path. */
  method ParseAction(nm: Naming, a: Action, responses: map<string, Response>) returns (rpc: RPCDefinition)
    requires ActionOk(a)
    ensures ParsedFrom(nm, a, responses, rpc)
  {
    var name := nm.goify(a.name, true);
    var query: seq<Param> := [];
    if a.pathParams.Some? {
      query := AppendParams(nm, query, a.pathParams.value);
    }
    ghost var path := ObjectParams(nm, a.pathParams);
    assert query == path;
    if a.queryParams.Some? {
      query := AppendParams(nm, query, a.queryParams.value);
    }
    ghost var pathAndQuery := path + ObjectParams(nm, a.queryParams);
    assert query == pathAndQuery;
    if a.payload.Some? {
      query := AppendParams(nm, query, a.payload.value);
    }
    assert query == pathAndQuery + ObjectParams(nm, a.payload) == RawQuery(nm, a);
    query := SortByName(query);
    var response := GetResponse(a, responses);
    rpc := RPCDefinition(a, name, query, response);
  }

  /** `sort.Sort(AlphabeticalName(query))`: the fields copied into a buffer
      and sorted in place by name. */
  method SortByName(query: seq<Param>) returns (sorted: seq<Param>)
    ensures multiset(sorted) == multiset(query)
    ensures SortedBy(sorted, ParamName)
  {
    var buf := new Param[|query|](i requires 0 <= i < |query| => query[i]);
    assert buf[..] == query;
    SortBy(buf, ParamName);
    sorted := buf[..];
  }

  /** For one iteration order of the parameter maps, `parseAction` has
      exactly one possible result when the raw request fields have distinct
      names: the unstable sort has a single outcome. */
  lemma ParseActionDeterministic(nm: Naming, a: Action, responses: map<string, Response>,
                                 rpc1: RPCDefinition, rpc2: RPCDefinition)
    requires ParsedFrom(nm, a, responses, rpc1) && ParsedFrom(nm, a, responses, rpc2)
    requires DistinctKeys(RawQuery(nm, a), ParamName)
    ensures rpc1 == rpc2
  {
    DistinctKeysPermutation(RawQuery(nm, a), rpc1.query, ParamName);
    SortedPermutationUnique(rpc1.query, rpc2.query, ParamName);
  }

  /** Two optional objects holding the same attributes, possibly
      iterated in different orders. */
  predicate SameAttributes(o1: Option<Object>, o2: Option<Object>)
  {
    o1.None? == o2.None? && (o1.Some? ==> multiset(o1.value) == multiset(o2.value))
  }

  /** The fields of an object, as the image of its attributes under
      `newParam`. */
  function ToParam(nm: Naming): ((string, Attribute)) --> Param
  {
    (p: (string, Attribute)) requires AttributeOk(p.1) => NewParam(nm, p.0, p.1)
  }

  lemma ObjectParamsImage(nm: Naming, o: Object)
    requires ObjectOk(o)
    ensures AllDefined(ToParam(nm), o)
    ensures ObjectParams(nm, Some(o)) == Image(ToParam(nm), o)
  {
  }

  /** `f` is defined on every element of `s`. */
  ghost predicate AllDefined<A, B>(f: A --> B, s: seq<A>)
  {
    forall i :: 0 <= i < |s| ==> f.requires(s[i])
  }

  /** `f` applied to each element of `s`, in order. */
  function Image<A, B>(f: A --> B, s: seq<A>): seq<B>
    requires AllDefined(f, s)
  {
    seq(|s|, i requires 0 <= i < |s| => f(s[i]))
  }

  /** Removing position `j` removes one copy of `s[j]` from the multiset. */
  lemma RemoveAt<T>(s: seq<T>, j: int)
    requires 0 <= j < |s|
    ensures multiset(s) == multiset(s[..j] + s[j + 1..]) + multiset{s[j]}
  {
    assert s == s[..j] + [s[j]] + s[j + 1..];
    assert multiset(s) == multiset(s[..j]) + multiset{s[j]} + multiset(s[j + 1..]);
    assert multiset(s[..j] + s[j + 1..]) == multiset(s[..j]) + multiset(s[j + 1..]);
  }

  /** The image of a sequence with position `j` removed is the image with
      position `j` removed. */
  lemma ImageRemove<A, B>(f: A --> B, s: seq<A>, j: int)
    requires AllDefined(f, s)
    requires 0 <= j < |s|
    ensures AllDefined(f, s[..j] + s[j + 1..])
    ensures Image(f, s[..j] + s[j + 1..]) == Image(f, s)[..j] + Image(f, s)[j + 1..]
  {
    var r := s[..j] + s[j + 1..];
    assert forall i :: 0 <= i < j ==> r[i] == s[i];
    assert forall i :: j <= i < |r| ==> r[i] == s[i + 1];
  }

  /** Permuting a sequence permutes its image. */
  lemma {:induction false} ImagePermutation<A, B>(f: A --> B, a: seq<A>, b: seq<A>)
    requires AllDefined(f, a)
    requires AllDefined(f, b)
    requires multiset(a) == multiset(b)
    ensures multiset(Image(f, a)) == multiset(Image(f, b))
    decreases |a|
  {
    assert |b| == |multiset(b)| == |a|;
    if |a| != 0 {
      var n := |a| - 1;
      var x := a[n];
      assert x in multiset(b);
      var j :| 0 <= j < |b| && b[j] == x;
      var a', b' := a[..n] + a[n + 1..], b[..j] + b[j + 1..];
      RemoveBoth(a, b, n, j);
      ImageRemove(f, a, n);
      ImageRemove(f, b, j);
      ImagePermutation(f, a', b');
      ImagePermutationStep(f, a, b, n, j);
    }
  }

  /** Removing one copy of the same element from two permutations leaves
      permutations. */
  lemma RemoveBoth<T>(a: seq<T>, b: seq<T>, n: int, j: int)
    requires multiset(a) == multiset(b)
    requires 0 <= n < |a| && 0 <= j < |b| && a[n] == b[j]
    ensures multiset(a[..n] + a[n + 1..]) == multiset(b[..j] + b[j + 1..])
  {
    RemoveAt(a, n);
    RemoveAt(b, j);
    assert multiset(a[..n] + a[n + 1..]) == multiset(a) - multiset{a[n]};
  }

  /** Putting one element back on both sides of a permutation of images. */
  lemma ImagePermutationStep<A, B>(f: A --> B, a: seq<A>, b: seq<A>, n: int, j: int)
    requires AllDefined(f, a) && AllDefined(f, b)
    requires 0 <= n < |a| && 0 <= j < |b| && a[n] == b[j]
    requires AllDefined(f, a[..n] + a[n + 1..]) && AllDefined(f, b[..j] + b[j + 1..])
    requires multiset(Image(f, a[..n] + a[n + 1..])) == multiset(Image(f, b[..j] + b[j + 1..]))
    ensures multiset(Image(f, a)) == multiset(Image(f, b))
  {
    ImageRemove(f, a, n);
    ImageRemove(f, b, j);
    RemoveAt(Image(f, a), n);
    RemoveAt(Image(f, b), j);
  }

  /** Iterating an object in another order permutes its fields. */
  lemma ObjectParamsPermutation(nm: Naming, a: Object, b: Object)
    requires ObjectOk(a) && ObjectOk(b) && multiset(a) == multiset(b)
    ensures multiset(ObjectParams(nm, Some(a))) == multiset(ObjectParams(nm, Some(b)))
  {
    ObjectParamsImage(nm, a);
    ObjectParamsImage(nm, b);
    ImagePermutation(ToParam(nm), a, b);
  }



  /** Iterating the path, query and payload objects in other orders
      permutes the raw request fields. */
  lemma RawQueryPermutation(nm: Naming, a1: Action, a2: Action)
    requires ActionOk(a1) && ActionOk(a2)
    requires SameAttributes(a1.pathParams, a2.pathParams)
    requires SameAttributes(a1.queryParams, a2.queryParams)
    requires SameAttributes(a1.payload, a2.payload)
    ensures multiset(RawQuery(nm, a1)) == multiset(RawQuery(nm, a2))
  {
    if a1.pathParams.Some? {
      ObjectParamsPermutation(nm, a1.pathParams.value, a2.pathParams.value);
    }
    if a1.queryParams.Some? {
      ObjectParamsPermutation(nm, a1.queryParams.value, a2.queryParams.value);
    }
    if a1.payload.Some? {
      ObjectParamsPermutation(nm, a1.payload.value, a2.payload.value);
    }
  }

  /** The request fields `parseAction` builds do not depend on the order in
      which the parameter maps are iterated, as long as the field names are
      distinct. */
  lemma QueryOrderIndependent(nm: Naming, a1: Action, a2: Action, responses: map<string, Response>,
                              rpc1: RPCDefinition, rpc2: RPCDefinition)
    requires ParsedFrom(nm, a1, responses, rpc1) && ParsedFrom(nm, a2, responses, rpc2)
    requires SameAttributes(a1.pathParams, a2.pathParams)
    requires SameAttributes(a1.queryParams, a2.queryParams)
    requires SameAttributes(a1.payload, a2.payload)
    requires DistinctKeys(RawQuery(nm, a1), ParamName)
    ensures rpc1.query == rpc2.query
  {
    RawQueryPermutation(nm, a1, a2);
    DistinctKeysPermutation(RawQuery(nm, a1), rpc1.query, ParamName);
    SortedPermutationUnique(rpc1.query, rpc2.query, ParamName);
  }

  /** The request has no field exactly when none of the three sources
      contributes one. */
  lemma EmptyQuery(nm: Naming, a: Action, responses: map<string, Response>, rpc: RPCDefinition)
    requires ParsedFrom(nm, a, responses, rpc)
    ensures |rpc.query| == 0 <==>
              && (a.pathParams.None? || |a.pathParams.value| == 0)
              && (a.queryParams.None? || |a.queryParams.value| == 0)
              && (a.payload.None? || |a.payload.value| == 0)
  {
    assert |rpc.query| == |multiset(rpc.query)| == |multiset(RawQuery(nm, a))| == |RawQuery(nm, a)|;
  }
}
