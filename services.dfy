/** Resources become services: `getResources`, `getActions` and
    `parseResources`. */
module Services {
  import opened Wrappers
  import opened StringOps
  import opened Sorting
  import opened Design
  import opened Fields
  import opened MediaTypes
  import opened Actions

  /** A service: the resource's name, the resource, and one RPC per action
      in the resource's action order. */
  datatype ServiceDefinition = ServiceDefinition(
    name: string,
    resource: Resource,
    rpcs: seq<RPCDefinition>)

  /** The map `getResources` builds: each resource filed under its name,
      a later resource replacing an earlier one of the same name. */
  function ResourceMap(rs: seq<Resource>): (m: map<string, Resource>)
    ensures forall n :: n in m ==> m[n].name == n && m[n] in rs
  {
    if rs == [] then map[]
    else ResourceMap(rs[..|rs| - 1])[rs[|rs| - 1].name := rs[|rs| - 1]]
  }

  /** Every action attribute of a resource `getResources` keeps can be
      converted; a resource replaced by a later one of the same name is
      never parsed, so nothing is required of it. */
  ghost predicate KeptResourcesOk(api: API)
  {
    var m := ResourceMap(api.resources);
    forall n :: n in m ==> ResourceOk(m[n])
  }

  /** The resource names are exactly the names of the given resources. */
  lemma {:induction false} ResourceMapKeys(rs: seq<Resource>)
    ensures ResourceMap(rs).Keys == set i | 0 <= i < |rs| :: rs[i].name
  {
    if rs != [] {
      var init := rs[..|rs| - 1];
      ResourceMapKeys(init);
      assert forall i :: 0 <= i < |init| ==> init[i] == rs[i];
      assert (set i | 0 <= i < |rs| :: rs[i].name) ==
             (set i | 0 <= i < |init| :: init[i].name) + {rs[|rs| - 1].name};
    }
  }

  /** The resource kept for a name is the last one carrying it. */
  lemma {:induction false} LastResourceWins(rs: seq<Resource>, i: nat)
    requires i < |rs| && forall j :: i < j < |rs| ==> rs[j].name != rs[i].name
    ensures rs[i].name in ResourceMap(rs) && ResourceMap(rs)[rs[i].name] == rs[i]
  {
    if i < |rs| - 1 {
      var init := rs[..|rs| - 1];
      assert forall j :: 0 <= j < |init| ==> init[j] == rs[j];
      LastResourceWins(init, i);
    }
  }

  /** `getResources`. */
  method GetResources(api: API) returns (m: map<string, Resource>)
    ensures m == ResourceMap(api.resources)
  {
    m := map[];
    var i := 0;
    while i < |api.resources|
      invariant 0 <= i <= |api.resources|
      invariant m == ResourceMap(api.resources[..i])
    {
      assert api.resources[..i + 1][..i] == api.resources[..i];
      m := m[api.resources[i].name := api.resources[i]];
      i := i + 1;
    }
    assert api.resources[..i] == api.resources;
  }

  /** `getActions`: the actions in the order goa iterates them. */
  method GetActions(r: Resource) returns (actions: seq<Action>)
    ensures actions == r.actions
  {
    actions := [];
    var i := 0;
    while i < |r.actions|
      invariant 0 <= i <= |r.actions|
      invariant actions == r.actions[..i]
    {
      actions := actions + [r.actions[i]];
      i := i + 1;
    }
  }

  /** Strictly ascending in Go's string order. */
  ghost predicate StrictlyAscending(names: seq<string>)
  {
    forall i, j :: 0 <= i < j < |names| ==> Less(names[i], names[j])
  }

  function Identity(s: string): string
  {
    s
  }

  /** The elements of a sequence of names. */
  function Elements(s: seq<string>): set<string>
  {
    set n | n in s
  }

  /** A sequence with the multiset of a set repeats no element. */
  lemma SetMultisetDistinct(s: seq<string>, names: set<string>)
    requires multiset(s) == multiset(names)
    ensures DistinctKeys(s, Identity)
  {
    forall i, j | 0 <= i < j < |s| && s[i] == s[j]
      ensures false
    {
      TwoPositionsCount(s, i, j);
    }
  }

  /** Sorted, with the multiset of a set: strictly ascending, listing
      exactly that set. */
  lemma SortedSetAscending(s: seq<string>, names: set<string>)
    requires SortedBy(s, Identity) && multiset(s) == multiset(names)
    ensures StrictlyAscending(s) && Elements(s) == names
  {
    SetMultisetDistinct(s, names);
    forall i, j | 0 <= i < j < |s|
      ensures Less(s[i], s[j])
    {
      LessTotal(s[i], s[j]);
    }
    forall n | n in names
      ensures n in s
    {
      assert n in multiset(s);
    }
    forall n | n in s
      ensures n in names
    {
      assert n in multiset(s);
    }
  }

  /** Ranging over a map's keys, in an order Go leaves open (hence the
      arbitrary choice), collecting them. */
  method CollectKeys(m: map<string, Resource>) returns (keys: seq<string>)
    ensures multiset(keys) == multiset(m.Keys)
  {
    keys := [];
    var rest := m.Keys;
    while rest != {}
      invariant rest <= m.Keys
      invariant multiset(keys) + multiset(rest) == multiset(m.Keys)
      decreases |rest|
    {
      var n :| n in rest;
      keys := keys + [n];
      assert multiset(rest) == multiset(rest - {n}) + multiset{n};
      rest := rest - {n};
    }
  }

  /** `sort.Strings`. */
  method SortStrings(names: seq<string>) returns (sorted: seq<string>)
    ensures multiset(sorted) == multiset(names)
    ensures SortedBy(sorted, Identity)
  {
    var buf := new string[|names|](i requires 0 <= i < |names| => names[i]);
    assert buf[..] == names;
    SortBy(buf, Identity);
    sorted := buf[..];
  }

  /** The resource names `parseResources` visits: each key of the map once,
      strictly ascending. */
  method SortedKeys(m: map<string, Resource>) returns (keys: seq<string>)
    ensures StrictlyAscending(keys)
    ensures Elements(keys) == m.Keys
  {
    keys := CollectKeys(m);
    keys := SortStrings(keys);
    SortedSetAscending(keys, m.Keys);
  }

  /** The RPCs of one service: one per action, in action order. */
  ghost predicate RpcsFrom(nm: Naming, actions: seq<Action>, responses: map<string, Response>,
                           rpcs: seq<RPCDefinition>)
  {
    && |rpcs| == |actions|
    && forall j :: 0 <= j < |rpcs| ==> ParsedFrom(nm, actions[j], responses, rpcs[j])
  }

  /** One service of `parseResources`: named `name`, built from the
      resource kept for that name. */
  ghost predicate ServiceFrom(nm: Naming, resources: map<string, Resource>,
                              responses: map<string, Response>, s: ServiceDefinition)
  {
    && s.name in resources
    && s.resource == resources[s.name]
    && RpcsFrom(nm, s.resource.actions, responses, s.rpcs)
  }

  /** The names of the services, in order. */
  function Names(svcs: seq<ServiceDefinition>): seq<string>
  {
    seq(|svcs|, i requires 0 <= i < |svcs| => svcs[i].name)
  }

  /** What `parseResources` promises on success: one service per distinct
      resource name, strictly ascending by name, each built from the
      resource kept for that name, with one RPC per action in action order. */
  ghost predicate ServicesFrom(nm: Naming, api: API, responses: map<string, Response>,
                               svcs: seq<ServiceDefinition>)
  {
    var resources := ResourceMap(api.resources);
    && StrictlyAscending(Names(svcs))
    && Elements(Names(svcs)) == resources.Keys
    && forall i :: 0 <= i < |svcs| ==> ServiceFrom(nm, resources, responses, svcs[i])
  }

  /** The loop over one resource's actions in `parseResources`. */
  method ParseActions(nm: Naming, actions: seq<Action>, responses: map<string, Response>)
    returns (rpcs: seq<RPCDefinition>)
    requires forall j :: 0 <= j < |actions| ==> ActionOk(actions[j])
    ensures RpcsFrom(nm, actions, responses, rpcs)
  {
    rpcs := [];
    var j := 0;
    while j < |actions|
      invariant 0 <= j <= |actions|
      invariant RpcsFrom(nm, actions[..j], responses, rpcs)
    {
      var rpc := ParseAction(nm, actions[j], responses);
      RpcsFromAppend(nm, actions[..j], actions[j], responses, rpcs, rpc);
      assert actions[..j + 1] == actions[..j] + [actions[j]];
      rpcs := rpcs + [rpc];
      j := j + 1;
    }
    assert actions[..j] == actions;
  }

  lemma RpcsFromAppend(nm: Naming, actions: seq<Action>, a: Action, responses: map<string, Response>,
                       rpcs: seq<RPCDefinition>, rpc: RPCDefinition)
    requires RpcsFrom(nm, actions, responses, rpcs) && ParsedFrom(nm, a, responses, rpc)
    ensures RpcsFrom(nm, actions + [a], responses, rpcs + [rpc])
  {
    forall t | 0 <= t < |rpcs| + 1
      ensures ParsedFrom(nm, (actions + [a])[t], responses, (rpcs + [rpc])[t])
    {
      if t < |rpcs| {
        assert (actions + [a])[t] == actions[t] && (rpcs + [rpc])[t] == rpcs[t];
      }
    }
  }

  /** `parseResources`: a media-type error is returned with an empty list;
      otherwise the services as `ServicesFrom` describes them. */
  method ParseResources(nm: Naming, api: API) returns (svcs: seq<ServiceDefinition>, err: Option<string>)
    requires AllMediaTypesOk(api.mediaTypes)
    requires MediaTypesFold(nm, api.mediaTypes).1.None? ==> KeptResourcesOk(api)
    ensures err == MediaTypesFold(nm, api.mediaTypes).1
    ensures err.Some? ==> svcs == []
    ensures err.None? ==> ServicesFrom(nm, api, MediaTypesFold(nm, api.mediaTypes).0, svcs)
  {
    svcs := [];
    var resources := GetResources(api);
    var responses;
    responses, err := ParseMediaTypes(nm, api);
    if err.Some? {
      return;
    }
    var keys := SortedKeys(resources);
    var i := 0;
    while i < |keys|
      invariant 0 <= i <= |keys|
      invariant |svcs| == i
      invariant forall k :: 0 <= k < i ==> svcs[k].name == keys[k]
      invariant forall k :: 0 <= k < |svcs| ==> ServiceFrom(nm, resources, responses, svcs[k])
    {
      var n := keys[i];
      var r := resources[n];
      assert ResourceOk(r);
      var actions := GetActions(r);
      var rpcs := ParseActions(nm, actions, responses);
      svcs := svcs + [ServiceDefinition(r.name, r, rpcs)];
      i := i + 1;
    }
    assert Names(svcs) == keys;
  }

  /** Two results of `parseResources` on one API list the same services in
      the same order. */
  lemma ServiceNamesDeterministic(nm: Naming, api: API, responses: map<string, Response>,
                                  svcs1: seq<ServiceDefinition>, svcs2: seq<ServiceDefinition>)
    requires ServicesFrom(nm, api, responses, svcs1) && ServicesFrom(nm, api, responses, svcs2)
    ensures |svcs1| == |svcs2|
    ensures forall i :: 0 <= i < |svcs1| ==> svcs1[i].name == svcs2[i].name && svcs1[i].resource == svcs2[i].resource
  {
    var names1, names2 := Names(svcs1), Names(svcs2);
    AscendingSetUnique(names1, names2);
    assert |svcs1| == |names1| == |names2| == |svcs2|;
    var resources := ResourceMap(api.resources);
    forall i | 0 <= i < |svcs1|
      ensures svcs1[i].name == svcs2[i].name && svcs1[i].resource == svcs2[i].resource
    {
      assert names1[i] == svcs1[i].name && names2[i] == svcs2[i].name;
      assert ServiceFrom(nm, resources, responses, svcs1[i]);
      assert ServiceFrom(nm, resources, responses, svcs2[i]);
    }
  }

  /** A strictly ascending sequence is determined by its set of elements. */
  lemma AscendingSetUnique(a: seq<string>, b: seq<string>)
    requires StrictlyAscending(a) && StrictlyAscending(b)
    requires Elements(a) == Elements(b)
    ensures a == b
  {
    AscendingMultiset(a);
    AscendingMultiset(b);
    forall i, j | 0 <= i < j < |a|
      ensures AtMost(Identity(a[i]), Identity(a[j])) && Identity(a[i]) != Identity(a[j])
    {
      LessAsymmetric(a[i], a[j]);
      LessIrreflexive(a[i]);
    }
    forall i, j | 0 <= i < j < |b|
      ensures AtMost(Identity(b[i]), Identity(b[j]))
    {
      LessAsymmetric(b[i], b[j]);
    }
    SortedPermutationUnique(a, b, Identity);
  }

  /** A strictly ascending sequence has the multiset of its set. */
  lemma {:induction false} AscendingMultiset(a: seq<string>)
    requires StrictlyAscending(a)
    ensures multiset(a) == multiset(Elements(a))
  {
    if a != [] {
      var init := a[..|a| - 1];
      var last := a[|a| - 1];
      assert StrictlyAscending(init);
      AscendingMultiset(init);
      assert a == init + [last];
      forall i | 0 <= i < |init|
        ensures init[i] != last
      {
        LessIrreflexive(last);
      }
      assert Elements(a) == Elements(init) + {last};
      assert last !in Elements(init);
    }
  }
}
