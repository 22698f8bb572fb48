/** The responses the generator derives from the API's media types:
    `toIdentifierName` and `parseMediaTypes`. */
module MediaTypes {
  import opened Wrappers
  import opened StringOps
  import opened Design
  import opened Fields

  /** A response message: the media type identifier it was built from, its
      message name, whether it is a collection (streamed), and its fields
      in view order. */
  datatype Response = Response(
    identifier: string,
    identifierName: string,
    stream: bool,
    params: seq<Param>)

  const CollectionSuffix := "; type=collection"
  const VendorPrefix := "application/vnd."
  const CollectionMarker := "type=collection"

  /** `toIdentifierName`: the canonical identifier with the first collection
      suffix and then the first vendor prefix removed, goified; and whether
      the canonical identifier mentions "type=collection". */
  function ToIdentifierName(nm: Naming, identifier: string): (r: (string, bool))
    ensures r.1 <==> exists k :: OccursAt(nm.canonicalIdentifier(identifier), CollectionMarker, k)
  {
    var canonical := nm.canonicalIdentifier(identifier);
    var stripped := ReplaceFirst(ReplaceFirst(canonical, CollectionSuffix, ""), VendorPrefix, "");
    (nm.goify(stripped, true), Contains(canonical, CollectionMarker))
  }

  /** An occurrence of `sub` in `s` puts each character of `sub` in `s`. */
  lemma OccurrenceChar(s: string, sub: string, k: int, j: int)
    requires OccursAt(s, sub, k) && 0 <= j < |sub|
    ensures s[k + j] == sub[j]
  {
    assert s[k..k + |sub|][j] == s[k + j];
  }

  /** A string lacking one of `sub`'s characters does not contain `sub`. */
  lemma NoOccurrenceWithout(s: string, sub: string, j: int)
    requires 0 <= j < |sub| && sub[j] !in s
    ensures forall k :: !OccursAt(s, sub, k)
  {
    forall k | OccursAt(s, sub, k)
      ensures false
    {
      OccurrenceChar(s, sub, k, j);
    }
  }

  /** Removing the vendor prefix from the front of `VendorPrefix + rest`
      leaves `rest`. */
  lemma StripLeadingPrefix(rest: string)
    ensures ReplaceFirst(VendorPrefix + rest, VendorPrefix, "") == rest
  {
    var s := VendorPrefix + rest;
    assert s[0..|VendorPrefix|] == VendorPrefix;
    assert OccursAt(s, VendorPrefix, 0);
    assert s[|VendorPrefix|..] == rest;
  }

  /** In `VendorPrefix + base + CollectionSuffix`, with no ';' in `base`,
      the first collection suffix is the trailing one. */
  lemma TrailingSuffixIsFirst(base: string)
    requires ';' !in base
    ensures Index(VendorPrefix + base + CollectionSuffix, CollectionSuffix) == |VendorPrefix| + |base|
  {
    var s := VendorPrefix + base + CollectionSuffix;
    var at := |VendorPrefix| + |base|;
    assert ';' !in VendorPrefix;
    assert s[at..at + |CollectionSuffix|] == CollectionSuffix;
    assert OccursAt(s, CollectionSuffix, at);
    forall k | 0 <= k < at
      ensures s[k] != ';'
    {
      if k < |VendorPrefix| {
        assert s[k] == VendorPrefix[k];
      } else {
        assert s[k] == base[k - |VendorPrefix|];
      }
    }
    forall k | 0 <= k < at && OccursAt(s, CollectionSuffix, k)
      ensures false
    {
      OccurrenceChar(s, CollectionSuffix, k, 0);
    }
  }

  /** Removing the first collection suffix of
      `VendorPrefix + base + CollectionSuffix` removes the trailing one. */
  lemma StripTrailingSuffix(base: string)
    requires ';' !in base
    ensures ReplaceFirst(VendorPrefix + base + CollectionSuffix, CollectionSuffix, "") == VendorPrefix + base
  {
    var s := VendorPrefix + base + CollectionSuffix;
    var at := |VendorPrefix| + |base|;
    TrailingSuffixIsFirst(base);
    assert s[..at] == VendorPrefix + base;
    assert s[at + |CollectionSuffix|..] == "";
  }

  /** A collection identifier `application/vnd.<base>; type=collection`
      (after canonicalisation) is a stream named by `base`. */
  lemma CollectionIdentifierName(nm: Naming, identifier: string, base: string)
    requires nm.canonicalIdentifier(identifier) == VendorPrefix + base + CollectionSuffix
    requires ';' !in base
    ensures ToIdentifierName(nm, identifier) == (nm.goify(base, true), true)
  {
    var c := nm.canonicalIdentifier(identifier);
    StripTrailingSuffix(base);
    StripLeadingPrefix(base);
    SuffixHasMarker(VendorPrefix + base);
    assert ReplaceFirst(ReplaceFirst(c, CollectionSuffix, ""), VendorPrefix, "") == base;
    assert Contains(c, CollectionMarker);
  }

  /** A string ending in the collection suffix mentions the marker. */
  lemma SuffixHasMarker(head: string)
    ensures Contains(head + CollectionSuffix, CollectionMarker)
  {
    var s := head + CollectionSuffix;
    assert s[|head| + 2..|head| + 2 + |CollectionMarker|] == CollectionMarker;
    assert OccursAt(s, CollectionMarker, |head| + 2);
  }

  /** A single identifier `application/vnd.<base>` (after
      canonicalisation) is not a stream and is named by `base`. */
  lemma {:induction false} SingleIdentifierName(nm: Naming, identifier: string, base: string)
    requires nm.canonicalIdentifier(identifier) == VendorPrefix + base
    requires ';' !in base && '=' !in base
    ensures ToIdentifierName(nm, identifier) == (nm.goify(base, true), false)
  {
    var s := VendorPrefix + base;
    assert ';' !in VendorPrefix && '=' !in VendorPrefix;
    assert ';' !in s && '=' !in s;
    assert CollectionSuffix[0] == ';' && CollectionMarker[4] == '=';
    NoOccurrenceWithout(s, CollectionSuffix, 0);
    NoOccurrenceWithout(s, CollectionMarker, 4);
    assert ReplaceFirst(s, CollectionSuffix, "") == s;
    StripLeadingPrefix(base);
  }

  /** An identifier with neither affix is goified as it stands. */
  lemma UnaffixedIdentifierName(nm: Naming, identifier: string)
    requires forall k :: !OccursAt(nm.canonicalIdentifier(identifier), CollectionSuffix, k)
    requires forall k :: !OccursAt(nm.canonicalIdentifier(identifier), VendorPrefix, k)
    ensures ToIdentifierName(nm, identifier).0 == nm.goify(nm.canonicalIdentifier(identifier), true)
  {
  }

  /** The fields of a view, in the object's iteration order. */
  function ViewParams(nm: Naming, o: Object): seq<Param>
    requires ObjectOk(o)
  {
    seq(|o|, i requires 0 <= i < |o| => MediaTypeParam(nm, o[i].0, o[i].1))
  }

  /** The response recorded for view `v` of media type `mt`. */
  function ViewResponse(nm: Naming, mt: MediaType, v: View): Response
    requires ObjectOk(v.attributes)
  {
    var (name, stream) := ToIdentifierName(nm, mt.identifier);
    Response(mt.identifier, name, stream, ViewParams(nm, v.attributes))
  }

  /** Visiting the views of `mt` in order: each one overwrites the entry of
      the identifier, so the last one stays. */
  function VisitViews(nm: Naming, m: map<string, Response>, mt: MediaType, n: nat): map<string, Response>
    requires ViewsOk(mt) && n <= |mt.views|
  {
    if n == 0 then m else m[mt.identifier := ViewResponse(nm, mt, mt.views[n - 1])]
  }

  /** Visiting one media type: error media types are skipped; otherwise its
      views are recorded and the traversal's error, if any, is reported. */
  function VisitMediaType(nm: Naming, m: map<string, Response>, mt: MediaType): (map<string, Response>, Option<string>)
    requires MediaTypeOk(mt)
  {
    if mt.isError then (m, None) else (VisitViews(nm, m, mt, |mt.views|), mt.viewError)
  }

  ghost predicate AllMediaTypesOk(mts: seq<MediaType>)
  {
    forall i :: 0 <= i < |mts| ==> MediaTypeOk(mts[i])
  }

  /** The map `parseMediaTypes` has built after visiting `mts`, and the
      error that stopped it, if any. */
  function MediaTypesFold(nm: Naming, mts: seq<MediaType>): (map<string, Response>, Option<string>)
    requires AllMediaTypesOk(mts)
  {
    if mts == [] then (map[], None)
    else
      var prev := MediaTypesFold(nm, mts[..|mts| - 1]);
      if prev.1.Some? then prev else VisitMediaType(nm, prev.0, mts[|mts| - 1])
  }

  /** Once an error is reported the rest of the media types are not
      visited. */
  lemma {:induction false} FoldStopsAtError(nm: Naming, mts: seq<MediaType>, i: nat)
    requires AllMediaTypesOk(mts) && i <= |mts|
    requires MediaTypesFold(nm, mts[..i]).1.Some?
    ensures MediaTypesFold(nm, mts) == MediaTypesFold(nm, mts[..i])
    decreases |mts| - i
  {
    if i < |mts| {
      assert mts[..i + 1][..i] == mts[..i];
      FoldStopsAtError(nm, mts, i + 1);
    } else {
      assert mts[..i] == mts;
    }
  }

  /** `parseMediaTypes`: one response per identifier of a non-error media
      type, stopping at the first traversal error. */
  method ParseMediaTypes(nm: Naming, api: API) returns (m: map<string, Response>, err: Option<string>)
    requires AllMediaTypesOk(api.mediaTypes)
    ensures (m, err) == MediaTypesFold(nm, api.mediaTypes)
  {
    var mts := api.mediaTypes;
    m, err := map[], None;
    var i := 0;
    while i < |mts| && err.None?
      invariant 0 <= i <= |mts|
      invariant (m, err) == MediaTypesFold(nm, mts[..i])
    {
      var mt := mts[i];
      assert mts[..i + 1][..i] == mts[..i] && mts[..i + 1][i] == mt;
      assert MediaTypesFold(nm, mts[..i + 1]) == VisitMediaType(nm, m, mt);
      if !mt.isError {
        m := RecordViews(nm, m, mt);
        if mt.viewError.Some? {
          err := mt.viewError;
        }
      }
      i := i + 1;
    }
    if err.Some? {
      FoldStopsAtError(nm, mts, i);
    }
    assert mts[..i] == mts || err.Some?;
  }

  /** The view traversal of one media type in `parseMediaTypes`. */
  method RecordViews(nm: Naming, m0: map<string, Response>, mt: MediaType) returns (m: map<string, Response>)
    requires ViewsOk(mt)
    ensures m == VisitViews(nm, m0, mt, |mt.views|)
  {
    m := m0;
    var j := 0;
    while j < |mt.views|
      invariant 0 <= j <= |mt.views|
      invariant m == VisitViews(nm, m0, mt, j)
    {
      var params := BuildViewParams(nm, mt.views[j].attributes);
      var name := ToIdentifierName(nm, mt.identifier);
      m := m[mt.identifier := Response(mt.identifier, name.0, name.1, params)];
      j := j + 1;
    }
  }

  /** The loop over one view's attributes in `parseMediaTypes`. */
  method BuildViewParams(nm: Naming, o: Object) returns (params: seq<Param>)
    requires ObjectOk(o)
    ensures params == ViewParams(nm, o)
  {
    params := [];
    var i := 0;
    while i < |o|
      invariant 0 <= i <= |o|
      invariant params == ViewParams(nm, o[..i])
    {
      params := params + [MediaTypeParam(nm, o[i].0, o[i].1)];
      i := i + 1;
    }
    assert o[..i] == o;
  }

  /** A media type that records a response under `id`. */
  predicate Contributes(mt: MediaType, id: string)
  {
    !mt.isError && |mt.views| > 0 && mt.identifier == id
  }

  /** A media type whose view traversal fails. */
  predicate Fails(mt: MediaType)
  {
    !mt.isError && mt.viewError.Some?
  }

  /** The pass fails exactly when some media type fails, and then with the
      error of the first one. */
  lemma {:induction false} FoldError(nm: Naming, mts: seq<MediaType>)
    requires AllMediaTypesOk(mts)
    ensures MediaTypesFold(nm, mts).1.None? <==> forall i :: 0 <= i < |mts| ==> !Fails(mts[i])
    ensures MediaTypesFold(nm, mts).1.Some? ==>
              exists i :: 0 <= i < |mts| && Fails(mts[i]) && MediaTypesFold(nm, mts).1 == mts[i].viewError
                          && forall j :: 0 <= j < i ==> !Fails(mts[j])
  {
    if mts != [] {
      var init := mts[..|mts| - 1];
      FoldError(nm, init);
      assert forall i :: 0 <= i < |init| ==> init[i] == mts[i];
    }
  }

  /** Without an error, an identifier has a response exactly when some
      non-error media type with at least one view carries it. */
  lemma {:induction false} FoldKeys(nm: Naming, mts: seq<MediaType>, id: string)
    requires AllMediaTypesOk(mts) && MediaTypesFold(nm, mts).1.None?
    ensures id in MediaTypesFold(nm, mts).0 <==> exists i :: 0 <= i < |mts| && Contributes(mts[i], id)
  {
    if mts != [] {
      var init := mts[..|mts| - 1];
      FoldKeys(nm, init, id);
      assert forall i :: 0 <= i < |init| ==> init[i] == mts[i];
    }
  }

  /** Every recorded response is filed under its own identifier, carries
      the name and stream flag `toIdentifierName` gives, and has fields
      without enum that are never repeated. */
  lemma {:induction false} FoldResponsesWellFormed(nm: Naming, mts: seq<MediaType>, id: string)
    requires AllMediaTypesOk(mts) && id in MediaTypesFold(nm, mts).0
    ensures var r := MediaTypesFold(nm, mts).0[id];
            && r.identifier == id
            && (r.identifierName, r.stream) == ToIdentifierName(nm, id)
            && forall k :: 0 <= k < |r.params| ==> r.params[k].enum == [] && !r.params[k].repeat
  {
    var init, last := mts[..|mts| - 1], mts[|mts| - 1];
    assert AllMediaTypesOk(init);
    var prev := MediaTypesFold(nm, init);
    if prev.1.None? && !last.isError && |last.views| > 0 && id == last.identifier {
      ViewResponseWellFormed(nm, last, last.views[|last.views| - 1]);
    } else {
      FoldResponsesWellFormed(nm, init, id);
    }
  }

  /** The response recorded for a view is filed under the media type's
      identifier, named by `toIdentifierName`, with plain fields. */
  lemma ViewResponseWellFormed(nm: Naming, mt: MediaType, v: View)
    requires ObjectOk(v.attributes)
    ensures var r := ViewResponse(nm, mt, v);
            && r.identifier == mt.identifier
            && (r.identifierName, r.stream) == ToIdentifierName(nm, mt.identifier)
            && forall k :: 0 <= k < |r.params| ==> r.params[k].enum == [] && !r.params[k].repeat
  {
  }

  /** The response of an identifier comes from the last view of the last
      media type that carries it. */
  lemma {:induction false} LastViewWins(nm: Naming, mts: seq<MediaType>, i: nat)
    requires AllMediaTypesOk(mts) && MediaTypesFold(nm, mts).1.None?
    requires i < |mts| && Contributes(mts[i], mts[i].identifier)
    requires forall j :: i < j < |mts| ==> !Contributes(mts[j], mts[i].identifier)
    ensures var mt := mts[i];
            && mt.identifier in MediaTypesFold(nm, mts).0
            && MediaTypesFold(nm, mts).0[mt.identifier] == ViewResponse(nm, mt, mt.views[|mt.views| - 1])
  {
    var init, last := mts[..|mts| - 1], mts[|mts| - 1];
    FoldLast(nm, mts);
    if i < |mts| - 1 {
      assert forall j :: 0 <= j < |init| ==> init[j] == mts[j];
      LastViewWins(nm, init, i);
      var id := mts[i].identifier;
      assert init[i] == mts[i];
      VisitKeeps(nm, MediaTypesFold(nm, init).0, last, id);
      assert MediaTypesFold(nm, mts).0[id] == MediaTypesFold(nm, init).0[id];
    } else {
      VisitRecords(nm, MediaTypesFold(nm, init).0, last);
    }
  }

  /** Without an error, the pass over `mts` is the pass over all but the
      last media type, followed by a visit of the last one. */
  lemma FoldLast(nm: Naming, mts: seq<MediaType>)
    requires AllMediaTypesOk(mts) && |mts| > 0 && MediaTypesFold(nm, mts).1.None?
    ensures AllMediaTypesOk(mts[..|mts| - 1])
    ensures MediaTypesFold(nm, mts[..|mts| - 1]).1.None?
    ensures MediaTypesFold(nm, mts) == VisitMediaType(nm, MediaTypesFold(nm, mts[..|mts| - 1]).0, mts[|mts| - 1])
  {
  }

  /** A media type that does not carry `id` leaves its entry alone. */
  lemma VisitKeeps(nm: Naming, m: map<string, Response>, mt: MediaType, id: string)
    requires MediaTypeOk(mt) && !Contributes(mt, id) && id in m
    ensures id in VisitMediaType(nm, m, mt).0 && VisitMediaType(nm, m, mt).0[id] == m[id]
  {
  }

  /** A media type with a view files the response of its last view. */
  lemma VisitRecords(nm: Naming, m: map<string, Response>, mt: MediaType)
    requires MediaTypeOk(mt) && Contributes(mt, mt.identifier)
    ensures mt.identifier in VisitMediaType(nm, m, mt).0
    ensures VisitMediaType(nm, m, mt).0[mt.identifier] == ViewResponse(nm, mt, mt.views[|mt.views| - 1])
  {
  }

}
