/** What the `generate*` methods of the code generator collect from the
    analyzed catalog before handing it to a template: the registry's resource
    names, the summary fields per resource, the de-duplicated value sets, the
    per-resource file data and the ordered datatypes.

    `types` is the generator's list of analyzed types, in the order the
    generator holds them. Rendering the templates and writing the files is
    not part of this model. */
module Generator {
  import opened Analyzer
  import opened Order
  import opened Lists
  import opened Builder

  predicate IsResource(t: AnalyzedType)
  {
    t.kind == KindResource
  }

  // ---------------------------------------------------------------------------
  // Registry
  // ---------------------------------------------------------------------------

  /** The names of the resource-kind types, in catalog order. */
  function ResourceNames(types: seq<AnalyzedType>): seq<string>
  {
    Map(Filter(types, IsResource), TypeName)
  }

  /** A name is listed for the registry exactly when a resource-kind type
      has it. */
  lemma ResourceNamesSpec(types: seq<AnalyzedType>, n: string)
    ensures n in ResourceNames(types) <==> exists t :: t in types && t.kind == KindResource && t.name == n
  {
    MapFilterMember(types, IsResource, TypeName, n);
  }

  /** The resource names of `generateRegistryFromTemplate`: those of the
      resource-kind types, sorted. */
  method RegistryResourceNames(types: seq<AnalyzedType>) returns (names: seq<string>)
    ensures SortedBy(names, Id)
    ensures multiset(names) == multiset(ResourceNames(types))
  {
    names := [];
    for i := 0 to |types|
      invariant names == ResourceNames(types[..i])
    {
      assert types[..i + 1] == types[..i] + [types[i]];
      FilterSnoc(types[..i], types[i], IsResource);
      if types[i].kind == KindResource {
        MapSnoc(Filter(types[..i], IsResource), types[i], TypeName);
        names := names + [types[i].name];
      }
    }
    assert types[..|types|] == types;
    names := SortBy(names, Id);
  }

  // ---------------------------------------------------------------------------
  // Summary fields
  // ---------------------------------------------------------------------------

  /** `ResourceSummaryData`. */
  datatype ResourceSummaryData = ResourceSummaryData(name: string, summaryFields: seq<string>)

  function SummaryName(r: ResourceSummaryData): string
  {
    r.name
  }

  predicate IsSummaryProperty(p: AnalyzedProperty)
  {
    p.isSummary
  }

  function JsonName(p: AnalyzedProperty): string
  {
    p.jsonName
  }

  /** The wire names of the summary properties, in property order. */
  function SummaryFieldNames(ps: seq<AnalyzedProperty>): seq<string>
  {
    Map(Filter(ps, IsSummaryProperty), JsonName)
  }

  /** A resource is listed when it has at least one summary property. */
  predicate HasSummary(t: AnalyzedType)
  {
    t.kind == KindResource && Filter(t.properties, IsSummaryProperty) != []
  }

  /** The entry of a listed resource: its summary wire names, sorted. */
  function SummaryOf(t: AnalyzedType): ResourceSummaryData
  {
    ResourceSummaryData(t.name, SortBy(SummaryFieldNames(t.properties), Id))
  }

  /** The entries of the listed resources, in catalog order. */
  function SummaryEntries(types: seq<AnalyzedType>): seq<ResourceSummaryData>
  {
    Map(Filter(types, HasSummary), SummaryOf)
  }

  /** A resource is listed exactly when one of its properties is a summary
      property. */
  lemma HasSummaryIff(t: AnalyzedType)
    ensures HasSummary(t) <==> t.kind == KindResource && exists p :: p in t.properties && p.isSummary
  {
    var ps := Filter(t.properties, IsSummaryProperty);
    if ps != [] {
      assert ps[0] in ps;
    }
    if p :| p in t.properties && p.isSummary {
      assert p in ps;
    }
  }

  /** An entry is in the summary list exactly when it is the entry of a
      listed resource of the catalog (see `HasSummaryIff` for which are
      listed). */
  lemma SummaryEntriesSpec(types: seq<AnalyzedType>, e: ResourceSummaryData)
    ensures e in SummaryEntries(types) <==> exists t :: t in types && HasSummary(t) && e == SummaryOf(t)
  {
    MapFilterMember(types, HasSummary, SummaryOf, e);
  }

  /** The field list of a listed resource is non-empty, sorted and a
      permutation of that resource's summary wire names. */
  lemma SummaryOfSpec(t: AnalyzedType)
    requires HasSummary(t)
    ensures SummaryOf(t).summaryFields != []
    ensures SortedBy(SummaryOf(t).summaryFields, Id)
    ensures multiset(SummaryOf(t).summaryFields) == multiset(SummaryFieldNames(t.properties))
  {
    var names := SummaryFieldNames(t.properties);
    assert |names| > 0;
    assert |multiset(names)| > 0;
  }

  /** The summary fields of one resource, as the inner loop collects them. */
  method CollectSummaryFields(t: AnalyzedType) returns (fields: seq<string>)
    ensures fields == SummaryFieldNames(t.properties)
  {
    fields := [];
    for j := 0 to |t.properties|
      invariant fields == SummaryFieldNames(t.properties[..j])
    {
      assert t.properties[..j + 1] == t.properties[..j] + [t.properties[j]];
      FilterSnoc(t.properties[..j], t.properties[j], IsSummaryProperty);
      if t.properties[j].isSummary {
        MapSnoc(Filter(t.properties[..j], IsSummaryProperty), t.properties[j], JsonName);
        fields := fields + [t.properties[j].jsonName];
      }
    }
    assert t.properties[..|t.properties|] == t.properties;
  }

  /** The resource list of `generateSummaryFromTemplate`: the summary
      entries, sorted by resource name. */
  method SummaryResources(types: seq<AnalyzedType>) returns (resources: seq<ResourceSummaryData>)
    ensures SortedBy(resources, SummaryName)
    ensures multiset(resources) == multiset(SummaryEntries(types))
  {
    resources := [];
    for i := 0 to |types|
      invariant resources == SummaryEntries(types[..i])
    {
      var t := types[i];
      assert types[..i + 1] == types[..i] + [t];
      FilterSnoc(types[..i], t, HasSummary);
      if t.kind != KindResource {
        continue;
      }
      var summaryFields := CollectSummaryFields(t);
      if |summaryFields| > 0 {
        assert Filter(t.properties, IsSummaryProperty) != [];
        MapSnoc(Filter(types[..i], HasSummary), t, SummaryOf);
        summaryFields := SortBy(summaryFields, Id);
        resources := resources + [ResourceSummaryData(t.name, summaryFields)];
      }
    }
    assert types[..|types|] == types;
    resources := SortBy(resources, SummaryName);
  }

  // ---------------------------------------------------------------------------
  // Value sets
  // ---------------------------------------------------------------------------

  /** `CodeData`. */
  datatype CodeData = CodeData(code: string, display: string, constName: string)

  /** `ValueSetData`. */
  datatype ValueSetData = ValueSetData(name: string, typeName: string, title: string, codes: seq<CodeData>)

  /** What the value-set collection consults: the loader's table (a URL
      missing from it is a nil lookup), the function that turns a value-set
      name into a Go type name, and the one that names a code's constant. */
  datatype ValueSetSource = ValueSetSource(
    lookup: map<string, ValueSet>,
    sanitizeTypeName: string -> string,
    toPascalCaseCode: string -> string)

  /** The code list of a value set: one entry per source code, in order. */
  function CodeDataOf(codes: seq<ValueSetCode>, toPascalCaseCode: string -> string): (r: seq<CodeData>)
    ensures |r| == |codes|
    ensures forall i :: 0 <= i < |codes| ==>
      r[i].code == codes[i].code && r[i].display == codes[i].display &&
      r[i].constName == toPascalCaseCode(codes[i].code)
  {
    if codes == [] then []
    else
      var last := codes[|codes| - 1];
      CodeDataOf(codes[..|codes| - 1], toPascalCaseCode) +
        [CodeData(last.code, last.display, toPascalCaseCode(last.code))]
  }

  /** The entry generated for a value set. */
  function ValueSetEntry(vs: ValueSet, src: ValueSetSource): ValueSetData
  {
    ValueSetData(vs.name, src.sanitizeTypeName(vs.name), vs.title, CodeDataOf(vs.codes, src.toPascalCaseCode))
  }

  function TypeNamesOf(entries: seq<ValueSetData>): set<string>
  {
    set e | e in entries :: e.typeName
  }

  /** The value sets generated for `urls`, visited in order: a URL the
      loader does not know is skipped, and so is one whose sanitized type name
      an earlier entry already has. */
  function CollectValueSets(urls: seq<string>, src: ValueSetSource): seq<ValueSetData>
  {
    if urls == [] then []
    else
      var prev := CollectValueSets(urls[..|urls| - 1], src);
      var url := urls[|urls| - 1];
      if url !in src.lookup then prev
      else if src.sanitizeTypeName(src.lookup[url].name) in TypeNamesOf(prev) then prev
      else prev + [ValueSetEntry(src.lookup[url], src)]
  }

  /** One more URL: it adds its entry unless the loader does not know it or
      its type name is already taken, as one turn of the collecting loop. */
  lemma CollectValueSetsSnoc(urls: seq<string>, url: string, src: ValueSetSource)
    ensures var prev := CollectValueSets(urls, src);
      CollectValueSets(urls + [url], src) ==
        if url !in src.lookup then prev
        else if src.sanitizeTypeName(src.lookup[url].name) in TypeNamesOf(prev) then prev
        else prev + [ValueSetEntry(src.lookup[url], src)]
  {
    assert (urls + [url])[..|urls|] == urls;
  }

  lemma TypeNamesOfSnoc(entries: seq<ValueSetData>, e: ValueSetData)
    ensures TypeNamesOf(entries + [e]) == TypeNamesOf(entries) + {e.typeName}
  {
    assert forall x :: x in entries + [e] <==> x in entries || x == e;
  }

  /** The URL at index `u` is known to the loader and sanitizes to `name`. */
  ghost predicate Yields(urls: seq<string>, u: int, src: ValueSetSource, name: string)
  {
    0 <= u < |urls| && urls[u] in src.lookup && src.sanitizeTypeName(src.lookup[urls[u]].name) == name
  }

  /** The URL at index `u` is known to the loader and no URL before it
      yields the same type name. */
  ghost predicate FirstOfItsName(urls: seq<string>, u: int, src: ValueSetSource)
  {
    && 0 <= u < |urls|
    && urls[u] in src.lookup
    && forall v :: 0 <= v < u ==> !Yields(urls, v, src, src.sanitizeTypeName(src.lookup[urls[u]].name))
  }

  /** Among the URLs up to index `v` that yield `name`, there is a first. */
  lemma {:induction false} FirstWithName(urls: seq<string>, v: int, src: ValueSetSource, name: string)
    requires Yields(urls, v, src, name)
    ensures exists w :: 0 <= w <= v && Yields(urls, w, src, name) && FirstOfItsName(urls, w, src)
  {
    if exists w :: 0 <= w < v && Yields(urls, w, src, name) {
      var w :| 0 <= w < v && Yields(urls, w, src, name);
      FirstWithName(urls, w, src, name);
    } else {
      assert FirstOfItsName(urls, v, src);
    }
  }

  /** No two entries share a type name. */
  ghost predicate DistinctTypeNames(entries: seq<ValueSetData>)
  {
    forall i, j :: 0 <= i < j < |entries| ==> entries[i].typeName != entries[j].typeName
  }

  /** De-duplication keeps one entry per type name. */
  lemma {:induction false} CollectValueSetsDistinct(urls: seq<string>, src: ValueSetSource)
    ensures DistinctTypeNames(CollectValueSets(urls, src))
  {
    if urls == [] {
      return;
    }
    var r := CollectValueSets(urls, src);
    var n := |urls| - 1;
    var prev := CollectValueSets(urls[..n], src);
    CollectValueSetsDistinct(urls[..n], src);
    var url := urls[n];
    if url in src.lookup && src.sanitizeTypeName(src.lookup[url].name) !in TypeNamesOf(prev) {
      var entry := ValueSetEntry(src.lookup[url], src);
      assert r == prev + [entry];
      forall i, j | 0 <= i < j < |r|
        ensures r[i].typeName != r[j].typeName
      {
        assert r[i] == prev[i];
        if j == |prev| {
          assert prev[i] in prev;
        } else {
          assert r[j] == prev[j];
        }
      }
    } else {
      assert r == prev;
    }
  }

  /** A URL before the last is first of its name among all the URLs exactly
      when it is among the URLs before the last. */
  lemma FirstOfItsNameInPrefix(urls: seq<string>, n: int, u: int, src: ValueSetSource)
    requires 0 <= u < n <= |urls|
    ensures FirstOfItsName(urls, u, src) <==> FirstOfItsName(urls[..n], u, src)
  {
    if urls[u] in src.lookup {
      var name := src.sanitizeTypeName(src.lookup[urls[u]].name);
      forall v | 0 <= v < u
        ensures Yields(urls, v, src, name) <==> Yields(urls[..n], v, src, name)
      {
        assert urls[..n][v] == urls[v];
      }
    }
  }

  /** A type name yielded by a URL before the last is taken by the entries
      of the URLs before the last. */
  lemma {:induction false} EarlierNameTaken(urls: seq<string>, v: int, src: ValueSetSource, name: string)
    requires 0 <= v < |urls| - 1 && Yields(urls, v, src, name)
    ensures name in TypeNamesOf(CollectValueSets(urls[..|urls| - 1], src))
    decreases |urls|, 0
  {
    var n := |urls| - 1;
    var init := urls[..n];
    FirstWithName(urls, v, src, name);
    var w :| 0 <= w <= v && Yields(urls, w, src, name) && FirstOfItsName(urls, w, src);
    FirstOfItsNameInPrefix(urls, n, w, src);
    assert init[w] == urls[w];
    var e := ValueSetEntry(src.lookup[init[w]], src);
    CollectValueSetsFirstWins(init, src, e);
    assert e in CollectValueSets(init, src);
  }

  /** The last URL adds an entry exactly when it is the first of its name. */
  lemma {:induction false} LastUrlOpens(urls: seq<string>, src: ValueSetSource)
    requires urls != []
    ensures var n := |urls| - 1;
      (urls[n] in src.lookup &&
       src.sanitizeTypeName(src.lookup[urls[n]].name) !in TypeNamesOf(CollectValueSets(urls[..n], src)))
      <==> FirstOfItsName(urls, n, src)
    decreases |urls|, 1
  {
    var n := |urls| - 1;
    var init := urls[..n];
    var prev := CollectValueSets(init, src);
    var url := urls[n];
    if url in src.lookup {
      var name := src.sanitizeTypeName(src.lookup[url].name);
      forall v | 0 <= v < n && Yields(urls, v, src, name)
        ensures name in TypeNamesOf(prev)
      {
        EarlierNameTaken(urls, v, src, name);
      }
      if name in TypeNamesOf(prev) {
        var e :| e in prev && e.typeName == name;
        CollectValueSetsFirstWins(init, src, e);
        var w :| FirstOfItsName(init, w, src) && e == ValueSetEntry(src.lookup[init[w]], src);
        assert init[w] == urls[w];
        assert Yields(urls, w, src, name);
      }
    }
  }

  /** The entries kept are those of the URLs that are first of their name
      (in visiting order); a later URL yielding a taken name adds nothing. */
  lemma {:induction false} CollectValueSetsFirstWins(urls: seq<string>, src: ValueSetSource, e: ValueSetData)
    ensures e in CollectValueSets(urls, src) <==>
      exists u :: FirstOfItsName(urls, u, src) && e == ValueSetEntry(src.lookup[urls[u]], src)
    decreases |urls|, 2
  {
    if urls == [] {
      return;
    }
    var n := |urls| - 1;
    var init := urls[..n];
    var prev := CollectValueSets(init, src);
    var url := urls[n];
    CollectValueSetsFirstWins(init, src, e);
    LastUrlOpens(urls, src);
    if FirstOfItsName(urls, n, src) {
      assert CollectValueSets(urls, src) == prev + [ValueSetEntry(src.lookup[url], src)];
    } else {
      assert CollectValueSets(urls, src) == prev;
    }
    if e in prev {
      var u :| FirstOfItsName(init, u, src) && e == ValueSetEntry(src.lookup[init[u]], src);
      FirstOfItsNameInPrefix(urls, n, u, src);
      assert init[u] == urls[u];
    }
    if u :| FirstOfItsName(urls, u, src) && e == ValueSetEntry(src.lookup[urls[u]], src) {
      if u < n {
        FirstOfItsNameInPrefix(urls, n, u, src);
        assert init[u] == urls[u];
      }
    }
  }

  /** The elements of a set, in some order. */
  ghost function SetToSeq(s: set<string>): (r: seq<string>)
    ensures multiset(r) == multiset(s)
  {
    if s == {} then []
    else
      var x :| x in s;
      assert multiset(s) == multiset(s - {x}) + multiset{x};
      [x] + SetToSeq(s - {x})
  }

  /** The keys of `keys` in sorted order. */
  ghost function SortedKeys(keys: set<string>): seq<string>
  {
    SortBy(SetToSeq(keys), Id)
  }

  /** A list with the multiset of a set holds each element of the set once. */
  lemma ListOfSet(r: seq<string>, keys: set<string>)
    requires multiset(r) == multiset(keys)
    ensures forall x :: x in r <==> x in keys
    ensures forall i, j :: 0 <= i < j < |r| ==> r[i] != r[j]
  {
    forall x
      ensures x in r <==> x in keys
    {
      assert x in r <==> x in multiset(r);
    }
    forall i, j | 0 <= i < j < |r|
      ensures r[i] != r[j]
    {
      var x := r[j];
      assert r == r[..j] + r[j..];
      assert multiset(r) == multiset(r[..j]) + multiset(r[j..]);
      assert x in r;
      assert multiset(r)[x] == 1;
      assert r[j..][0] == x;
      assert multiset(r[j..])[x] >= 1;
      assert multiset(r[..j])[x] == 0;
      assert r[..j][i] == r[i];
      assert r[i] in multiset(r[..j]);
    }
  }

  /** Every key is visited exactly once, in sorted order. */
  lemma SortedKeysSpec(keys: set<string>)
    ensures SortedBy(SortedKeys(keys), Id)
    ensures forall x :: x in SortedKeys(keys) <==> x in keys
    ensures forall i, j :: 0 <= i < j < |SortedKeys(keys)| ==> SortedKeys(keys)[i] != SortedKeys(keys)[j]
  {
    ListOfSet(SortedKeys(keys), keys);
  }

  /** The used value-set URLs, collected from the analyzer's bindings in
      whatever order the map yields them, then sorted. */
  method SortedBindingUrls(bindings: set<string>) returns (urls: seq<string>)
    ensures urls == SortedKeys(bindings)
  {
    urls := [];
    var remaining := bindings;
    while remaining != {}
      invariant remaining <= bindings
      invariant multiset(urls) + multiset(remaining) == multiset(bindings)
      decreases remaining
    {
      var url :| url in remaining;
      assert multiset(remaining) == multiset(remaining - {url}) + multiset{url};
      urls := urls + [url];
      remaining := remaining - {url};
    }
    urls := SortBy(urls, Id);
    SortedStringsUnique(urls, SortedKeys(bindings));
  }

  /** The code list of one value set, as the inner loop builds it. */
  method CollectCodes(vs: ValueSet, toPascalCaseCode: string -> string) returns (codes: seq<CodeData>)
    ensures codes == CodeDataOf(vs.codes, toPascalCaseCode)
  {
    codes := [];
    for j := 0 to |vs.codes|
      invariant codes == CodeDataOf(vs.codes[..j], toPascalCaseCode)
    {
      assert vs.codes[..j + 1][..j] == vs.codes[..j];
      codes := codes + [CodeData(vs.codes[j].code, vs.codes[j].display, toPascalCaseCode(vs.codes[j].code))];
    }
    assert vs.codes[..|vs.codes|] == vs.codes;
  }

  /** The main loop of `generateCodeSystemsFromTemplate` over the sorted
      URLs, with its map of the type names generated so far. */
  method CollectValueSetsInOrder(urls: seq<string>, src: ValueSetSource) returns (sets: seq<ValueSetData>)
    ensures sets == CollectValueSets(urls, src)
  {
    // Track the generated type names to keep the first value set of each.
    var generatedTypes: map<string, bool> := map[];
    sets := [];
    for i := 0 to |urls|
      invariant sets == CollectValueSets(urls[..i], src)
      invariant generatedTypes.Keys == TypeNamesOf(sets)
      invariant forall k :: k in generatedTypes ==> generatedTypes[k]
    {
      var url := urls[i];
      assert urls[..i + 1] == urls[..i] + [url];
      CollectValueSetsSnoc(urls[..i], url, src);
      if url !in src.lookup {
        continue;
      }
      var vs := src.lookup[url];
      var typeName := src.sanitizeTypeName(vs.name);
      if typeName in generatedTypes && generatedTypes[typeName] {
        continue;
      }
      generatedTypes := generatedTypes[typeName := true];
      var codes := CollectCodes(vs, src.toPascalCaseCode);
      var entry := ValueSetData(vs.name, typeName, vs.title, codes);
      TypeNamesOfSnoc(sets, entry);
      sets := sets + [entry];
    }
    assert urls[..|urls|] == urls;
  }

  /** The value sets of `generateCodeSystemsFromTemplate`; `None` when there
      is no analyzer or it saw no bindings, in which case no file is made. */
  method CodeSystems(analyzer: Option<AnalyzerState>, src: ValueSetSource)
    returns (r: Option<seq<ValueSetData>>)
    ensures r.None? <==> analyzer.None? || analyzer.value.usedBindings == {}
    ensures r.Some? ==> r.value == CollectValueSets(SortedKeys(analyzer.value.usedBindings), src)
  {
    if analyzer.None? || |analyzer.value.usedBindings| == 0 {
      return None;
    }
    var urls := SortedBindingUrls(analyzer.value.usedBindings);
    var sets := CollectValueSetsInOrder(urls, src);
    return Some(sets);
  }

  // ---------------------------------------------------------------------------
  // Per-resource files
  // ---------------------------------------------------------------------------

  /** `strings.ToLower`, rune by rune with the case mapping `lower`. */
  function ToLowerString(s: string, lower: char -> char): (r: string)
    ensures |r| == |s|
    ensures forall i :: 0 <= i < |s| ==> r[i] == lower(s[i])
  {
    if s == "" then "" else [lower(s[0])] + ToLowerString(s[1..], lower)
  }

  /** The name of a resource's file, "resource_<lower-case name>.go". */
  function ResourceFileName(name: string, lower: char -> char): (r: string)
    ensures |r| == |name| + 12
    ensures r[..9] == "resource_" && r[|r| - 3..] == ".go"
    ensures forall i :: 0 <= i < |name| ==> r[9 + i] == lower(name[i])
  {
    "resource_" + ToLowerString(name, lower) + ".go"
  }

  /** `ResourceConsolidatedData`, with the file it is rendered into. */
  datatype ResourceConsolidatedData = ResourceConsolidatedData(
    fileName: string,
    resource: AnalyzedType,
    backbones: seq<AnalyzedType>,
    builder: ResourceBuilderData)

  /** The backbones of a resource, sorted by name, on a copy of its list. */
  method SortedBackbones(t: AnalyzedType) returns (backbones: seq<AnalyzedType>)
    ensures SortedBy(backbones, TypeName)
    ensures multiset(backbones) == multiset(t.backboneTypes)
  {
    backbones := [];
    if |t.backboneTypes| > 0 {
      backbones := t.backboneTypes;
      backbones := SortBy(backbones, TypeName);
    }
  }

  /** `d` is the file data of resource `t`. */
  ghost predicate ConsolidatedFor(d: ResourceConsolidatedData, t: AnalyzedType, lower: char -> char)
  {
    && d.fileName == ResourceFileName(t.name, lower)
    && d.resource == t
    && SortedBy(d.backbones, TypeName)
    && multiset(d.backbones) == multiset(t.backboneTypes)
    && DescribesType(d.builder, t, lower)
  }

  /** `files` holds the file data of the types `ts`, one by one in order. */
  ghost predicate ConsolidatedList(files: seq<ResourceConsolidatedData>, ts: seq<AnalyzedType>, lower: char -> char)
  {
    |files| == |ts| && forall k :: 0 <= k < |files| ==> ConsolidatedFor(files[k], ts[k], lower)
  }

  lemma ConsolidatedListSnoc(files: seq<ResourceConsolidatedData>, ts: seq<AnalyzedType>,
                             d: ResourceConsolidatedData, t: AnalyzedType, lower: char -> char)
    requires ConsolidatedList(files, ts, lower) && ConsolidatedFor(d, t, lower)
    ensures ConsolidatedList(files + [d], ts + [t], lower)
  {
    forall k | 0 <= k < |files| + 1
      ensures ConsolidatedFor((files + [d])[k], (ts + [t])[k], lower)
    {
      if k < |files| {
        assert (files + [d])[k] == files[k] && (ts + [t])[k] == ts[k];
      }
    }
  }

  /** The files of `generateResourcesConsolidated`: one per resource-kind
      type, in catalog order. */
  method ResourcesConsolidated(types: seq<AnalyzedType>, lower: char -> char)
    returns (files: seq<ResourceConsolidatedData>)
    ensures ConsolidatedList(files, Filter(types, IsResource), lower)
  {
    files := [];
    for i := 0 to |types|
      invariant ConsolidatedList(files, Filter(types[..i], IsResource), lower)
    {
      var t := types[i];
      assert types[..i + 1] == types[..i] + [t];
      FilterSnoc(types[..i], t, IsResource);
      if t.kind != KindResource {
        continue;
      }
      var backbones := SortedBackbones(t);
      var builder := BuildResourceBuilderData(t, lower);
      var d := ResourceConsolidatedData(ResourceFileName(t.name, lower), t, backbones, builder);
      ConsolidatedListSnoc(files, Filter(types[..i], IsResource), d, t, lower);
      files := files + [d];
    }
    assert types[..|types|] == types;
  }

  // ---------------------------------------------------------------------------
  // Datatypes file
  // ---------------------------------------------------------------------------

  /** The two base types every other datatype embeds. */
  predicate IsBaseType(t: AnalyzedType)
  {
    t.name == "Element" || t.name == "BackboneElement"
  }

  /** A datatype, primitive or backbone other than the two base types. */
  predicate IsOtherDatatype(t: AnalyzedType)
  {
    (t.kind == "datatype" || t.kind == "primitive" || t.kind == "backbone") && !IsBaseType(t)
  }

  /** The backbones of `ts`, list after list. */
  function BackbonesOf(ts: seq<AnalyzedType>): seq<AnalyzedType>
  {
    if ts == [] then []
    else BackbonesOf(ts[..|ts| - 1]) + ts[|ts| - 1].backboneTypes
  }

  lemma BackbonesOfSnoc(ts: seq<AnalyzedType>, t: AnalyzedType)
    ensures BackbonesOf(ts + [t]) == BackbonesOf(ts) + t.backboneTypes
  {
    assert (ts + [t])[..|ts|] == ts;
  }

  lemma {:induction false} BackbonesOfSpec(ts: seq<AnalyzedType>, b: AnalyzedType)
    ensures b in BackbonesOf(ts) <==> exists i :: 0 <= i < |ts| && b in ts[i].backboneTypes
  {
    if ts != [] {
      var n := |ts| - 1;
      BackbonesOfSpec(ts[..n], b);
      assert forall i :: 0 <= i < n ==> ts[..n][i] == ts[i];
    }
  }

  /** The types of the datatypes file: the base types first, then the other
      datatypes, each group in catalog order. */
  function DatatypeOrder(types: seq<AnalyzedType>): seq<AnalyzedType>
  {
    Filter(types, IsBaseType) + Filter(types, IsOtherDatatype)
  }

  /** No other datatype comes before a base type, and the file holds exactly
      the base types and the datatype, primitive and backbone kinds. */
  lemma DatatypeOrderSpec(types: seq<AnalyzedType>)
    ensures var all := DatatypeOrder(types);
      forall i, j :: 0 <= i < j < |all| && IsBaseType(all[j]) ==> IsBaseType(all[i])
    ensures forall t :: t in DatatypeOrder(types) <==>
      t in types && (IsBaseType(t) || t.kind in {"datatype", "primitive", "backbone"})
  {
    var bases := Filter(types, IsBaseType);
    var others := Filter(types, IsOtherDatatype);
    var all := bases + others;
    forall k | 0 <= k < |bases|
      ensures IsBaseType(all[k])
    {
      assert all[k] in bases;
    }
    forall k | |bases| <= k < |all|
      ensures !IsBaseType(all[k])
    {
      assert all[k] in others;
    }
  }

  /** The first loop of `generateDatatypesConsolidated`: the base types, in
      catalog order. */
  method CollectBaseTypes(types: seq<AnalyzedType>) returns (bases: seq<AnalyzedType>)
    ensures bases == Filter(types, IsBaseType)
  {
    bases := [];
    for i := 0 to |types|
      invariant bases == Filter(types[..i], IsBaseType)
    {
      var t := types[i];
      assert types[..i + 1] == types[..i] + [t];
      FilterSnoc(types[..i], t, IsBaseType);
      if t.name == "Element" || t.name == "BackboneElement" {
        bases := bases + [t];
      }
    }
    assert types[..|types|] == types;
  }

  /** The second loop of `generateDatatypesConsolidated`: the other
      datatypes in catalog order, and their backbones list after list. */
  method CollectOtherDatatypes(types: seq<AnalyzedType>)
    returns (others: seq<AnalyzedType>, backbones: seq<AnalyzedType>)
    ensures others == Filter(types, IsOtherDatatype)
    ensures backbones == BackbonesOf(others)
  {
    others := [];
    backbones := [];
    for i := 0 to |types|
      invariant others == Filter(types[..i], IsOtherDatatype)
      invariant backbones == BackbonesOf(others)
    {
      var t := types[i];
      assert types[..i + 1] == types[..i] + [t];
      FilterSnoc(types[..i], t, IsOtherDatatype);
      if t.kind != "datatype" && t.kind != "primitive" && t.kind != "backbone" {
        continue;
      }
      if t.name == "Element" || t.name == "BackboneElement" {
        continue;
      }
      BackbonesOfSnoc(others, t);
      if |t.backboneTypes| > 0 {
        backbones := backbones + t.backboneTypes;
      } else {
        assert backbones + t.backboneTypes == backbones;
      }
      others := others + [t];
    }
    assert types[..|types|] == types;
  }

  /** The types and backbones of `generateDatatypesConsolidated`. */
  method DatatypesConsolidated(types: seq<AnalyzedType>)
    returns (allTypes: seq<AnalyzedType>, allBackbones: seq<AnalyzedType>)
    ensures allTypes == DatatypeOrder(types)
    ensures SortedBy(allBackbones, TypeName)
    ensures multiset(allBackbones) == multiset(BackbonesOf(Filter(types, IsOtherDatatype)))
  {
    var bases := CollectBaseTypes(types);
    var others, backbones := CollectOtherDatatypes(types);
    allTypes := bases + others;
    allBackbones := SortBy(backbones, TypeName);
  }
}
