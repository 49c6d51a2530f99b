/**
 * The search box of src/components/Search.tsx: `applyFilters` rebuilds the
 * query string from the current URL parameters, dropping the filter keys and
 * setting only the filters it is given; `handleSearch` applies the trimmed
 * search text. URL parameters are modelled as the ordered list of key/value
 * pairs `URLSearchParams` holds.
 */
module Search {
  import opened Wrappers
  import opened JsText
  import CatalogPage

  type Params = seq<(string, string)>

  /** The values stored under key k, in order. */
  function Only(ps: Params, k: string): seq<string> {
    if ps == [] then [] else (if ps[0].0 == k then [ps[0].1] else []) + Only(ps[1..], k)
  }

  lemma {:induction false} OnlyConcat(a: Params, b: Params, k: string)
    ensures Only(a + b, k) == Only(a, k) + Only(b, k)
  {
    if a == [] {
      assert a + b == b;
    } else {
      assert (a + b)[1..] == a[1..] + b;
      OnlyConcat(a[1..], b, k);
    }
  }

  /** Every entry with key k removed. */
  function Drop(ps: Params, k: string): (r: Params)
    ensures Only(r, k) == []
    ensures forall other :: other != k ==> Only(r, other) == Only(ps, other)
  {
    if ps == [] then []
    else if ps[0].0 == k then Drop(ps[1..], k)
    else [ps[0]] + Drop(ps[1..], k)
  }

  /**
   * `params.set(k, v)`: the first entry for k gets the value v and later ones are
   * removed; without an entry for k, one is appended.
   */
  function SetParam(ps: Params, k: string, v: string): (r: Params)
    ensures Only(r, k) == [v]
    ensures forall other :: other != k ==> Only(r, other) == Only(ps, other)
  {
    if ps == [] then [(k, v)]
    else if ps[0].0 == k then [(k, v)] + Drop(ps[1..], k)
    else [ps[0]] + SetParam(ps[1..], k, v)
  }

  /** The keys `applyFilters` does not copy from the current URL. */
  const FilterKeys: seq<string> := ["q", "category", "minPrice", "maxPrice", "page"]

  /** The last element, if any: what repeated `set` calls leave behind. */
  function LastOf(s: seq<string>): (r: seq<string>)
    ensures |r| <= 1 && (s != [] ==> r == [s[|s| - 1]])
  {
    if s == [] then [] else [s[|s| - 1]]
  }

  /** `Partial<Filters>` as `applyFilters` receives it. */
  datatype SearchFilters = SearchFilters(q: Option<string>, category: Option<string>, minPrice: Option<int>, maxPrice: Option<int>)

  /** The value a filter contributes: nothing when undefined, its string form otherwise. */
  function Given(v: Option<string>): seq<string> {
    if v.Some? then [v.value] else []
  }

  function GivenNumber(v: Option<int>): seq<string> {
    if v.Some? then [IntToString(v.value)] else []
  }

  /** What copying `existing` leaves under key k: nothing for a filter key, else its last value. */
  function Copied(existing: Params, k: string): seq<string> {
    if k in FilterKeys then [] else LastOf(Only(existing, k))
  }

  /** `params` holds exactly what copying `existing` leaves, key by key. */
  ghost predicate Mirrors(params: Params, existing: Params) {
    forall k :: Only(params, k) == Copied(existing, k)
  }

  /** One step of the copying loop keeps `Mirrors`. */
  lemma CopyStep(before: Params, prefix: Params, entry: (string, string))
    requires Mirrors(before, prefix)
    ensures Mirrors(if entry.0 !in FilterKeys then SetParam(before, entry.0, entry.1) else before, prefix + [entry])
  {
    var after := if entry.0 !in FilterKeys then SetParam(before, entry.0, entry.1) else before;
    forall k
      ensures Only(after, k) == Copied(prefix + [entry], k)
    {
      OnlyConcat(prefix, [entry], k);
      assert Only([entry], k) == if entry.0 == k then [entry.1] else [];
      if k != entry.0 {
        assert Only(after, k) == Only(before, k);
      }
    }
  }

  /**
   * The copying loop of `applyFilters`: every current entry whose key is not a
   * filter key is `set` on the fresh parameters, so the last value of each such
   * key survives, once.
   */
  method CopyOthers(existing: Params) returns (params: Params)
    ensures forall k :: Only(params, k) == if k in FilterKeys then [] else LastOf(Only(existing, k))
  {
    params := [];
    var i := 0;
    while i < |existing|
      invariant 0 <= i <= |existing|
      invariant Mirrors(params, existing[..i])
    {
      var (key, value) := existing[i];
      CopyStep(params, existing[..i], existing[i]);
      if key !in FilterKeys {
        params := SetParam(params, key, value);
      }
      assert existing[..i + 1] == existing[..i] + [existing[i]];
      i := i + 1;
    }
    assert existing[..i] == existing;
    assert forall k :: Only(params, k) == Copied(existing, k);
  }

  /** `applyFilters`; `existing` are `searchParams.entries()`, `enc` the form encoder. */
  method ApplyFilters(existing: Params, newFilters: SearchFilters, enc: string -> string)
    returns (params: Params, target: string)
    ensures forall k :: k !in FilterKeys ==> Only(params, k) == LastOf(Only(existing, k))
    ensures Only(params, "page") == []
    ensures Only(params, "q") == Given(newFilters.q)
    ensures Only(params, "category") == Given(newFilters.category)
    ensures Only(params, "minPrice") == GivenNumber(newFilters.minPrice)
    ensures Only(params, "maxPrice") == GivenNumber(newFilters.maxPrice)
    ensures target == "/catalog?" + CatalogPage.Serialize(params, enc)
  {
    params := CopyOthers(existing);
    assert "q" in FilterKeys && "category" in FilterKeys && "minPrice" in FilterKeys;
    assert "maxPrice" in FilterKeys && "page" in FilterKeys;
    if newFilters.q.Some? {
      params := SetParam(params, "q", newFilters.q.value);
    }
    if newFilters.category.Some? {
      params := SetParam(params, "category", newFilters.category.value);
    }
    if newFilters.minPrice.Some? {
      params := SetParam(params, "minPrice", IntToString(newFilters.minPrice.value));
    }
    if newFilters.maxPrice.Some? {
      params := SetParam(params, "maxPrice", IntToString(newFilters.maxPrice.value));
    }
    target := "/catalog?" + CatalogPage.Serialize(params, enc);
  }

  /** `handleSearch`: `applyFilters({ q: search.trim() || undefined })`. */
  method HandleSearch(existing: Params, search: string, enc: string -> string)
    returns (params: Params, target: string)
    ensures Only(params, "q") == (if Trim(search) == "" then [] else [Trim(search)])
    ensures Only(params, "category") == [] && Only(params, "minPrice") == []
    ensures Only(params, "maxPrice") == [] && Only(params, "page") == []
    ensures forall k :: k !in FilterKeys ==> Only(params, k) == LastOf(Only(existing, k))
    ensures target == "/catalog?" + CatalogPage.Serialize(params, enc)
  {
    var trimmed := Trim(search);
    params, target := ApplyFilters(existing, SearchFilters(if trimmed != "" then Some(trimmed) else None, None, None, None), enc);
  }
}
