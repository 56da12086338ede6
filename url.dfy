/** URLs as the modelled code builds them: an origin and path, and the ordered
    list of query name-value pairs behind `URL.searchParams`. Parsing and
    serialising a URL are not modelled. */
module Url {
  import opened Js

  type Pair = (string, string)

  /** A URL reduced to what the code changes: the text before the query
      (origin and path) and the query's name-value list. */
  datatype Url = Url(base: string, query: seq<Pair>)

  const NotionOrigin: string := "https://www.notion.so"

  /** The path the image proxy of notion.so expects: an `/image...` path is
      kept as it is, anything else is URI-encoded behind `/image/`. */
  function ProxyPath(image: string, encodeURIComponent: string -> string): (path: string)
    ensures StartsWith(image, "/image") ==> path == image
    ensures !StartsWith(image, "/image") ==> path == "/image/" + encodeURIComponent(image)
    ensures StartsWith(path, "/image")
  {
    if StartsWith(image, "/image") then image
    else
      var path := "/image/" + encodeURIComponent(image);
      assert path[..|"/image"|] == "/image";
      path
  }

  /** Proxying a proxied path changes nothing: the proxy path is already an
      `/image...` path. */
  lemma ProxyPathIdempotent(image: string, encodeURIComponent: string -> string)
    ensures var path := ProxyPath(image, encodeURIComponent);
      ProxyPath(path, encodeURIComponent) == path
  {
  }

  // ---------------------------------------------------------------------------
  // The query list and URLSearchParams.set (WHATWG URL Standard, section 6.2)

  predicate HasName(list: seq<Pair>, name: string) {
    exists i :: 0 <= i < |list| && list[i].0 == name
  }

  /** The pairs named `name`, in order. */
  function Named(list: seq<Pair>, name: string): (r: seq<Pair>)
    ensures |r| <= |list|
    ensures forall p :: p in r ==> p in list && p.0 == name
  {
    if list == [] then []
    else if list[0].0 == name then [list[0]] + Named(list[1..], name)
    else Named(list[1..], name)
  }

  /** The list with every pair named `name` removed. */
  function Without(list: seq<Pair>, name: string): (r: seq<Pair>)
    ensures !HasName(r, name)
    ensures |r| <= |list|
  {
    if list == [] then []
    else if list[0].0 == name then Without(list[1..], name)
    else
      var rest := Without(list[1..], name);
      assert forall i :: 1 <= i < |[list[0]] + rest| ==> ([list[0]] + rest)[i] == rest[i - 1];
      [list[0]] + rest
  }

  /** The value of the first pair named `name` (URLSearchParams.get). */
  function Get(list: seq<Pair>, name: string): Option<string> {
    if list == [] then None
    else if list[0].0 == name then Some(list[0].1)
    else Get(list[1..], name)
  }

  /** `searchParams.set(name, value)`: when pairs named `name` exist, the first
      one takes `value` and the others are removed; otherwise the pair is
      appended. */
  function SetParam(list: seq<Pair>, name: string, value: string): seq<Pair> {
    if list == [] then [(name, value)]
    else if list[0].0 == name then [(name, value)] + Without(list[1..], name)
    else [list[0]] + SetParam(list[1..], name, value)
  }

  lemma {:induction false} NamedWithout(list: seq<Pair>, name: string, other: string)
    ensures Named(Without(list, name), other) == if other == name then [] else Named(list, other)
  {
    if list != [] {
      NamedWithout(list[1..], name, other);
      if list[0].0 != name {
        assert ([list[0]] + Without(list[1..], name))[1..] == Without(list[1..], name);
      }
    }
  }

  /** After `set`, exactly one pair carries `name` and its value is `value`;
      the pairs of every other name are kept, in their order. */
  lemma {:induction false} SetParamReplaces(list: seq<Pair>, name: string, value: string)
    ensures Named(SetParam(list, name, value), name) == [(name, value)]
    ensures forall other :: other != name ==> Named(SetParam(list, name, value), other) == Named(list, other)
    ensures Get(SetParam(list, name, value), name) == Some(value)
  {
    var r := SetParam(list, name, value);
    if list == [] {
    } else if list[0].0 == name {
      assert r[1..] == Without(list[1..], name);
      NamedWithout(list[1..], name, name);
      forall other | other != name
        ensures Named(r, other) == Named(list, other)
      {
        NamedWithout(list[1..], name, other);
      }
    } else {
      SetParamReplaces(list[1..], name, value);
      assert r[1..] == SetParam(list[1..], name, value);
    }
  }

  /** `set` on a name that is absent appends; on a list without duplicates it
      keeps every other pair where it was. */
  lemma {:induction false} SetParamAbsent(list: seq<Pair>, name: string, value: string)
    requires !HasName(list, name)
    ensures SetParam(list, name, value) == list + [(name, value)]
  {
    if list != [] {
      assert !HasName(list[1..], name) by {
        forall i | 0 <= i < |list[1..]| ensures list[1..][i].0 != name {
          assert list[1..][i] == list[i + 1];
        }
      }
      SetParamAbsent(list[1..], name, value);
      assert list == [list[0]] + list[1..];
    }
  }

  /** The three `set` calls the modelled code makes on a fresh URL give three
      pairs in call order, one per name. */
  lemma ThreeSets(a: string, x: string, b: string, y: string, c: string, z: string)
    requires a != b && b != c && a != c
    ensures SetParam(SetParam(SetParam([], a, x), b, y), c, z) == [(a, x), (b, y), (c, z)]
  {
    SetParamAbsent([(a, x)], b, y);
    assert !HasName([(a, x), (b, y)], c) by {
      forall i | 0 <= i < 2 ensures [(a, x), (b, y)][i].0 != c {}
    }
    SetParamAbsent([(a, x), (b, y)], c, z);
  }

  /** The query object of a URL, updated in place by `Set`. */
  class SearchParams {
    var list: seq<Pair>

    /** The search parameters of a URL whose text carries no query. */
    constructor ()
      ensures list == []
    {
      list := [];
    }

    /** URLSearchParams.set: walks the list once, replacing the first pair
        named `name` and dropping later ones, and appends when none matched. */
    method Set(name: string, value: string)
      modifies this
      ensures list == SetParam(old(list), name, value)
    {
      var result: seq<Pair> := [];
      var found := false;
      var i := 0;
      while i < |list|
        invariant 0 <= i <= |list|
        invariant found ==> result + Without(list[i..], name) == SetParam(list, name, value)
        invariant !found ==> result + SetParam(list[i..], name, value) == SetParam(list, name, value)
      {
        assert list[i..] == [list[i]] + list[i + 1..];
        if list[i].0 == name {
          if !found {
            result := result + [(name, value)];
            found := true;
          }
        } else {
          result := result + [list[i]];
        }
        i := i + 1;
      }
      if !found {
        result := result + [(name, value)];
      }
      list := result;
    }
  }
}
