/** The list query builder: `ListResource` appends `key=value` filters to a
    resource URL in place and finally issues a GET on it. */
module Resources {
  import opened Php
  import opened Managers

  /** `strpos($s, $c)`: the index of the first occurrence, if any. */
  function StrPos(s: string, c: char): (r: Option<nat>)
    ensures r.None? <==> c !in s
    ensures r.Some? ==> r.value < |s| && s[r.value] == c && forall j :: 0 <= j < r.value ==> s[j] != c
  {
    if s == [] then None
    else if s[0] == c then Some(0)
    else match StrPos(s[1..], c)
      case None => None
      case Some(i) => Some(i + 1)
  }

  /** The separator `addFilter` picks: `if (strpos($url, '?'))` is false both
      when there is no '?' and when the first '?' is at index 0. */
  function Separator(url: string): char
  {
    var pos := StrPos(url, '?');
    if pos.Some? && pos.value != 0 then '&' else '?'
  }

  /** The separator is '&' exactly when the URL contains a '?' and does not
      start with one. */
  lemma SeparatorIsAmpersandIff(url: string)
    ensures Separator(url) == '&' <==> ('?' in url && url[0] != '?')
  {
  }

  function Pair(key: string, value: string): string
  {
    key + "=" + value
  }

  /** The URL after one `addFilter($key, $value)`. */
  function WithFilter(url: string, key: string, value: string): (r: string)
    ensures url <= r
  {
    url + [Separator(url)] + Pair(key, value)
  }

  /** The URL after the filters `fs`, applied in turn. */
  function WithFilters(url: string, fs: seq<(string, string)>): string
    decreases |fs|
  {
    if fs == [] then url else WithFilters(WithFilter(url, fs[0].0, fs[0].1), fs[1..])
  }

  /** "&k=v" for each of `fs`. */
  function AndPairs(fs: seq<(string, string)>): string
  {
    if fs == [] then "" else "&" + Pair(fs[0].0, fs[0].1) + AndPairs(fs[1..])
  }

  /** Once the URL has a query (a '?' not at index 0), every further
      filter is joined with '&'. */
  lemma {:induction false} FiltersOnQuery(url: string, fs: seq<(string, string)>)
    requires '?' in url && url[0] != '?'
    ensures WithFilters(url, fs) == url + AndPairs(fs)
    decreases |fs|
  {
    if fs != [] {
      SeparatorIsAmpersandIff(url);
      var next := WithFilter(url, fs[0].0, fs[0].1);
      assert next[0] == url[0];
      FiltersOnQuery(next, fs[1..]);
    }
  }

  /** A non-empty base URL without '?' and filters k1=v1, k2=v2, ... give
      base?k1=v1&k2=v2...: exactly one '?' is inserted, the rest are '&'. */
  lemma {:induction false} FiltersOnPlainBase(base: string, fs: seq<(string, string)>)
    requires base != [] && '?' !in base && fs != []
    ensures WithFilters(base, fs) == base + "?" + Pair(fs[0].0, fs[0].1) + AndPairs(fs[1..])
  {
    SeparatorIsAmpersandIff(base);
    var first := WithFilter(base, fs[0].0, fs[0].1);
    assert first[|base|] == '?';
    assert first[0] == base[0];
    FiltersOnQuery(first, fs[1..]);
  }

  lemma TwoFilters(url: string, k1: string, v1: string, k2: string, v2: string)
    ensures WithFilters(url, [(k1, v1), (k2, v2)]) == WithFilter(WithFilter(url, k1, v1), k2, v2)
  {
    var fs := [(k1, v1), (k2, v2)];
    var once := WithFilter(url, k1, v1);
    assert fs[1..] == [(k2, v2)];
    assert WithFilters(url, fs) == WithFilters(once, [(k2, v2)]);
    assert [(k2, v2)][1..] == [];
    assert WithFilters(once, [(k2, v2)]) == WithFilters(WithFilter(once, k2, v2), []);
  }

  class ListResource {
    var url: string

    /** Stores the base URL unchanged. */
    constructor (url: string)
      ensures this.url == url
    {
      this.url := url;
    }

    /** `addFilter($key, $value)`: appends `sep key=value` and returns the
        same object. */
    method AddFilter(key: string, value: string) returns (self: ListResource)
      modifies this
      ensures url == WithFilter(old(url), key, value) && old(url) <= url
      ensures self == this
    {
      var pos := StrPos(url, '?');
      if pos.Some? && pos.value != 0 {
        url := url + "&" + key + "=" + value;
      } else {
        url := url + "?" + key + "=" + value;
      }
      self := this;
    }

    /** `paginate($page = 1, $page_size = 10)`: `page` first, then `page_size`. */
    method Paginate(page: int := 1, pageSize: int := 10) returns (self: ListResource)
      modifies this
      ensures url == WithFilters(old(url), [("page", IntToString(page)), ("page_size", IntToString(pageSize))])
      ensures self == this
    {
      var _ := AddFilter("page", IntToString(page));
      var _ := AddFilter("page_size", IntToString(pageSize));
      TwoFilters(old(url), "page", IntToString(page), "page_size", IntToString(pageSize));
      self := this;
    }

    /** `search($search)`: the fixed key `search`. */
    method Search(term: string) returns (self: ListResource)
      modifies this
      ensures url == WithFilter(old(url), "search", term)
      ensures self == this
    {
      self := AddFilter("search", term);
    }

    /** `expand($resource_name)`: the fixed key `expand`. */
    method Expand(resourceName: string) returns (self: ListResource)
      modifies this
      ensures url == WithFilter(old(url), "expand", resourceName)
      ensures self == this
    {
      self := AddFilter("expand", resourceName);
    }

    /** `getJson()`: a GET on the accumulated URL with no options; the URL
        is left as it is. */
    method GetJson(cfg: Config, outcome: Outcome) returns (r: Result<Value, Failure>, sent: Option<Request>)
      ensures sent == Sent(cfg, GET, url, Null)
      ensures sent.Some? ==> sent.value.options.None?
      ensures r == Response(cfg, outcome)
    {
      r, sent := Call(cfg, GET, url, Null, outcome);
    }
  }

  /** `paginate($page, $page_size)` on a base URL without a query yields
      base?page=<page>&page_size=<page_size>. */
  lemma PaginateOnPlainBase(base: string, page: int, pageSize: int)
    requires base != [] && '?' !in base
    ensures WithFilters(base, [("page", IntToString(page)), ("page_size", IntToString(pageSize))])
         == base + "?page=" + IntToString(page) + "&page_size=" + IntToString(pageSize)
  {
    var p, s := IntToString(page), IntToString(pageSize);
    TwoFiltersOnPlainBase(base, "page", p, "page_size", s);
    PageQuery(base, p, s);
  }

  /** The two filters `paginate` adds, spelled out. */
  lemma PageQuery(base: string, p: string, s: string)
    ensures base + "?" + Pair("page", p) + "&" + Pair("page_size", s) == base + "?page=" + p + "&page_size=" + s
  {
    assert "?" + Pair("page", p) == "?page=" + p;
    assert "&" + Pair("page_size", s) == "&page_size=" + s;
    assert base + "?" + Pair("page", p) == base + ("?" + Pair("page", p));
    assert base + "?page=" + p == base + ("?page=" + p);
    assert base + "?page=" + p + "&" + Pair("page_size", s) == base + "?page=" + p + ("&" + Pair("page_size", s));
    assert base + "?page=" + p + "&page_size=" + s == base + "?page=" + p + ("&page_size=" + s);
  }

  lemma OnePair(k: string, v: string)
    ensures AndPairs([(k, v)]) == "&" + Pair(k, v)
  {
    assert [(k, v)][1..] == [];
    assert AndPairs([(k, v)]) == "&" + Pair(k, v) + AndPairs([]);
  }

  lemma TwoFiltersOnPlainBase(base: string, k1: string, v1: string, k2: string, v2: string)
    requires base != [] && '?' !in base
    ensures WithFilters(base, [(k1, v1), (k2, v2)]) == base + "?" + Pair(k1, v1) + "&" + Pair(k2, v2)
  {
    var fs := [(k1, v1), (k2, v2)];
    var tail := [(k2, v2)];
    FiltersOnPlainBase(base, fs);
    assert fs[1..] == tail;
    OnePair(k2, v2);
    assert base + "?" + Pair(k1, v1) + "&" + Pair(k2, v2) == base + "?" + Pair(k1, v1) + ("&" + Pair(k2, v2));
  }
}
