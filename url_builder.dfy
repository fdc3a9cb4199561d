/** The fluent `URLBuilder`: five fields set by chained setters, and two
    routines that assemble them into a URL string or a URL-components
    record, or report absence when the host or the path is unset. */
module Builder {
  import opened Query

  datatype Option<T> = None | Some(value: T)

  /** One name/value pair of a query, as Foundation's `URLQueryItem` holds it. */
  datatype QueryItem = QueryItem(name: string, value: string)

  /** The fields of Foundation's `URLComponents` that the builder fills in. */
  datatype URLComponents = URLComponents(
    scheme: string,
    host: string,
    path: string,
    queryItems: seq<QueryItem>)

  /** The builder's state at one moment: its five fields, and the order in
      which the dictionary `keyValues` currently enumerates its keys. */
  datatype Snapshot = Snapshot(
    isHttps: bool,
    scheme: Option<string>,
    host: Option<string>,
    path: Option<string>,
    keyValues: map<string, string>,
    order: seq<string>)
  {
    predicate Valid()
    {
      IsOrderOf(order, keyValues)
    }
  }

  /** The effective scheme: the custom one when it is set and HTTPS is off,
      otherwise `https` or `http` as the flag says. */
  function ProtocolOnly(isHttps: bool, scheme: Option<string>): (r: string)
    ensures scheme.Some? && !isHttps ==> r == scheme.value
    ensures isHttps ==> r == "https"
    ensures scheme.None? && !isHttps ==> r == "http"
  {
    if scheme.Some? && !isHttps then scheme.value
    else if isHttps then "https" else "http"
  }

  /** The effective scheme followed by `://`. */
  function Protocol(isHttps: bool, scheme: Option<string>): (r: string)
    ensures |r| == |ProtocolOnly(isHttps, scheme)| + 3
    ensures r[..|r| - 3] == ProtocolOnly(isHttps, scheme) && r[|r| - 3..] == "://"
  {
    ProtocolOnly(isHttps, scheme) + "://"
  }

  /** `path.deletingPrefix("/")`: one leading `/` removed, if there is one. */
  function DeletingSlashPrefix(path: string): (r: string)
    ensures if |path| > 0 && path[0] == '/' then "/" + r == path else r == path
  {
    if |path| > 0 && path[0] == '/' then path[1..] else path
  }

  /** The path as the URL string carries it: with one leading `/` dropped
      when the host is empty, unchanged otherwise. */
  function ModifiedPath(host: string, path: string): (r: string)
    ensures |host| > 0 ==> r == path
    ensures |host| == 0 && |path| > 0 && path[0] == '/' ==> "/" + r == path
    ensures |host| == 0 && (|path| == 0 || path[0] != '/') ==> r == path
  {
    if |host| == 0 then DeletingSlashPrefix(path) else path
  }

  /** One query entry as the string form writes it. */
  function Entry(key: string, value: string): (r: string)
    ensures |r| == |key| + 1 + |value|
    ensures r[..|key|] == key && r[|key|] == '=' && r[|key| + 1..] == value
  {
    key + "=" + value
  }

  /** Every key of `keys` is a key of `m`. */
  predicate AllIn(keys: seq<string>, m: map<string, string>)
  {
    forall i :: 0 <= i < |keys| ==> keys[i] in m
  }

  /** The `key=value` entries of `m`, in the order of `keys`. */
  function Entries(keys: seq<string>, m: map<string, string>): (entries: seq<string>)
    requires AllIn(keys, m)
  {
    seq(|keys|, i requires 0 <= i < |keys| => Entry(keys[i], m[keys[i]]))
  }

  /** The query items of `m`, in the order of `keys`. */
  function Items(keys: seq<string>, m: map<string, string>): (items: seq<QueryItem>)
    requires AllIn(keys, m)
  {
    seq(|keys|, i requires 0 <= i < |keys| => QueryItem(keys[i], m[keys[i]]))
  }

  /** The text of a query item, as the string form writes the same entry. */
  function ItemTexts(items: seq<QueryItem>): (texts: seq<string>)
  {
    seq(|items|, i requires 0 <= i < |items| => Entry(items[i].name, items[i].value))
  }

  /** The keys in the order both assembly routines visit them: the
      dictionary's iteration order, reversed. */
  function VisitOrder(s: Snapshot): (r: seq<string>)
    requires s.Valid()
    ensures |r| == |s.keyValues| && AllIn(r, s.keyValues)
  {
    Reversed(s.order)
  }

  /** The part of the URL string after `?`. */
  function QueryPart(s: Snapshot): (query: string)
    requires s.Valid()
  {
    Join(Entries(VisitOrder(s), s.keyValues))
  }

  /** Everything the string form writes before the query: the scheme and
      `://`, the host, the path, and `?`. */
  function Head(isHttps: bool, scheme: Option<string>, host: string, path: string): (head: string)
  {
    Protocol(isHttps, scheme) + host + ModifiedPath(host, path) + "?"
  }

  /** What `toString` returns for the state `s`. */
  function Render(s: Snapshot): (r: Option<string>)
    requires s.Valid()
    ensures r.None? <==> s.host.None? || s.path.None?
  {
    if s.host.None? || s.path.None? then None
    else Some(Head(s.isHttps, s.scheme, s.host.value, s.path.value) + QueryPart(s))
  }

  /** What `toUrlComponents` returns for the state `s`. */
  function Components(s: Snapshot): (r: Option<URLComponents>)
    requires s.Valid()
    ensures r.None? <==> s.host.None? || s.path.None?
    ensures r.Some? ==>
      && r.value.scheme == ProtocolOnly(s.isHttps, s.scheme)
      && r.value.host == s.host.value
      && r.value.path == s.path.value
  {
    if s.host.None? || s.path.None? then None
    else Some(URLComponents(ProtocolOnly(s.isHttps, s.scheme), s.host.value, s.path.value,
                            Items(VisitOrder(s), s.keyValues)))
  }

  /** The query is empty exactly when the dictionary is, so an empty
      dictionary leaves the URL string ending in `?`. */
  lemma QueryEmptyIff(s: Snapshot)
    requires s.Valid()
    ensures QueryPart(s) == "" <==> |s.keyValues| == 0
    ensures |s.keyValues| == 0 && s.host.Some? && s.path.Some? ==>
      Render(s).value[|Render(s).value| - 1] == '?'
  {
  }

  /** The query holds one separator fewer than the dictionary has entries,
      beyond those its keys and values hold themselves. */
  lemma QuerySeparatorCount(s: Snapshot)
    requires s.Valid() && |s.keyValues| > 0
    ensures Count(QueryPart(s), '&')
      == CountAll(Entries(VisitOrder(s), s.keyValues), '&') + |s.keyValues| - 1
  {
    JoinSeparators(Entries(VisitOrder(s), s.keyValues));
  }

  /** When no key or value holds `&`, cutting the query at each `&` gives
      back exactly one `key=value` entry per dictionary entry, in the
      reversed iteration order. */
  lemma QuerySplitsIntoEntries(s: Snapshot)
    requires s.Valid() && |s.keyValues| > 0
    requires forall k :: k in s.keyValues ==> '&' !in k && '&' !in s.keyValues[k]
    ensures Split(QueryPart(s)) == Entries(VisitOrder(s), s.keyValues)
    ensures |Split(QueryPart(s))| == |s.keyValues|
    ensures forall i :: 0 <= i < |s.keyValues| ==>
      var k := VisitOrder(s)[i]; Split(QueryPart(s))[i] == k + "=" + s.keyValues[k]
  {
    var keys := VisitOrder(s);
    var parts := Entries(keys, s.keyValues);
    SplitJoin(parts);
  }

  /** The query items name every dictionary entry once, each with its value. */
  lemma ItemsCoverMap(s: Snapshot)
    requires s.Valid() && Components(s).Some?
    ensures var items := Components(s).value.queryItems;
      && |items| == |s.keyValues|
      && (forall i :: 0 <= i < |items| ==>
            items[i].name in s.keyValues && s.keyValues[items[i].name] == items[i].value)
      && (forall i, j :: 0 <= i < j < |items| ==> items[i].name != items[j].name)
      && (forall k :: k in s.keyValues ==> exists i :: 0 <= i < |items| && items[i].name == k)
  {
    var keys := VisitOrder(s);
    ReversedIsOrder(s.order, s.keyValues);
    var items := Components(s).value.queryItems;
    forall k | k in s.keyValues
      ensures exists i :: 0 <= i < |items| && items[i].name == k
    {
      var i :| 0 <= i < |keys| && keys[i] == k;
      assert items[i].name == k;
    }
  }

  /** Both routines succeed or fail together, and the string is the record
      written out: its scheme, `://`, its host, its path (less a leading `/`
      when the host is empty), `?`, and its query items in the same order. */
  lemma StringMatchesComponents(s: Snapshot)
    requires s.Valid()
    ensures Render(s).Some? <==> Components(s).Some?
    ensures Components(s).Some? ==>
      var c := Components(s).value;
      Render(s).value == c.scheme + "://" + c.host + ModifiedPath(c.host, c.path) + "?"
        + Join(ItemTexts(c.queryItems))
  {
    if Components(s).Some? {
      var c := Components(s).value;
      assert ItemTexts(c.queryItems) == Entries(VisitOrder(s), s.keyValues);
    }
  }

  /** The loop of `toString` that appends the query: for each key in
      `entries`, `key=value`, followed by `&` unless the running index
      `keyIndex` has reached the dictionary's size. */
  method AppendQuery(result: string, entries: seq<string>, kv: map<string, string>)
    returns (out: string)
    requires AllIn(entries, kv) && |entries| == |kv|
    ensures out == result + Join(Entries(entries, kv))
  {
    out := result;
    ghost var parts := Entries(entries, kv);
    var keyIndex := 1;
    var i := 0;
    while i < |entries|
      invariant 0 <= i <= |entries| == |parts| == |kv|
      invariant keyIndex == i + 1
      invariant out == result + Written(parts, i)
    {
      var key := entries[i];
      var text := if |kv| == keyIndex then Entry(key, kv[key]) else Entry(key, kv[key]) + "&";
      assert text == parts[i] + SepAfter(i, |parts|);
      WrittenStep(result, parts, i, text);
      out := out + text;
      keyIndex := keyIndex + 1;
      i := i + 1;
    }
    WrittenAll(parts);
  }

  /** The two possible iteration orders of a two-entry dictionary. */
  lemma OrdersOfTwo(order: seq<string>)
    requires IsOrderOf(order, map["a" := "1", "b" := "2"])
    ensures order == ["a", "b"] || order == ["b", "a"]
  {
    assert "a" in order && "b" in order;
    if order[0] == "a" {
      assert order[1] != "a";
    } else {
      assert order[0] == "b" && order[1] != "b";
    }
  }

  lemma ExampleHead()
    ensures Head(true, None, "example.com", "/search") == "https://example.com/search?"
  {
  }

  /** The URL string of the two-parameter example, for one iteration order. */
  lemma TwoParamsRendered(first: string, second: string)
    requires (first, second) == ("a", "b") || (first, second) == ("b", "a")
    ensures var m := map["a" := "1", "b" := "2"];
      Render(Snapshot(true, None, Some("example.com"), Some("/search"), m, [first, second]))
        == Some("https://example.com/search?" + (Entry(second, m[second]) + "&" + Entry(first, m[first])))
  {
    var m := map["a" := "1", "b" := "2"];
    var s := Snapshot(true, None, Some("example.com"), Some("/search"), m, [first, second]);
    ExampleHead();
    assert VisitOrder(s) == [second, first];
    var parts := Entries(VisitOrder(s), m);
    assert parts == [Entry(second, m[second]), Entry(first, m[first])];
    assert parts[..1] == [parts[0]];
    assert Join(parts[..1]) == parts[0];
    assert Join(parts) == parts[0] + "&" + parts[1];
    assert QueryPart(s) == Join(parts);
    assert Render(s) == Some("https://example.com/search?" + (parts[0] + "&" + parts[1]));
  }

  /** With two parameters the query lists them in whichever order the
      dictionary reverses: the string is one of exactly two. */
  lemma TwoParamsExample(order: seq<string>)
    requires IsOrderOf(order, map["a" := "1", "b" := "2"])
    ensures var s := Snapshot(true, None, Some("example.com"), Some("/search"),
                              map["a" := "1", "b" := "2"], order);
      || Render(s) == Some("https://example.com/search?b=2&a=1")
      || Render(s) == Some("https://example.com/search?a=1&b=2")
  {
    OrdersOfTwo(order);
    if order == ["a", "b"] {
      TwoParamsRendered("a", "b");
      assert Entry("b", "2") == "b=2" && Entry("a", "1") == "a=1";
      assert "https://example.com/search?" + ("b=2" + "&" + "a=1")
        == "https://example.com/search?b=2&a=1";
    } else {
      TwoParamsRendered("b", "a");
      assert Entry("b", "2") == "b=2" && Entry("a", "1") == "a=1";
      assert "https://example.com/search?" + ("a=1" + "&" + "b=2")
        == "https://example.com/search?a=1&b=2";
    }
  }

  /** An empty host drops the path's leading slash. */
  lemma EmptyHostExample()
    ensures Render(Snapshot(true, None, Some(""), Some("/p"), map[], [])) == Some("https://p?")
  {
    var s := Snapshot(true, None, Some(""), Some("/p"), map[], []);
    assert Entries(VisitOrder(s), map[]) == [];
    assert ModifiedPath("", "/p") == "p";
    assert Protocol(true, None) == "https://";
    assert Head(true, None, "", "/p") == "https://" + "" + "p" + "?" == "https://p?";
    assert QueryPart(s) == "";
    assert Render(s) == Some("https://p?" + "");
    assert "https://p?" + "" == "https://p?";
  }

  /** Enumerates the keys of `m` in an unspecified order, as a Swift
      `Dictionary` does after each mutation. */
  method EnumerateKeys(m: map<string, string>) returns (order: seq<string>)
    ensures IsOrderOf(order, m)
  {
    var rest := m.Keys;
    order := [];
    while rest != {}
      invariant rest <= m.Keys
      invariant NoDups(order)
      invariant forall k :: k in order ==> k in m && k !in rest
      invariant forall k :: k in m ==> k in order || k in rest
      invariant |order| + |rest| == |m|
      decreases rest
    {
      var k :| k in rest;
      order := order + [k];
      rest := rest - {k};
    }
  }

  class URLBuilder {
    var isHttps: bool
    var scheme: Option<string>
    var host: Option<string>
    var path: Option<string>
    var keyValues: map<string, string>
    /** The order in which `keyValues` currently enumerates its keys. */
    var order: seq<string>

    function State(): Snapshot
      reads this
    {
      Snapshot(isHttps, scheme, host, path, keyValues, order)
    }

    predicate Valid()
      reads this
    {
      State().Valid()
    }

    constructor ()
      ensures Valid()
      ensures isHttps && scheme.None? && host.None? && path.None? && keyValues == map[]
      ensures ProtocolOnly(isHttps, scheme) == "https"
    {
      isHttps := true;
      scheme := None;
      host := None;
      path := None;
      keyValues := map[];
      order := [];
    }

    method WithScheme(s: string) returns (b: URLBuilder)
      requires Valid()
      modifies this
      ensures b == this && Valid()
      ensures !isHttps && scheme == Some(s)
      ensures ProtocolOnly(isHttps, scheme) == s
      ensures host == old(host) && path == old(path)
      ensures keyValues == old(keyValues) && order == old(order)
    {
      isHttps := false;
      scheme := Some(s);
      b := this;
    }

    method WithHttp() returns (b: URLBuilder)
      requires Valid()
      modifies this
      ensures b == this && Valid()
      ensures !isHttps && scheme == old(scheme)
      ensures ProtocolOnly(isHttps, scheme)
        == if old(scheme).Some? then old(scheme).value else "http"
      ensures host == old(host) && path == old(path)
      ensures keyValues == old(keyValues) && order == old(order)
    {
      isHttps := false;
      b := this;
    }

    method WithHost(h: string) returns (b: URLBuilder)
      requires Valid()
      modifies this
      ensures b == this && Valid()
      ensures State() == old(State()).(host := Some(h))
    {
      host := Some(h);
      b := this;
    }

    method WithPath(p: string) returns (b: URLBuilder)
      requires Valid()
      modifies this
      ensures b == this && Valid()
      ensures State() == old(State()).(path := Some(p))
    {
      path := Some(p);
      b := this;
    }

    method WithParam(key: string, value: string) returns (b: URLBuilder)
      requires Valid()
      modifies this
      ensures b == this && Valid()
      ensures keyValues == old(keyValues)[key := value]
      ensures key in keyValues && keyValues[key] == value
      ensures forall k :: k in old(keyValues) && k != key ==>
        k in keyValues && keyValues[k] == old(keyValues)[k]
      ensures isHttps == old(isHttps) && scheme == old(scheme)
      ensures host == old(host) && path == old(path)
    {
      keyValues := keyValues[key := value];
      order := EnumerateKeys(keyValues);
      b := this;
    }

    method WithParams(m: map<string, string>) returns (b: URLBuilder)
      requires Valid()
      modifies this
      ensures b == this && Valid()
      ensures keyValues == m
      ensures isHttps == old(isHttps) && scheme == old(scheme)
      ensures host == old(host) && path == old(path)
    {
      keyValues := m;
      order := EnumerateKeys(keyValues);
      b := this;
    }

    method ToUrlComponents() returns (r: Option<URLComponents>)
      requires Valid()
      ensures r == Components(State())
    {
      if host.None? || path.None? {
        return None;
      }
      var entries := VisitOrder(State());
      var items: seq<QueryItem> := [];
      var i := 0;
      while i < |entries|
        invariant 0 <= i <= |entries|
        invariant items == Items(entries[..i], keyValues)
      {
        var key := entries[i];
        items := items + [QueryItem(key, keyValues[key])];
        i := i + 1;
      }
      assert entries[..i] == entries;
      r := Some(URLComponents(ProtocolOnly(isHttps, scheme), host.value, path.value, items));
    }

    method ToString() returns (r: Option<string>)
      requires Valid()
      ensures r == Render(State())
    {
      if host.None? || path.None? {
        return None;
      }
      ghost var st := State();
      var h, p := host.value, path.value;
      var modifiedPath := p;
      if |h| == 0 {
        modifiedPath := DeletingSlashPrefix(p);
      }
      var result := "";
      result := result + Protocol(isHttps, scheme);
      result := result + h;
      result := result + (modifiedPath + "?");
      assert result == Head(st.isHttps, st.scheme, h, p) by {
        assert modifiedPath == ModifiedPath(h, p);
      }
      result := AppendQuery(result, VisitOrder(State()), keyValues);
      r := Some(result);
    }

    /** `build()` for the `URL` output: the string form, kept only when
        `parses` accepts it as a URL. */
    method BuildURL(parses: string -> bool) returns (r: Option<string>)
      requires Valid()
      ensures r.Some? <==> Render(State()).Some? && parses(Render(State()).value)
      ensures r.Some? ==> r == Render(State())
    {
      var s := ToString();
      if s.None? {
        return None;
      }
      r := if parses(s.value) then s else None;
    }

    /** `build()` for the `URLComponents` output. */
    method BuildComponents() returns (r: Option<URLComponents>)
      requires Valid()
      ensures r == Components(State())
    {
      r := ToUrlComponents();
    }

    /** `build()` for the `String` output. */
    method BuildString() returns (r: Option<string>)
      requires Valid()
      ensures r == Render(State())
    {
      r := ToString();
    }
  }
}
