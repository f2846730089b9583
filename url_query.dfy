/** `URLSearchParams.get` as the login and sign-up pages use it through
    `useSearchParams()`: the query of a URL split at `&`, each pair split at
    its first `=`, and the value of the first pair with the wanted name.
    Percent-decoding and `+` are not modelled. */
module UrlQuery {
  import opened JsText

  /** The query of a URL: the text after its first `?`. */
  function QueryOf(href: string): string {
    AfterFirst(href, '?')
  }

  /** The index of the first pair named `name`. */
  function FirstIndex(pairs: seq<string>, name: string): (k: Option<nat>)
    ensures k.Some? ==> k.value < |pairs| && BeforeFirst(pairs[k.value], '=') == name
                        && (forall j :: 0 <= j < k.value ==> BeforeFirst(pairs[j], '=') != name)
    ensures k.None? ==> forall j :: 0 <= j < |pairs| ==> BeforeFirst(pairs[j], '=') != name
  {
    if pairs == [] then None
    else if BeforeFirst(pairs[0], '=') == name then Some(0)
    else
      var rest := FirstIndex(pairs[1..], name);
      assert forall i :: 1 <= i < |pairs| ==> pairs[i] == pairs[1..][i - 1];
      if rest.Some? then Some(rest.value + 1) else None
  }

  /** The value of the first pair named `name`; a pair with no `=` has the
      empty value. */
  function FirstValue(pairs: seq<string>, name: string): (v: Option<string>)
    ensures v.None? <==> forall i :: 0 <= i < |pairs| ==> BeforeFirst(pairs[i], '=') != name
    ensures v.Some? ==> exists i :: 0 <= i < |pairs| && BeforeFirst(pairs[i], '=') == name
                                  && v.value == AfterFirst(pairs[i], '=')
                                  && (forall j :: 0 <= j < i ==> BeforeFirst(pairs[j], '=') != name)
  {
    match FirstIndex(pairs, name)
    case None => None
    case Some(k) => Some(AfterFirst(pairs[k], '='))
  }

  /** `new URL(href).searchParams.get(name)`. */
  function SearchParam(href: string, name: string): Option<string> {
    FirstValue(Split(QueryOf(href), '&'), name)
  }

  /** The query of `path?query` is `query` when the path has no `?`. */
  lemma QueryOfJoin(path: string, query: string)
    requires '?' !in path
    ensures QueryOf(path + "?" + query) == query
  {
    BeforeFirstPrefix(path, "?" + query, '?');
    assert path + "?" + query == path + ("?" + query);
  }

  /** The pair `name=value` splits back into `name` and `value`. */
  lemma PairParts(name: string, value: string)
    requires '=' !in name
    ensures BeforeFirst(name + "=" + value, '=') == name
    ensures AfterFirst(name + "=" + value, '=') == value
  {
    BeforeFirstPrefix(name, "=" + value, '=');
    assert name + "=" + value == name + ("=" + value);
  }

  /** A URL built as `path?name=value` yields `value` back for `name` and
      nothing for any other name, when neither the path has a `?` nor the
      value an `&`. */
  lemma SingleParamRoundTrip(path: string, name: string, value: string, other: string)
    requires '?' !in path && '=' !in name && '&' !in name && '&' !in value
    requires other != name
    ensures SearchParam(path + "?" + name + "=" + value, name) == Some(value)
    ensures SearchParam(path + "?" + name + "=" + value, other) == None
  {
    var pair := name + "=" + value;
    QueryOfJoin(path, pair);
    assert path + "?" + name + "=" + value == path + "?" + pair;
    assert '&' !in pair;
    assert Split(pair, '&') == [pair];
    PairParts(name, value);
  }
}
