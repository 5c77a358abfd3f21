/**
  The part of `URLComponents` the engine relies on, worked on the text of a
  URL: the query is what follows the first '?' up to the first '#', its items
  are separated by '&', and an item's name is what precedes its first '='
  (an item without '=' has a name and no value). Beside it, the way the
  engine appends a parameter: with '&' when the URL already contains '?',
  with '?' otherwise.
*/
module Query {
  import opened Options

  /** The index of the first `c` in `s`, or |s| when `s` has none. */
  function IndexOf(s: string, c: char): (i: nat)
    ensures i <= |s|
    ensures i < |s| ==> s[i] == c
    ensures forall j :: 0 <= j < i ==> s[j] != c
  {
    if s == [] || s[0] == c then 0 else 1 + IndexOf(s[1..], c)
  }

  lemma {:induction false} IndexOfAppend(a: string, b: string, c: char)
    ensures IndexOf(a + b, c) == if c in a then IndexOf(a, c) else |a| + IndexOf(b, c)
  {
    if a != [] && a[0] != c {
      assert (a + b)[1..] == a[1..] + b;
      IndexOfAppend(a[1..], b, c);
    } else if a != [] {
      assert (a + b)[0] == c;
    } else {
      assert a + b == b;
    }
  }

  /** The query component, if the URL has one. */
  function QueryOf(url: string): Option<string> {
    var beforeFragment := url[..IndexOf(url, '#')];
    var mark := IndexOf(beforeFragment, '?');
    if mark == |beforeFragment| then None else Some(beforeFragment[mark + 1..])
  }

  /** The query cut at every '&'. */
  function Split(query: string): (items: seq<string>)
    ensures |items| >= 1
    decreases |query|
  {
    var i := IndexOf(query, '&');
    if i == |query| then [query] else [query[..i]] + Split(query[i + 1..])
  }

  function ItemName(item: string): string {
    item[..IndexOf(item, '=')]
  }

  function ItemValue(item: string): Option<string> {
    var i := IndexOf(item, '=');
    if i == |item| then None else Some(item[i + 1..])
  }

  /**
    `items.first(where: { $0.name == name })?.value`, keeping apart "no such
    item" (None) and "an item without a value" (Some(None)).
  */
  function FirstItem(items: seq<string>, name: string): (r: Option<Option<string>>)
    ensures r.None? ==> forall k :: 0 <= k < |items| ==> ItemName(items[k]) != name
    ensures r.Some? ==> exists k :: 0 <= k < |items| && ItemName(items[k]) == name && r.value == ItemValue(items[k]) &&
                                    forall j :: 0 <= j < k ==> ItemName(items[j]) != name
  {
    if items == [] then None
    else if ItemName(items[0]) == name then Some(ItemValue(items[0]))
    else
      var r := FirstItem(items[1..], name);
      assert r.Some? ==> exists k :: 1 <= k < |items| && ItemName(items[k]) == name && r.value == ItemValue(items[k]) &&
                                     forall j :: 0 <= j < k ==> ItemName(items[j]) != name by {
        if r.Some? {
          var k :| 0 <= k < |items[1..]| && ItemName(items[1..][k]) == name && r.value == ItemValue(items[1..][k]) &&
                   forall j :: 0 <= j < k ==> ItemName(items[1..][j]) != name;
          assert items[1..][k] == items[k + 1];
          forall j | 0 <= j < k + 1
            ensures ItemName(items[j]) != name
          {
            if j > 0 {
              assert items[j] == items[1..][j - 1];
            }
          }
        }
      }
      r
  }

  /** The query item called `name` of a URL, as `URLComponents.queryItems` reports it. */
  function Lookup(url: string, name: string): Option<Option<string>> {
    match QueryOf(url)
    case None => None
    case Some(query) => FirstItem(Split(query), name)
  }

  /** The query item `name=value`. */
  function Item(name: string, value: string): string {
    name + "=" + value
  }

  /** `"\(url)&name=value"` if the URL already contains '?', else `"\(url)?name=value"`. */
  function WithItem(url: string, name: string, value: string): string {
    url + [if '?' in url then '&' else '?'] + Item(name, value)
  }

  /** A text that cannot end a query item or the query: no '&', '=' or '#'. */
  predicate IsPlainToken(s: string) {
    '&' !in s && '=' !in s && '#' !in s
  }

  /** A text that stays one item's value: no '&' or '#' (an '=' after the first is part of the value). */
  predicate IsPlainValue(s: string) {
    '&' !in s && '#' !in s
  }

  lemma {:induction false} SplitAppend(query: string, rest: string)
    ensures Split(query + ['&'] + rest) == Split(query) + Split(rest)
    decreases |query|
  {
    var whole := query + ['&'] + rest;
    assert whole == query + (['&'] + rest);
    IndexOfAppend(query, ['&'] + rest, '&');
    var i := IndexOf(query, '&');
    if i < |query| {
      assert whole[..i] == query[..i];
      assert whole[i + 1..] == query[i + 1..] + ['&'] + rest;
      SplitAppend(query[i + 1..], rest);
    } else {
      assert (['&'] + rest)[0] == '&';
      assert IndexOf(whole, '&') == |query|;
      assert whole[..i] == query;
      assert whole[i + 1..] == rest;
    }
  }

  lemma {:induction false} FirstItemAppend(a: seq<string>, b: seq<string>, name: string)
    ensures FirstItem(a + b, name) == if FirstItem(a, name).Some? then FirstItem(a, name) else FirstItem(b, name)
  {
    if a != [] {
      assert (a + b)[0] == a[0];
      assert (a + b)[1..] == a[1..] + b;
      FirstItemAppend(a[1..], b, name);
    } else {
      assert a + b == b;
    }
  }

  /** The item `name=value` is one item that reads back as `name` with value `value`. */
  lemma ItemParts(name: string, value: string)
    requires IsPlainToken(name) && IsPlainValue(value)
    ensures '#' !in Item(name, value)
    ensures Split(Item(name, value)) == [Item(name, value)]
    ensures ItemName(Item(name, value)) == name
    ensures ItemValue(Item(name, value)) == Some(value)
  {
    var item := Item(name, value);
    assert item == name + (['='] + value);
    assert (['='] + value)[0] == '=';
    IndexOfAppend(name, ['='] + value, '=');
    assert IndexOf(item, '=') == |name|;
    IndexOfAppend(name, ['='] + value, '&');
    IndexOfAppend(['='], value, '&');
    IndexOfAppend(name, ['='] + value, '#');
    IndexOfAppend(['='], value, '#');
    assert item[..|name|] == name;
    assert item[|name| + 1..] == value;
  }

  /** Without a fragment, the query is everything after the first '?'. */
  lemma QueryOfUnfragmented(url: string)
    requires '#' !in url
    ensures QueryOf(url) == if '?' in url then Some(url[IndexOf(url, '?') + 1..]) else None
  {
    assert IndexOf(url, '#') == |url|;
    assert url[..|url|] == url;
  }

  /** A fragment-free text followed by `sep` and a fragment-free item has no fragment. */
  lemma AppendUnfragmented(url: string, sep: char, item: string)
    requires '#' !in url && '#' !in item && sep != '#'
    ensures '#' !in url + [sep] + item
  {
  }

  /** Appending `&item` to a URL that has a query extends the query. */
  lemma QueryAfterAmpersand(url: string, item: string)
    requires '#' !in url && '#' !in item && '?' in url
    ensures QueryOf(url).Some?
    ensures QueryOf(url + ['&'] + item) == Some(QueryOf(url).value + ['&'] + item)
  {
    var built := url + ['&'] + item;
    QueryOfUnfragmented(url);
    AppendUnfragmented(url, '&', item);
    QueryOfUnfragmented(built);
    assert built == url + (['&'] + item);
    IndexOfAppend(url, ['&'] + item, '?');
    var q := IndexOf(url, '?');
    assert built[q + 1..] == url[q + 1..] + ['&'] + item;
  }

  /** Appending `?item` to a URL without a query makes `item` the whole query. */
  lemma QueryAfterQuestionMark(url: string, item: string)
    requires '#' !in url && '#' !in item && '?' !in url
    ensures QueryOf(url).None?
    ensures QueryOf(url + ['?'] + item) == Some(item)
  {
    var built := url + ['?'] + item;
    QueryOfUnfragmented(url);
    AppendUnfragmented(url, '?', item);
    QueryOfUnfragmented(built);
    assert built == url + (['?'] + item);
    assert (['?'] + item)[0] == '?';
    IndexOfAppend(url, ['?'] + item, '?');
    assert built[|url| + 1..] == item;
  }

  /**
    Round trip: a parameter appended to a URL without a fragment and without
    an item of that name reads back with the appended value.
  */
  lemma WithItemReadsBack(url: string, name: string, value: string)
    requires '#' !in url && IsPlainToken(name) && IsPlainValue(value)
    requires Lookup(url, name).None?
    ensures Lookup(WithItem(url, name, value), name) == Some(Some(value))
  {
    ItemParts(name, value);
    if '?' in url {
      QueryAfterAmpersand(url, Item(name, value));
      var query := QueryOf(url).value;
      SplitAppend(query, Item(name, value));
      FirstItemAppend(Split(query), [Item(name, value)], name);
    } else {
      QueryAfterQuestionMark(url, Item(name, value));
    }
  }

  /**
    After a '#', an appended parameter is part of the fragment: the query is
    what it was, so no item, the appended one included, changes.
  */
  lemma FragmentHidesItem(url: string, name: string, value: string)
    requires '#' in url
    ensures QueryOf(WithItem(url, name, value)) == QueryOf(url)
  {
    var tail := [if '?' in url then '&' else '?'] + Item(name, value);
    assert WithItem(url, name, value) == url + tail;
    IndexOfAppend(url, tail, '#');
    var i := IndexOf(url, '#');
    assert (url + tail)[..i] == url[..i];
  }

  /** Appending a parameter leaves every other item of the query as it was. */
  lemma WithItemKeepsOthers(url: string, name: string, value: string, other: string)
    requires IsPlainToken(name) && IsPlainValue(value)
    requires other != name
    ensures Lookup(WithItem(url, name, value), other) == Lookup(url, other)
  {
    if '#' in url {
      FragmentHidesItem(url, name, value);
    } else {
      ItemParts(name, value);
      if '?' in url {
        QueryAfterAmpersand(url, Item(name, value));
        var query := QueryOf(url).value;
        SplitAppend(query, Item(name, value));
        FirstItemAppend(Split(query), [Item(name, value)], other);
      } else {
        QueryAfterQuestionMark(url, Item(name, value));
      }
    }
  }
}
