/** The default filter of the lookup widget: keep the items whose display
    field contains the typed text, in their original order. */
module SearchFilter {

  /** An item supplied by the caller: a record from field name to value.
      Only the display field is read by the widget; it must be a string
      for the substring test to apply. */
  type Item = map<string, string>

  /** The display field used when the caller does not name one. */
  const DefaultDisplayKey: string := "title"

  // ---------------------------------------------------------------------
  // Substrings
  // ---------------------------------------------------------------------

  /** Reference definition: `sub` occurs in `s` at some position. */
  predicate ContainsSubstring(s: string, sub: string)
  {
    exists i :: 0 <= i <= |s| && sub <= s[i..]
  }

  /** The host's `s.includes(sub)`: scan the start positions of `s` from
      the left and stop at the first one where `sub` is a prefix. The
      comparison is on characters, so it is case-sensitive. */
  function Includes(s: string, sub: string): (b: bool)
    decreases |s|
  {
    if sub <= s then true
    else if |s| == 0 then false
    else Includes(s[1..], sub)
  }

  /** The scan agrees with the reference definition, in both directions. */
  lemma {:induction false} IncludesIffContains(s: string, sub: string)
    ensures Includes(s, sub) <==> ContainsSubstring(s, sub)
    decreases |s|
  {
    if sub <= s {
      assert sub <= s[0..];
    } else if |s| == 0 {
      forall i | 0 <= i <= |s| ensures !(sub <= s[i..]) {
        assert s[i..] == s;
      }
    } else {
      IncludesIffContains(s[1..], sub);
      if ContainsSubstring(s, sub) {
        var i :| 0 <= i <= |s| && sub <= s[i..];
        assert i != 0 by { assert s[0..] == s; }
        assert s[1..][i - 1..] == s[i..];
      }
      if ContainsSubstring(s[1..], sub) {
        var i :| 0 <= i <= |s[1..]| && sub <= s[1..][i..];
        assert s[1..][i..] == s[i + 1..];
      }
    }
  }

  // ---------------------------------------------------------------------
  // The default filter
  // ---------------------------------------------------------------------

  /** Every item carries the display field, so reading it cannot fail. */
  predicate AllHaveKey(data: seq<Item>, displayKey: string)
  {
    forall k :: 0 <= k < |data| ==> displayKey in data[k]
  }

  /** The default filter's test for one item. */
  predicate Matches(item: Item, displayKey: string, text: string)
    requires displayKey in item
  {
    Includes(item[displayKey], text)
  }

  /** `defaultSearchFunc(text, data)`: `data.filter(item =>
      item[displayKey].includes(text))`. An item without the display field
      would make the host raise, so every item must carry it. */
  function DefaultSearch(text: string, data: seq<Item>, displayKey: string): (r: seq<Item>)
    requires AllHaveKey(data, displayKey)
    ensures |r| <= |data|
    ensures forall x :: x in r <==> x in data && Matches(x, displayKey, text)
  {
    if data == [] then []
    else
      var rest := DefaultSearch(text, data[1..], displayKey);
      assert forall x :: x in data <==> x == data[0] || x in data[1..];
      if Matches(data[0], displayKey, text) then [data[0]] + rest else rest
  }

  // ---------------------------------------------------------------------
  // Subsequences
  // ---------------------------------------------------------------------

  /** `r` is obtained from `s` by deleting elements, keeping the order. */
  predicate IsSubsequence<T(==)>(r: seq<T>, s: seq<T>)
    decreases |s|
  {
    if r == [] then true
    else if s == [] then false
    else if r[0] == s[0] then IsSubsequence(r[1..], s[1..])
    else IsSubsequence(r, s[1..])
  }

  lemma {:induction false} SubsequenceReflexive<T>(s: seq<T>)
    ensures IsSubsequence(s, s)
    decreases |s|
  {
    if s != [] {
      SubsequenceReflexive(s[1..]);
    }
  }

  lemma {:induction false} SubsequenceNotLonger<T>(r: seq<T>, s: seq<T>)
    requires IsSubsequence(r, s)
    ensures |r| <= |s|
    decreases |s|
  {
    if r != [] {
      if r[0] == s[0] {
        SubsequenceNotLonger(r[1..], s[1..]);
      } else {
        SubsequenceNotLonger(r, s[1..]);
      }
    }
  }

  /** A subsequence as long as the sequence it was taken from is that
      sequence: for results that stay within `data`, comparing lengths is
      as good as comparing contents. */
  lemma {:induction false} SubsequenceOfSameLength<T>(r: seq<T>, s: seq<T>)
    requires IsSubsequence(r, s)
    requires |r| == |s|
    ensures r == s
    decreases |s|
  {
    if r != [] {
      if r[0] == s[0] {
        SubsequenceOfSameLength(r[1..], s[1..]);
        assert r == [r[0]] + r[1..];
        assert s == [s[0]] + s[1..];
      } else {
        SubsequenceNotLonger(r, s[1..]);
        assert false;
      }
    }
  }

  // ---------------------------------------------------------------------
  // Properties of the default filter
  // ---------------------------------------------------------------------

  /** The filter only deletes items; it never reorders or invents them. */
  lemma {:induction false} DefaultSearchIsSubsequence(text: string, data: seq<Item>, displayKey: string)
    requires AllHaveKey(data, displayKey)
    ensures IsSubsequence(DefaultSearch(text, data, displayKey), data)
    decreases |data|
  {
    if data != [] {
      DefaultSearchIsSubsequence(text, data[1..], displayKey);
      var rest := DefaultSearch(text, data[1..], displayKey);
      if Matches(data[0], displayKey, text) {
        assert ([data[0]] + rest)[1..] == rest;
      } else if rest != [] {
        SkipHead(rest, data);
      }
    }
  }

  /** Dropping a head that a subsequence does not start with. */
  lemma {:induction false} SkipHead<T>(r: seq<T>, s: seq<T>)
    requires s != [] && IsSubsequence(r, s[1..])
    ensures IsSubsequence(r, s)
    decreases |s|, 0
  {
    if r != [] && r[0] == s[0] {
      TailOfSubsequence(r, s[1..]);
    }
  }

  /** A subsequence without its first element is still a subsequence. */
  lemma {:induction false} TailOfSubsequence<T>(r: seq<T>, s: seq<T>)
    requires r != [] && IsSubsequence(r, s)
    ensures IsSubsequence(r[1..], s)
    decreases |s|, 1
  {
    if r[0] != s[0] {
      TailOfSubsequence(r, s[1..]);
    }
    SkipHead(r[1..], s);
  }

  /** The positions of `data` at or after `from` whose item matches, in
      increasing order. */
  ghost function MatchingPositions(text: string, data: seq<Item>, displayKey: string, from: nat): (idx: seq<nat>)
    requires AllHaveKey(data, displayKey) && from <= |data|
    ensures forall k :: 0 <= k < |idx| ==> from <= idx[k] < |data|
    ensures forall k, l :: 0 <= k < l < |idx| ==> idx[k] < idx[l]
    ensures forall i :: from <= i < |data| ==> (i in idx <==> Matches(data[i], displayKey, text))
    decreases |data| - from
  {
    if from == |data| then []
    else if Matches(data[from], displayKey, text) then [from] + MatchingPositions(text, data, displayKey, from + 1)
    else MatchingPositions(text, data, displayKey, from + 1)
  }

  /** Exact content of the result: its k-th item is the item at the k-th
      matching position of `data`. So the result holds every matching item,
      each once per occurrence, and nothing else, in the order of `data`. */
  lemma DefaultSearchSelectsMatchingPositions(text: string, data: seq<Item>, displayKey: string)
    requires AllHaveKey(data, displayKey)
    ensures |DefaultSearch(text, data, displayKey)| == |MatchingPositions(text, data, displayKey, 0)|
    ensures forall k :: 0 <= k < |MatchingPositions(text, data, displayKey, 0)| ==>
              DefaultSearch(text, data, displayKey)[k] == data[MatchingPositions(text, data, displayKey, 0)[k]]
  {
    SelectsFrom(text, data, displayKey, 0);
    assert data[0..] == data;
  }

  /** The same for the suffix of `data` starting at `from`. */
  lemma {:induction false} SelectsFrom(text: string, data: seq<Item>, displayKey: string, from: nat)
    requires AllHaveKey(data, displayKey) && from <= |data|
    ensures |DefaultSearch(text, data[from..], displayKey)| == |MatchingPositions(text, data, displayKey, from)|
    ensures forall k :: 0 <= k < |MatchingPositions(text, data, displayKey, from)| ==>
              DefaultSearch(text, data[from..], displayKey)[k] == data[MatchingPositions(text, data, displayKey, from)[k]]
    decreases |data| - from
  {
    if from < |data| {
      SelectsFrom(text, data, displayKey, from + 1);
      var rest, restIdx := DefaultSearch(text, data[from + 1..], displayKey), MatchingPositions(text, data, displayKey, from + 1);
      assert data[from..][0] == data[from];
      assert data[from..][1..] == data[from + 1..];
      if Matches(data[from], displayKey, text) {
        assert DefaultSearch(text, data[from..], displayKey) == [data[from]] + rest;
        assert MatchingPositions(text, data, displayKey, from) == [from] + restIdx;
      } else {
        assert DefaultSearch(text, data[from..], displayKey) == rest;
        assert MatchingPositions(text, data, displayKey, from) == restIdx;
      }
    }
  }

  /** An empty query keeps every item: the filter is the identity. */
  lemma {:induction false} DefaultSearchEmptyText(data: seq<Item>, displayKey: string)
    requires AllHaveKey(data, displayKey)
    ensures DefaultSearch("", data, displayKey) == data
    decreases |data|
  {
    if data != [] {
      DefaultSearchEmptyText(data[1..], displayKey);
      assert data == [data[0]] + data[1..];
    }
  }

  /** If nothing was filtered out the result is `data` itself, so the
      widget's length comparison detects every filtered result. */
  lemma {:induction false} DefaultSearchFullLength(text: string, data: seq<Item>, displayKey: string)
    requires AllHaveKey(data, displayKey)
    requires |DefaultSearch(text, data, displayKey)| == |data|
    ensures DefaultSearch(text, data, displayKey) == data
  {
    DefaultSearchIsSubsequence(text, data, displayKey);
    SubsequenceOfSameLength(DefaultSearch(text, data, displayKey), data);
  }

  /** Matching is case-sensitive: a query in another case finds nothing. */
  lemma DefaultSearchIsCaseSensitive()
    ensures DefaultSearch("apple", [map["title" := "Apple"]], "title") == []
    ensures DefaultSearch("Apple", [map["title" := "Apple"]], "title") == [map["title" := "Apple"]]
  {
    var s: string := "Apple";
    IncludesIffContains(s, "apple");
    forall i | 0 <= i <= |s| ensures !("apple" <= s[i..]) {
      if i == 0 {
        assert s[0..][0] == 'A';
      }
    }
  }
}
