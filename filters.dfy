/** The label filter of the Docker label source (internal/adapters/dockerlabels/filters.go). */
module Filters {
  import opened Strings

  /** The key starts, literally, with at least one of the prefixes. */
  predicate MatchesAny(key: string, prefixes: seq<string>)
  {
    exists i :: 0 <= i < |prefixes| && HasPrefix(key, prefixes[i])
  }

  /** A label survives the filter: its key matches a prefix and its value is not blank once trimmed. */
  predicate Keeps(key: string, value: string, prefixes: seq<string>)
  {
    TrimSpace(value) != [] && MatchesAny(key, prefixes)
  }

  /** The labels of `labels` that the filter keeps, with their values unchanged. */
  function Filtered(labels: map<string, string>, prefixes: seq<string>): map<string, string>
  {
    map k | k in labels && Keeps(k, labels[k], prefixes) :: labels[k]
  }

  /**
   * `FilterByPrefixes`: builds a fresh map by visiting every label once and
   * trying the prefixes in order, stopping at the first that matches.
   */
  method FilterByPrefixes(labels: map<string, string>, prefixes: seq<string>) returns (out: map<string, string>)
    ensures out == Filtered(labels, prefixes)
  {
    out := map[];
    if |prefixes| == 0 {
      return;
    }
    var todo := labels.Keys;
    while todo != {}
      invariant todo <= labels.Keys
      invariant forall k :: k in out <==> k in labels && k !in todo && Keeps(k, labels[k], prefixes)
      invariant forall k :: k in out ==> out[k] == labels[k]
      decreases todo
    {
      var k :| k in todo;
      todo := todo - {k};
      var v := labels[k];
      if TrimSpace(v) == "" {
        continue;
      }
      var i := 0;
      while i < |prefixes|
        invariant 0 <= i <= |prefixes|
        invariant forall j :: 0 <= j < i ==> !HasPrefix(k, prefixes[j])
      {
        if HasPrefix(k, prefixes[i]) {
          assert MatchesAny(k, prefixes);
          out := out[k := v];
          break;
        }
        i := i + 1;
      }
    }
    FilteredByMembership(labels, prefixes, out);
  }

  /** A map with exactly the kept keys, each with its input value, is the filtered map. */
  lemma FilteredByMembership(labels: map<string, string>, prefixes: seq<string>, out: map<string, string>)
    requires forall k :: k in out <==> k in labels && Keeps(k, labels[k], prefixes)
    requires forall k :: k in out ==> out[k] == labels[k]
    ensures out == Filtered(labels, prefixes)
  {
  }

  /** With no prefixes nothing is kept, whatever the labels. */
  lemma NoPrefixesKeepNothing(labels: map<string, string>)
    ensures Filtered(labels, []) == map[]
  {
  }

  /**
   * The whole contract of the filter: a label is in the result exactly when it
   * is in the input, its key starts with some prefix and its value has a
   * character that is not white space; its value is the input's.
   */
  lemma FilteredCharacterized(labels: map<string, string>, prefixes: seq<string>)
    ensures forall k :: k in Filtered(labels, prefixes) <==>
      k in labels && MatchesAny(k, prefixes) && !IsBlank(labels[k])
    ensures forall k :: k in Filtered(labels, prefixes) ==> Filtered(labels, prefixes)[k] == labels[k]
  {
    forall k | k in labels {
      TrimSpaceEmptyIffBlank(labels[k]);
    }
  }

  /** A key matches a concatenation of prefix lists when it matches either list. */
  lemma MatchesAnyConcat(key: string, p: seq<string>, q: seq<string>)
    ensures MatchesAny(key, p + q) <==> MatchesAny(key, p) || MatchesAny(key, q)
  {
    if MatchesAny(key, p + q) {
      var i :| 0 <= i < |p + q| && HasPrefix(key, (p + q)[i]);
      if i >= |p| {
        assert HasPrefix(key, q[i - |p|]);
      } else {
        assert HasPrefix(key, p[i]);
      }
    }
    if MatchesAny(key, q) {
      var i :| 0 <= i < |q| && HasPrefix(key, q[i]);
      assert HasPrefix(key, (p + q)[|p| + i]);
    }
    if MatchesAny(key, p) {
      var i :| 0 <= i < |p| && HasPrefix(key, p[i]);
      assert HasPrefix(key, (p + q)[i]);
    }
  }

  /** When no key starts with any prefix, nothing is kept. */
  lemma NoMatchKeepsNothing(labels: map<string, string>, prefixes: seq<string>)
    requires forall k :: k in labels ==> !MatchesAny(k, prefixes)
    ensures Filtered(labels, prefixes) == map[]
  {
    assert forall k :: k !in Filtered(labels, prefixes);
  }

  /** Several prefixes act as the union of the filters for each part of the list. */
  lemma FilteredUnion(labels: map<string, string>, p: seq<string>, q: seq<string>)
    ensures Filtered(labels, p + q) == Filtered(labels, p) + Filtered(labels, q)
  {
    var l, r := Filtered(labels, p + q), Filtered(labels, p) + Filtered(labels, q);
    forall k | k in labels
      ensures k in l <==> k in r
      ensures k in l ==> l[k] == r[k]
    {
      MatchesAnyConcat(k, p, q);
    }
    SameEntries(l, r);
  }

  lemma SameEntries(l: map<string, string>, r: map<string, string>)
    requires forall k :: k in l <==> k in r
    requires forall k :: k in l ==> l[k] == r[k]
    ensures l == r
  {
  }

  /** Matching is a plain prefix test: `bosun` also selects `bosunx.foo`, and nothing else is kept. */
  lemma PrefixHasNoDotBoundary()
    ensures Filtered(map["bosunx.foo" := "v", "other.key" := "w"], ["bosun"]) == map["bosunx.foo" := "v"]
  {
    var m := map["bosunx.foo" := "v", "other.key" := "w"];
    var r := Filtered(m, ["bosun"]);
    FilteredCharacterized(m, ["bosun"]);
    assert HasPrefix("bosunx.foo", ["bosun"][0]);
    assert !MatchesAny("other.key", ["bosun"]) by {
      assert !HasPrefix("other.key", "bosun") by {
        assert "other.key"[0] == 'o';
      }
    }
    assert !IsBlank("v") by {
      assert "v"[0] == 'v';
    }
    SameEntries(r, map["bosunx.foo" := "v"]);
  }

  /** Empty and white-space-only values are dropped, the rest is kept. */
  lemma BlankValuesDropped()
    ensures Filtered(map["bosun.key1" := "value1", "bosun.key2" := "   ", "bosun.key3" := "\t\n"], ["bosun."])
      == map["bosun.key1" := "value1"]
  {
    var m := map["bosun.key1" := "value1", "bosun.key2" := "   ", "bosun.key3" := "\t\n"];
    var r := Filtered(m, ["bosun."]);
    FilteredCharacterized(m, ["bosun."]);
    assert HasPrefix("bosun.key1", ["bosun."][0]);
    assert !IsBlank("value1") by {
      assert "value1"[0] == 'v';
    }
    assert IsBlank("   ") && IsBlank("\t\n");
    SameEntries(r, map["bosun.key1" := "value1"]);
  }

  /** A label whose key starts with one of the prefixes and whose value starts with a non-space character is kept. */
  lemma KeptLabel(labels: map<string, string>, prefixes: seq<string>, key: string, i: nat)
    requires key in labels && i < |prefixes| && HasPrefix(key, prefixes[i])
    requires labels[key] != [] && !IsSpace(labels[key][0])
    ensures key in Filtered(labels, prefixes)
  {
    TrimSpaceEmptyIffBlank(labels[key]);
  }
}
