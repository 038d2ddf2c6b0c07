/** `GetNearbyPlaceTypes`: every place-type label of every result is counted,
    and the (label, count) pairs are ranked by count, largest first. The
    dictionary is modelled as a list of entries in first-seen order. */
module PlaceTypes {
  import opened Wrappers
  import opened Coordinates
  import opened NearbySearch

  /** A dictionary entry: a label and how often it was seen. */
  type Entry = (string, nat)

  /** The labels of one result; a null `types` list contributes none. */
  function TypesOf(r: PlaceResult): seq<string>
  {
    match r.types
    case None => []
    case Some(types) => types
  }

  /** Every label of every result, in response order. */
  function Labels(results: seq<PlaceResult>): seq<string>
  {
    if |results| == 0 then []
    else Labels(results[..|results| - 1]) + TypesOf(results[|results| - 1])
  }

  function Keys(d: seq<Entry>): seq<string>
  {
    seq(|d|, i requires 0 <= i < |d| => d[i].0)
  }

  predicate DistinctKeys(d: seq<Entry>)
  {
    forall i, j :: 0 <= i < j < |d| ==> d[i].0 != d[j].0
  }

  /** How often `placeType` occurs among `labels`. */
  function Occurrences(labels: seq<string>, placeType: string): nat
  {
    multiset(labels)[placeType]
  }

  /** `d` counts `labels`: one entry per distinct label, nothing else, and
      each entry's count is the number of occurrences of its label. */
  ghost predicate IsTallyOf(d: seq<Entry>, labels: seq<string>)
  {
    && DistinctKeys(d)
    && (forall i :: 0 <= i < |d| ==> d[i].1 >= 1 && d[i].1 == Occurrences(labels, d[i].0))
    && (forall x :: x in labels ==> x in Keys(d))
  }

  /** Largest count first; nothing is said about the order of equal counts. */
  predicate SortedByCount(d: seq<Entry>)
  {
    forall i, j :: 0 <= i < j < |d| ==> d[i].1 >= d[j].1
  }

  function SumCounts(d: seq<Entry>): nat
  {
    if |d| == 0 then 0 else d[0].1 + SumCounts(d[1..])
  }

  /** What `GetNearbyPlaceTypes` promises about a non-null result. */
  ghost predicate IsRanking(d: seq<Entry>, labels: seq<string>)
  {
    IsTallyOf(d, labels) && SortedByCount(d)
  }

  lemma {:induction false} SumConcat(a: seq<Entry>, b: seq<Entry>)
    ensures SumCounts(a + b) == SumCounts(a) + SumCounts(b)
  {
    if |a| > 0 {
      SumConcat(a[1..], b);
      assert (a + b)[1..] == a[1..] + b;
    } else {
      assert a + b == b;
    }
  }

  /** Raising one count by one raises the sum by one. */
  lemma {:induction false} SumBumpAt(d: seq<Entry>, e: seq<Entry>, k: nat)
    requires |e| == |d| && k < |d|
    requires forall i :: 0 <= i < |d| && i != k ==> e[i].1 == d[i].1
    requires e[k].1 == d[k].1 + 1
    ensures SumCounts(e) == SumCounts(d) + 1
  {
    if k > 0 {
      SumBumpAt(d[1..], e[1..], k - 1);
    } else {
      assert SumCounts(e[1..]) == SumCounts(d[1..]) by {
        SumSame(d[1..], e[1..]);
      }
    }
  }

  lemma {:induction false} SumSame(d: seq<Entry>, e: seq<Entry>)
    requires |e| == |d|
    requires forall i :: 0 <= i < |d| ==> e[i].1 == d[i].1
    ensures SumCounts(e) == SumCounts(d)
  {
    if |d| > 0 {
      SumSame(d[1..], e[1..]);
    }
  }

  /** One step of the counting loop: increment the label's entry, or add it
      with count 1 when it is new. */
  function Bump(d: seq<Entry>, x: string): seq<Entry>
  {
    if x in Keys(d) then
      seq(|d|, i requires 0 <= i < |d| => if d[i].0 == x then (x, d[i].1 + 1) else d[i])
    else d + [(x, 1)]
  }

  lemma BumpExtendsTally(d: seq<Entry>, labels: seq<string>, x: string)
    requires IsTallyOf(d, labels)
    ensures IsTallyOf(Bump(d, x), labels + [x])
    ensures SumCounts(Bump(d, x)) == SumCounts(d) + 1
  {
    var e := Bump(d, x);
    var more := labels + [x];
    assert multiset(more) == multiset(labels) + multiset{x};
    if x in Keys(d) {
      var k :| 0 <= k < |d| && Keys(d)[k] == x;
      SumBumpAt(d, e, k);
      forall y | y in more
        ensures y in Keys(e)
      {
        if y != x {
          assert y in labels;
          var j :| 0 <= j < |d| && Keys(d)[j] == y;
          assert Keys(e)[j] == y;
        } else {
          assert Keys(e)[k] == x;
        }
      }
    } else {
      SumConcat(d, [(x, 1)]);
      assert x !in labels;
      forall y | y in more
        ensures y in Keys(e)
      {
        if y != x {
          assert y in labels;
          var j :| 0 <= j < |d| && Keys(d)[j] == y;
          assert Keys(e)[j] == y;
        } else {
          assert Keys(e)[|d|] == x;
        }
      }
    }
  }

  lemma LabelsOfPrefix(results: seq<PlaceResult>, i: nat)
    requires i < |results|
    ensures Labels(results[..i + 1]) == Labels(results[..i]) + TypesOf(results[i])
  {
    assert results[..i + 1][..i] == results[..i];
  }

  /** The inner loop of `GetNearbyPlaceTypes`: counts the labels of one result. */
  method CountLabels(counts: seq<Entry>, ghost seen: seq<string>, types: seq<string>)
    returns (updated: seq<Entry>)
    requires IsTallyOf(counts, seen) && SumCounts(counts) == |seen|
    ensures IsTallyOf(updated, seen + types) && SumCounts(updated) == |seen + types|
  {
    updated := counts;
    for j := 0 to |types|
      invariant IsTallyOf(updated, seen + types[..j])
      invariant SumCounts(updated) == |seen + types[..j]|
    {
      assert seen + types[..j + 1] == (seen + types[..j]) + [types[j]];
      BumpExtendsTally(updated, seen + types[..j], types[j]);
      updated := Bump(updated, types[j]);
    }
    assert types[..|types|] == types;
  }

  /** The outer loop of `GetNearbyPlaceTypes`, which skips results whose
      `types` is null. */
  method CountPlaceTypes(results: seq<PlaceResult>) returns (counts: seq<Entry>)
    ensures IsTallyOf(counts, Labels(results))
    ensures SumCounts(counts) == |Labels(results)|
  {
    counts := [];
    for i := 0 to |results|
      invariant IsTallyOf(counts, Labels(results[..i]))
      invariant SumCounts(counts) == |Labels(results[..i])|
    {
      LabelsOfPrefix(results, i);
      match results[i].types
      case None =>
        assert Labels(results[..i]) + TypesOf(results[i]) == Labels(results[..i]);
      case Some(types) =>
        counts := CountLabels(counts, Labels(results[..i]), types);
    }
    assert results[..|results|] == results;
  }

  /** Inserts `e` after every entry whose count is at least `e`'s. */
  function InsertByCount(e: Entry, s: seq<Entry>): (r: seq<Entry>)
    ensures multiset(r) == multiset(s) + multiset{e}
    ensures SumCounts(r) == SumCounts(s) + e.1
    ensures |r| > 0 && (r[0] == e || (|s| > 0 && r[0] == s[0]))
  {
    if |s| == 0 || s[0].1 < e.1 then [e] + s
    else
      var rest := InsertByCount(e, s[1..]);
      assert s == [s[0]] + s[1..];
      assert SumCounts([s[0]] + rest) == s[0].1 + SumCounts(rest) by {
        assert ([s[0]] + rest)[1..] == rest;
      }
      [s[0]] + rest
  }

  lemma {:induction false} InsertKeepsSorted(e: Entry, s: seq<Entry>)
    requires SortedByCount(s)
    ensures SortedByCount(InsertByCount(e, s))
  {
    if |s| > 0 && s[0].1 >= e.1 {
      InsertKeepsSorted(e, s[1..]);
      var rest := InsertByCount(e, s[1..]);
      assert InsertByCount(e, s) == [s[0]] + rest;
      assert forall k :: 0 <= k < |rest| ==> rest[k].1 <= rest[0].1 <= s[0].1;
    }
  }

  /** `List.Sort` with the comparison `y.Value.CompareTo(x.Value)`. */
  method SortByCount(entries: seq<Entry>) returns (sorted: seq<Entry>)
    ensures multiset(sorted) == multiset(entries)
    ensures SortedByCount(sorted)
    ensures SumCounts(sorted) == SumCounts(entries)
  {
    sorted := [];
    for i := 0 to |entries|
      invariant multiset(sorted) == multiset(entries[..i])
      invariant SortedByCount(sorted)
      invariant SumCounts(sorted) == SumCounts(entries[..i])
    {
      assert entries[..i + 1] == entries[..i] + [entries[i]];
      SumConcat(entries[..i], [entries[i]]);
      InsertKeepsSorted(entries[i], sorted);
      sorted := InsertByCount(entries[i], sorted);
    }
    assert entries[..|entries|] == entries;
  }

  lemma {:induction false} DistinctMultiplicity(d: seq<Entry>, p: Entry)
    requires DistinctKeys(d)
    ensures multiset(d)[p] <= 1
  {
    if |d| > 0 {
      var init := d[..|d| - 1];
      DistinctMultiplicity(init, p);
      assert d == init + [d[|d| - 1]];
      if p == d[|d| - 1] {
        assert p !in init by {
          forall i | 0 <= i < |init|
            ensures init[i] != p
          {
            assert d[i].0 != d[|d| - 1].0;
          }
        }
      }
    }
  }

  /** Reordering a tally leaves a tally of the same labels. */
  lemma PermutationKeepsTally(d: seq<Entry>, r: seq<Entry>, labels: seq<string>)
    requires IsTallyOf(d, labels)
    requires multiset(r) == multiset(d)
    ensures IsTallyOf(r, labels)
  {
    forall i | 0 <= i < |r|
      ensures r[i].1 >= 1 && r[i].1 == Occurrences(labels, r[i].0)
    {
      assert r[i] in multiset(d);
    }
    forall i, j | 0 <= i < j < |r|
      ensures r[i].0 != r[j].0
    {
      if r[i].0 == r[j].0 {
        assert r[i] in multiset(d) && r[j] in multiset(d);
        assert r[i] == r[j];
        assert r == r[..j] + [r[j]] + r[j + 1..];
        assert r[i] in r[..j];
        assert multiset(r)[r[i]] >= 2;
        DistinctMultiplicity(d, r[i]);
        assert false;
      }
    }
    forall x | x in labels
      ensures x in Keys(r)
    {
      var k :| 0 <= k < |d| && Keys(d)[k] == x;
      assert d[k] in multiset(r);
      var m :| 0 <= m < |r| && r[m] == d[k];
      assert Keys(r)[m] == x;
    }
  }

  /** Any two tallies of the same labels hold the same entries: the returned
      list is a permutation of the dictionary's contents, whatever order the
      dictionary or the sort produced. */
  lemma TalliesArePermutations(a: seq<Entry>, b: seq<Entry>, labels: seq<string>)
    requires IsTallyOf(a, labels) && IsTallyOf(b, labels)
    ensures multiset(a) == multiset(b)
  {
    forall p: Entry
      ensures multiset(a)[p] == multiset(b)[p]
    {
      DistinctMultiplicity(a, p);
      DistinctMultiplicity(b, p);
      if p in a {
        var i :| 0 <= i < |a| && a[i] == p;
        assert p.0 in labels by { assert Occurrences(labels, p.0) >= 1; }
        var j :| 0 <= j < |b| && Keys(b)[j] == p.0;
        assert b[j] == p;
      }
      if p in b {
        var j :| 0 <= j < |b| && b[j] == p;
        assert p.0 in labels by { assert Occurrences(labels, p.0) >= 1; }
        var i :| 0 <= i < |a| && Keys(a)[i] == p.0;
        assert a[i] == p;
      }
    }
    assert multiset(a) == multiset(b);
  }

  /** A tally is empty exactly when there is nothing to count. */
  lemma EmptyTally(d: seq<Entry>, labels: seq<string>)
    requires IsTallyOf(d, labels)
    ensures |d| == 0 <==> |labels| == 0
  {
    if |labels| > 0 {
      assert labels[0] in labels;
      assert labels[0] in Keys(d);
    }
    if |d| > 0 {
      assert Occurrences(labels, d[0].0) >= 1;
    }
  }

  /** `GetNearbyPlaceTypes` after the request: null for a null response, for
      null `results`, and when no label was found; otherwise every distinct
      label once with its number of occurrences, largest count first, the
      counts adding up to the number of labels. */
  method GetNearbyPlaceTypes(response: Option<Response>) returns (ranking: Option<seq<Entry>>)
    ensures ranking.None? <==>
              || response.None?
              || response.value.results.None?
              || |Labels(response.value.results.value)| == 0
    ensures ranking.Some? ==> IsRanking(ranking.value, Labels(response.value.results.value))
    ensures ranking.Some? ==> SumCounts(ranking.value) == |Labels(response.value.results.value)|
  {
    if response.None? || response.value.results.None? {
      return None;
    }
    var labels := Labels(response.value.results.value);
    var counts := CountPlaceTypes(response.value.results.value);
    EmptyTally(counts, labels);
    if |counts| == 0 {
      return None;
    }
    var sorted := SortByCount(counts);
    PermutationKeepsTally(counts, sorted, labels);
    return Some(sorted);
  }

  /** The whole operation for one coordinate: build the URL, fetch it
      (`fetch` stands for the HTTP GET and the JSON deserialisation), accept
      the response only with status OK, then count and rank. */
  method FindNearbyPlaceTypes(coordinate: Coordinate, typesToInclude: Option<seq<string>>,
                              format: real -> string, fetch: string -> Fetched)
    returns (ranking: Option<seq<Entry>>)
    ensures var fetched := fetch(CreateUrl(coordinate, typesToInclude, format));
      ranking.Some? <==>
        && fetched.Delivered? && fetched.parsed.Some?
        && fetched.parsed.value.status == Some(OkStatus)
        && fetched.parsed.value.results.Some?
        && |Labels(fetched.parsed.value.results.value)| > 0
    ensures var fetched := fetch(CreateUrl(coordinate, typesToInclude, format));
      ranking.Some? ==> IsRanking(ranking.value, Labels(fetched.parsed.value.results.value))
  {
    var url := CreateUrl(coordinate, typesToInclude, format);
    var response := GetPlaceApiResponse(fetch(url));
    ranking := GetNearbyPlaceTypes(response);
  }
}
