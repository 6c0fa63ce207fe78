/**
  `sort_and_filter_existing_streams`: the streams not yet in the database, oldest
  first by the timestamp read from their relative date, at most `max_streams` of them.
  The sort is `Itertools::sorted_by`, a stable sort, on `Option<DateTime>` keys, where
  `None` orders before every `Some`.
 */
module Selection {
  import opened Wrappers
  import TimeAgo
  import StreamDomain

  /** The order of Rust's `Option<T>`: `None` first, then the values in their order. */
  predicate KeyLe(a: Option<int>, b: Option<int>) {
    a.None? || (b.Some? && a.value <= b.value)
  }

  /** Non-decreasing by key. */
  predicate Sorted<T>(xs: seq<T>, key: T -> Option<int>) {
    forall i, j :: 0 <= i < j < |xs| ==> KeyLe(key(xs[i]), key(xs[j]))
  }

  /** Every key of `xs` is at most `k`. */
  predicate AllAtMost<T>(xs: seq<T>, key: T -> Option<int>, k: Option<int>) {
    forall i :: 0 <= i < |xs| ==> KeyLe(key(xs[i]), k)
  }

  /** The elements of `xs` whose key is `k`, in their order in `xs`. */
  function WithKey<T>(xs: seq<T>, key: T -> Option<int>, k: Option<int>): (r: seq<T>)
    ensures |r| <= |xs|
  {
    if xs == [] then []
    else WithKey(xs[..|xs| - 1], key, k) + (if key(xs[|xs| - 1]) == k then [xs[|xs| - 1]] else [])
  }

  /** Places `x` after every element of the sorted `ys` whose key is not greater than its own. */
  function Insert<T>(ys: seq<T>, x: T, key: T -> Option<int>): (r: seq<T>)
    ensures |r| == |ys| + 1
  {
    if ys == [] || KeyLe(key(ys[|ys| - 1]), key(x)) then ys + [x]
    else Insert(ys[..|ys| - 1], x, key) + [ys[|ys| - 1]]
  }

  /** A stable sort by key: the elements are inserted one by one in input order. */
  function SortBy<T>(xs: seq<T>, key: T -> Option<int>): (r: seq<T>)
    ensures |r| == |xs|
  {
    if xs == [] then [] else Insert(SortBy(xs[..|xs| - 1], key), xs[|xs| - 1], key)
  }

  lemma {:induction false} InsertPermutes<T>(ys: seq<T>, x: T, key: T -> Option<int>)
    ensures multiset(Insert(ys, x, key)) == multiset(ys) + multiset{x}
  {
    if ys != [] && !KeyLe(key(ys[|ys| - 1]), key(x)) {
      InsertPermutes(ys[..|ys| - 1], x, key);
      assert ys == ys[..|ys| - 1] + [ys[|ys| - 1]];
    }
  }

  lemma {:induction false} InsertAtMost<T>(ys: seq<T>, x: T, key: T -> Option<int>, k: Option<int>)
    requires AllAtMost(ys, key, k) && KeyLe(key(x), k)
    ensures AllAtMost(Insert(ys, x, key), key, k)
  {
    if ys != [] && !KeyLe(key(ys[|ys| - 1]), key(x)) {
      InsertAtMost(ys[..|ys| - 1], x, key, k);
    }
  }

  lemma {:induction false} InsertSorted<T>(ys: seq<T>, x: T, key: T -> Option<int>)
    requires Sorted(ys, key)
    ensures Sorted(Insert(ys, x, key), key)
  {
    if ys != [] && !KeyLe(key(ys[|ys| - 1]), key(x)) {
      var init, last := ys[..|ys| - 1], ys[|ys| - 1];
      InsertSorted(init, x, key);
      InsertAtMost(init, x, key, key(last));
    }
  }

  lemma {:induction false} WithKeySnoc<T>(xs: seq<T>, x: T, key: T -> Option<int>, k: Option<int>)
    ensures WithKey(xs + [x], key, k) == WithKey(xs, key, k) + (if key(x) == k then [x] else [])
  {
    assert (xs + [x])[..|xs|] == xs;
  }

  /** Inserting adds `x` to the end of its own key's group and leaves the other groups alone. */
  lemma {:induction false} InsertStable<T>(ys: seq<T>, x: T, key: T -> Option<int>, k: Option<int>)
    ensures WithKey(Insert(ys, x, key), key, k) == WithKey(ys, key, k) + (if key(x) == k then [x] else [])
  {
    if ys == [] || KeyLe(key(ys[|ys| - 1]), key(x)) {
      WithKeySnoc(ys, x, key, k);
    } else {
      var init, last := ys[..|ys| - 1], ys[|ys| - 1];
      assert ys == init + [last];
      InsertStable(init, x, key, k);
      WithKeySnoc(Insert(init, x, key), last, key, k);
      WithKeySnoc(init, last, key, k);
      assert !(key(x) == k && key(last) == k);
    }
  }

  /** The sort is a permutation. */
  lemma {:induction false} SortByPermutes<T>(xs: seq<T>, key: T -> Option<int>)
    ensures multiset(SortBy(xs, key)) == multiset(xs)
  {
    if xs != [] {
      SortByPermutes(xs[..|xs| - 1], key);
      InsertPermutes(SortBy(xs[..|xs| - 1], key), xs[|xs| - 1], key);
      assert xs == xs[..|xs| - 1] + [xs[|xs| - 1]];
    }
  }

  /** The sort orders by key. */
  lemma {:induction false} SortBySorted<T>(xs: seq<T>, key: T -> Option<int>)
    ensures Sorted(SortBy(xs, key), key)
  {
    if xs != [] {
      SortBySorted(xs[..|xs| - 1], key);
      InsertSorted(SortBy(xs[..|xs| - 1], key), xs[|xs| - 1], key);
    }
  }

  /** The sort is stable: the elements of equal key keep their input order. */
  lemma {:induction false} SortByStable<T>(xs: seq<T>, key: T -> Option<int>, k: Option<int>)
    ensures WithKey(SortBy(xs, key), key, k) == WithKey(xs, key, k)
  {
    if xs != [] {
      SortByStable(xs[..|xs| - 1], key, k);
      InsertStable(SortBy(xs[..|xs| - 1], key), xs[|xs| - 1], key, k);
    }
  }

  ghost predicate IsPrefix<T>(a: seq<T>, b: seq<T>) {
    |a| <= |b| && b[..|a|] == a
  }

  /** A prefix keeps a prefix of every key's group. */
  lemma {:induction false} WithKeyOfPrefix<T>(xs: seq<T>, n: nat, key: T -> Option<int>, k: Option<int>)
    requires n <= |xs|
    ensures IsPrefix(WithKey(xs[..n], key, k), WithKey(xs, key, k))
  {
    if n < |xs| {
      var init := xs[..|xs| - 1];
      WithKeyOfPrefix(init, n, key, k);
      assert init[..n] == xs[..n];
      var a, b := WithKey(xs[..n], key, k), WithKey(init, key, k);
      assert WithKey(xs, key, k)[..|b|] == b;
      assert WithKey(xs, key, k)[..|a|] == b[..|a|];
    } else {
      assert xs[..n] == xs;
    }
  }

  /** The first `n` elements, or all of them when there are fewer (`Iterator::take`). */
  function Take<T>(xs: seq<T>, n: nat): (r: seq<T>)
    ensures |r| == if n < |xs| then n else |xs|
  {
    if n < |xs| then xs[..n] else xs
  }

  /**
    The first `n` elements of the stable sort of `xs`: drawn from `xs`, `min(n, |xs|)` of them,
    in key order, and for every key the earliest elements of that key in input order.
   */
  lemma TakeSorted<T>(xs: seq<T>, key: T -> Option<int>, n: nat)
    ensures var r := Take(SortBy(xs, key), n);
      && multiset(r) <= multiset(xs)
      && |r| == (if n < |xs| then n else |xs|)
      && Sorted(r, key)
      && forall k :: IsPrefix(WithKey(r, key, k), WithKey(xs, key, k))
  {
    var sorted := SortBy(xs, key);
    var r := Take(sorted, n);
    SortByPermutes(xs, key);
    SortBySorted(xs, key);
    assert r == sorted[..|r|];
    assert multiset(r) <= multiset(sorted) by {
      assert sorted == r + sorted[|r|..];
    }
    forall k ensures IsPrefix(WithKey(r, key, k), WithKey(xs, key, k)) {
      WithKeyOfPrefix(sorted, |r|, key, k);
      SortByStable(xs, key, k);
    }
  }

  /** The streams whose id is not among the existing ones, in input order. */
  function Fresh(streams: seq<StreamDomain.Stream>, existing: set<string>): (r: seq<StreamDomain.Stream>)
    ensures |r| <= |streams|
  {
    if streams == [] then []
    else
      var last := streams[|streams| - 1];
      Fresh(streams[..|streams| - 1], existing) + (if last.videoId in existing then [] else [last])
  }

  /** `Fresh` keeps each stream with a new id as often as it occurs, and no other. */
  lemma {:induction false} FreshMultiplicity(streams: seq<StreamDomain.Stream>, existing: set<string>)
    ensures forall s :: multiset(Fresh(streams, existing))[s] == if s.videoId in existing then 0 else multiset(streams)[s]
  {
    if streams != [] {
      var init, last := streams[..|streams| - 1], streams[|streams| - 1];
      FreshMultiplicity(init, existing);
      assert streams == init + [last];
      assert multiset(streams) == multiset(init) + multiset{last};
    }
  }

  /** `Fresh` keeps exactly the streams with a new id, each as often as it occurs. */
  lemma FreshSpec(streams: seq<StreamDomain.Stream>, existing: set<string>)
    ensures var r := Fresh(streams, existing);
      && (forall i :: 0 <= i < |r| ==> r[i].videoId !in existing)
      && multiset(r) <= multiset(streams)
      && (forall s :: s in streams && s.videoId !in existing ==> s in r)
      && (forall s :: multiset(r)[s] == if s.videoId in existing then 0 else multiset(streams)[s])
  {
    var r := Fresh(streams, existing);
    FreshMultiplicity(streams, existing);
    forall i | 0 <= i < |r| ensures r[i].videoId !in existing {
      assert multiset(r)[r[i]] > 0;
    }
    forall s | s in streams && s.videoId !in existing ensures s in r {
      assert multiset(streams)[s] > 0;
    }
  }

  /** `Fresh` keeps input order: filtering a concatenation concatenates the filtered parts. */
  lemma {:induction false} FreshAppend(a: seq<StreamDomain.Stream>, b: seq<StreamDomain.Stream>, existing: set<string>)
    ensures Fresh(a + b, existing) == Fresh(a, existing) + Fresh(b, existing)
    decreases |b|
  {
    if b == [] {
      assert a + b == a;
    } else {
      var init, last := b[..|b| - 1], b[|b| - 1];
      var tail := if last.videoId in existing then [] else [last];
      FreshAppend(a, init, existing);
      assert (a + b)[..|a + b| - 1] == a + init && (a + b)[|a + b| - 1] == last;
      calc {
        Fresh(a + b, existing);
        Fresh(a + init, existing) + tail;
        Fresh(a, existing) + Fresh(init, existing) + tail;
        Fresh(a, existing) + (Fresh(init, existing) + tail);
      }
    }
  }

  /** Keeping one key and keeping the new ids are filters that commute. */
  lemma {:induction false} FreshWithKey(xs: seq<StreamDomain.Stream>, existing: set<string>,
                                       key: StreamDomain.Stream -> Option<int>, k: Option<int>)
    ensures WithKey(Fresh(xs, existing), key, k) == Fresh(WithKey(xs, key, k), existing)
    decreases |xs|
  {
    if xs != [] {
      var init, last := xs[..|xs| - 1], xs[|xs| - 1];
      FreshWithKey(init, existing, key, k);
      var f := Fresh(init, existing);
      var w := WithKey(init, key, k);
      if last.videoId !in existing {
        assert Fresh(xs, existing) == f + [last];
        assert (f + [last])[..|f + [last]| - 1] == f;
      } else {
        assert Fresh(xs, existing) == f;
      }
      if key(last) == k {
        assert WithKey(xs, key, k) == w + [last];
        assert (w + [last])[..|w + [last]| - 1] == w;
      } else {
        assert WithKey(xs, key, k) == w;
      }
    }
  }

  /**
    The sort key of a candidate: its timestamp. The selection requires every candidate's
    amount to fit in an `i64`, so the `None` branch for an oversized amount is never taken
    (the source panics there).
   */
  function StreamKey(now: int): StreamDomain.Stream -> Option<int> {
    (s: StreamDomain.Stream) => if TimeAgo.AmountFits(s.streamedDate) then s.TimestampFromTimeAgo(now) else None
  }

  /** `sort_and_filter_existing_streams` at instant `now`, with the ids already stored. */
  function SortAndFilter(streams: seq<StreamDomain.Stream>, existing: set<string>, maxStreams: nat, now: int): (r: seq<StreamDomain.Stream>)
    requires forall s :: s in streams && s.videoId !in existing ==> TimeAgo.AmountFits(s.streamedDate)
  {
    Take(SortBy(Fresh(streams, existing), StreamKey(now)), maxStreams)
  }

  /**
    The selection holds no stored id, draws its elements from the input, has
    `min(max_streams, #new)` elements, is ordered oldest first with unknown dates first,
    and takes the streams of one date in input order.
   */
  lemma SortAndFilterSpec(streams: seq<StreamDomain.Stream>, existing: set<string>, maxStreams: nat, now: int)
    requires forall s :: s in streams && s.videoId !in existing ==> TimeAgo.AmountFits(s.streamedDate)
    ensures var r, candidates := SortAndFilter(streams, existing, maxStreams, now), Fresh(streams, existing);
      && (forall i :: 0 <= i < |r| ==> r[i].videoId !in existing)
      && multiset(r) <= multiset(streams)
      && |r| == (if maxStreams < |candidates| then maxStreams else |candidates|)
      && Sorted(r, StreamKey(now))
      && (forall k :: IsPrefix(WithKey(r, StreamKey(now), k), WithKey(candidates, StreamKey(now), k)))
      && (forall s :: multiset(candidates)[s] == if s.videoId in existing then 0 else multiset(streams)[s])
      && (forall k :: IsPrefix(WithKey(r, StreamKey(now), k), Fresh(WithKey(streams, StreamKey(now), k), existing)))
  {
    var candidates := Fresh(streams, existing);
    var r := SortAndFilter(streams, existing, maxStreams, now);
    FreshSpec(streams, existing);
    TakeSorted(candidates, StreamKey(now), maxStreams);
    forall i | 0 <= i < |r| ensures r[i].videoId !in existing {
      assert r[i] in multiset(candidates);
    }
    forall k ensures IsPrefix(WithKey(r, StreamKey(now), k), Fresh(WithKey(streams, StreamKey(now), k), existing)) {
      FreshWithKey(streams, existing, StreamKey(now), k);
    }
  }

  /** The order of the keys is the order of the timestamps, for the streams the selection sorts. */
  lemma StreamKeyIsTimestamp(s: StreamDomain.Stream, now: int)
    requires TimeAgo.AmountFits(s.streamedDate)
    ensures StreamKey(now)(s) == s.TimestampFromTimeAgo(now)
  {
  }
}
