/**
  The order in which `transcribe_streams` visits the chunk files of a stream:
  `sort_by_key(|entry| entry.path())` over the entries of one directory, that is the
  lexicographic order of their file names. The chunk files are named by the split
  pattern `<id>_%03d.mp3`.
 */
module PathOrder {
  import opened Text

  /** Lexicographic order of strings: a prefix comes first, else the first differing character decides. */
  predicate LexLe(a: string, b: string)
    decreases |a|
  {
    a == [] || (b != [] && (a[0] < b[0] || (a[0] == b[0] && LexLe(a[1..], b[1..]))))
  }

  lemma {:induction false} LexTotal(a: string, b: string)
    ensures LexLe(a, b) || LexLe(b, a)
    decreases |a|
  {
    if a != [] && b != [] && a[0] == b[0] {
      LexTotal(a[1..], b[1..]);
    }
  }

  lemma {:induction false} LexTrans(a: string, b: string, c: string)
    requires LexLe(a, b) && LexLe(b, c)
    ensures LexLe(a, c)
    decreases |a|
  {
    if a != [] && a[0] == b[0] && b[0] == c[0] {
      LexTrans(a[1..], b[1..], c[1..]);
    }
  }

  lemma {:induction false} LexAntisym(a: string, b: string)
    requires LexLe(a, b) && LexLe(b, a)
    ensures a == b
    decreases |a|
  {
    if a != [] {
      LexAntisym(a[1..], b[1..]);
      assert a == [a[0]] + a[1..] && b == [b[0]] + b[1..];
    }
  }

  /** A common prefix does not change the order. */
  lemma {:induction false} LexCommonPrefix(p: string, a: string, b: string)
    ensures LexLe(p + a, p + b) <==> LexLe(a, b)
    decreases |p|
  {
    if p != [] {
      assert (p + a)[1..] == p[1..] + a && (p + b)[1..] == p[1..] + b;
      LexCommonPrefix(p[1..], a, b);
    } else {
      assert p + a == a && p + b == b;
    }
  }

  /** The strings in non-decreasing order. */
  predicate Sorted(xs: seq<string>) {
    forall i, j :: 0 <= i < j < |xs| ==> LexLe(xs[i], xs[j])
  }

  /** Places `x` after every element of `ys` that is not greater. */
  function Insert(ys: seq<string>, x: string): (r: seq<string>)
    ensures |r| == |ys| + 1
  {
    if ys == [] || LexLe(ys[|ys| - 1], x) then ys + [x]
    else Insert(ys[..|ys| - 1], x) + [ys[|ys| - 1]]
  }

  /** `sort_by_key(|entry| entry.path())` on the entries of one directory. */
  function SortPaths(xs: seq<string>): (r: seq<string>)
    ensures |r| == |xs|
  {
    if xs == [] then [] else Insert(SortPaths(xs[..|xs| - 1]), xs[|xs| - 1])
  }

  lemma {:induction false} InsertPermutes(ys: seq<string>, x: string)
    ensures multiset(Insert(ys, x)) == multiset(ys) + multiset{x}
  {
    if ys != [] && !LexLe(ys[|ys| - 1], x) {
      InsertPermutes(ys[..|ys| - 1], x);
      assert ys == ys[..|ys| - 1] + [ys[|ys| - 1]];
    }
  }

  lemma {:induction false} InsertBelow(ys: seq<string>, x: string, top: string)
    requires forall i :: 0 <= i < |ys| ==> LexLe(ys[i], top)
    requires LexLe(x, top)
    ensures forall i :: 0 <= i < |ys| + 1 ==> LexLe(Insert(ys, x)[i], top)
  {
    if ys != [] && !LexLe(ys[|ys| - 1], x) {
      InsertBelow(ys[..|ys| - 1], x, top);
    }
  }

  lemma {:induction false} InsertSorted(ys: seq<string>, x: string)
    requires Sorted(ys)
    ensures Sorted(Insert(ys, x))
  {
    if ys == [] {
    } else if LexLe(ys[|ys| - 1], x) {
      var r := ys + [x];
      forall i, j | 0 <= i < j < |r| ensures LexLe(r[i], r[j]) {
        if j == |ys| && i < |ys| - 1 {
          LexTrans(ys[i], ys[|ys| - 1], x);
        }
      }
    } else {
      var init, last := ys[..|ys| - 1], ys[|ys| - 1];
      LexTotal(last, x);
      InsertSorted(init, x);
      InsertBelow(init, x, last);
    }
  }

  /** The sort returns the entries in order. */
  lemma {:induction false} SortPathsSpec(xs: seq<string>)
    ensures Sorted(SortPaths(xs)) && multiset(SortPaths(xs)) == multiset(xs)
  {
    if xs != [] {
      SortPathsSpec(xs[..|xs| - 1]);
      InsertSorted(SortPaths(xs[..|xs| - 1]), xs[|xs| - 1]);
      InsertPermutes(SortPaths(xs[..|xs| - 1]), xs[|xs| - 1]);
      assert xs == xs[..|xs| - 1] + [xs[|xs| - 1]];
    }
  }

  lemma {:induction false} LexRefl(a: string)
    ensures LexLe(a, a)
    decreases |a|
  {
    if a != [] {
      LexRefl(a[1..]);
    }
  }

  lemma LastIsGreatest(a: seq<string>, z: string)
    requires Sorted(a) && z in multiset(a)
    ensures LexLe(z, a[|a| - 1])
  {
    var i :| 0 <= i < |a| && a[i] == z;
    if i == |a| - 1 {
      LexRefl(z);
    }
  }

  /** Dropping the last element keeps the rest sorted and removes one copy of it. */
  lemma DropLast(a: seq<string>)
    requires Sorted(a) && a != []
    ensures Sorted(a[..|a| - 1])
    ensures multiset(a[..|a| - 1]) == multiset(a) - multiset{a[|a| - 1]}
  {
    assert a == a[..|a| - 1] + [a[|a| - 1]];
  }

  /** Two sorted orderings of the same entries end with the same element. */
  lemma SameLast(a: seq<string>, b: seq<string>)
    requires Sorted(a) && Sorted(b) && multiset(a) == multiset(b) && a != [] && b != []
    ensures a[|a| - 1] == b[|b| - 1]
  {
    var x, y := a[|a| - 1], b[|b| - 1];
    assert x in multiset(b) by { assert x in a; }
    assert y in multiset(a) by { assert y in b; }
    LastIsGreatest(a, y);
    LastIsGreatest(b, x);
    LexAntisym(x, y);
  }

  /** Two sorted orderings of the same entries are the same list. */
  lemma {:induction false} SortedUnique(a: seq<string>, b: seq<string>)
    requires Sorted(a) && Sorted(b) && multiset(a) == multiset(b)
    ensures a == b
    decreases |a|
  {
    if a == [] || b == [] {
      assert |multiset(a)| == |a| && |multiset(b)| == |b|;
    } else {
      SameLast(a, b);
      DropLast(a);
      DropLast(b);
      SortedUnique(a[..|a| - 1], b[..|b| - 1]);
      assert a == a[..|a| - 1] + [a[|a| - 1]];
      assert b == b[..|b| - 1] + [b[|b| - 1]];
    }
  }

  /** The three-digit, zero-padded rendering of `k < 1000` (`%03d`). */
  function Pad3(k: nat): (r: string)
    requires k < 1000
    ensures |r| == 3 && AllDigits(r)
  {
    [DigitChar(k / 100), DigitChar(k / 10 % 10), DigitChar(k % 10)]
  }

  /** The name of chunk `k` of a stream's audio, `<id>_%03d.mp3`. */
  function ChunkName(id: string, k: nat): string
    requires k < 1000
  {
    id + "_" + Pad3(k) + ".mp3"
  }

  /** The names of the first `n` chunks, in index order. */
  function ChunkNames(id: string, n: nat): (r: seq<string>)
    requires n <= 1000
    ensures |r| == n
    ensures forall k :: 0 <= k < n ==> r[k] == ChunkName(id, k)
  {
    if n == 0 then [] else ChunkNames(id, n - 1) + [ChunkName(id, n - 1)]
  }

  lemma DigitsOrder(a0: int, a1: int, a2: int, b0: int, b1: int, b2: int)
    requires 0 <= a0 < 10 && 0 <= a1 < 10 && 0 <= a2 < 10
    requires 0 <= b0 < 10 && 0 <= b1 < 10 && 0 <= b2 < 10
    requires 100 * a0 + 10 * a1 + a2 < 100 * b0 + 10 * b1 + b2
    ensures a0 < b0 || (a0 == b0 && (a1 < b1 || (a1 == b1 && a2 < b2)))
  {
  }

  /** Three-character strings compare by their first differing character. */
  lemma Lex3(a: string, b: string)
    requires |a| == 3 && |b| == 3
    requires a[0] < b[0] || (a[0] == b[0] && (a[1] < b[1] || (a[1] == b[1] && a[2] < b[2])))
    ensures LexLe(a, b) && a != b
  {
    assert a[1..][1..] == [a[2]] && b[1..][1..] == [b[2]];
    assert LexLe(a[1..][1..], b[1..][1..]) || a[1] < b[1] || a[0] < b[0];
    assert LexLe(a[1..], b[1..]) || a[0] < b[0];
  }

  lemma Pad3Order(k: nat, j: nat)
    requires k < j < 1000
    ensures LexLe(Pad3(k), Pad3(j)) && Pad3(k) != Pad3(j)
  {
    var a0, a1, a2 := k / 100, k / 10 % 10, k % 10;
    var b0, b1, b2 := j / 100, j / 10 % 10, j % 10;
    assert k == 100 * a0 + 10 * a1 + a2;
    assert j == 100 * b0 + 10 * b1 + b2;
    DigitsOrder(a0, a1, a2, b0, b1, b2);
    Lex3(Pad3(k), Pad3(j));
  }

  /** For fewer than a thousand chunks the file-name order is the index order. */
  lemma {:induction false} ChunkNameOrder(id: string, k: nat, j: nat)
    requires k < j < 1000
    ensures LexLe(ChunkName(id, k), ChunkName(id, j)) && ChunkName(id, k) != ChunkName(id, j)
  {
    Pad3Order(k, j);
    var p := id + "_";
    assert ChunkName(id, k) == p + (Pad3(k) + ".mp3");
    assert ChunkName(id, j) == p + (Pad3(j) + ".mp3");
    LexCommonPrefix(p, Pad3(k) + ".mp3", Pad3(j) + ".mp3");
    Pad3Prefix(Pad3(k), Pad3(j), ".mp3");
    assert (p + (Pad3(k) + ".mp3"))[|p|..|p| + 3] == Pad3(k);
  }

  /** Equal-length strings keep their order and their difference under a common suffix. */
  lemma {:induction false} Pad3Prefix(a: string, b: string, s: string)
    requires |a| == |b| && LexLe(a, b) && a != b
    ensures LexLe(a + s, b + s)
    decreases |a|
  {
    assert a != [];
    if a[0] == b[0] {
      assert a[1..] != b[1..] by {
        assert a == [a[0]] + a[1..] && b == [b[0]] + b[1..];
      }
      assert (a + s)[1..] == a[1..] + s && (b + s)[1..] == b[1..] + s;
      Pad3Prefix(a[1..], b[1..], s);
    }
  }

  /**
    Whatever order the directory lists them in, the chunk files of a split into fewer
    than a thousand pieces are transcribed in index order.
   */
  lemma ChunkFilesInIndexOrder(id: string, n: nat, entries: seq<string>)
    requires n <= 1000 && multiset(entries) == multiset(ChunkNames(id, n))
    ensures SortPaths(entries) == ChunkNames(id, n)
  {
    var names := ChunkNames(id, n);
    SortPathsSpec(entries);
    forall i, j | 0 <= i < j < n ensures LexLe(names[i], names[j]) {
      ChunkNameOrder(id, i, j);
    }
    SortedUnique(SortPaths(entries), names);
  }
}
