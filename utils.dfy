/**
 * The integer and sequence helpers the engine uses: `ArgMax` over 32-bit integers, `Page`,
 * `NextBatch` over an enumerator, and `ParseEnum` as a case-insensitive name lookup.
 */
module Utils {
  import opened Wrappers
  import opened Runtime
  import opened Text

  /**
   * `ArgMax(IList<int>)`: the first index holding the largest element, found by a
   * strict-greater scan seeded with `int.MinValue`; -1 when no element beats that seed.
   */
  method ArgMax(a: seq<Int32>) returns (index: int)
    ensures index == -1 <==> forall i :: 0 <= i < |a| ==> a[i] == IntMin
    ensures index != -1 ==> 0 <= index < |a|
    ensures index != -1 ==> forall i :: 0 <= i < |a| ==> a[i] <= a[index]
    ensures index != -1 ==> forall i :: 0 <= i < index ==> a[i] < a[index]
  {
    index := -1;
    var max: int := IntMin;
    var i := 0;
    while i < |a|
      invariant 0 <= i <= |a|
      invariant -1 <= index < i
      invariant index == -1 <==> max == IntMin
      invariant index == -1 ==> forall j :: 0 <= j < i ==> a[j] == IntMin
      invariant index != -1 ==> max == a[index]
      invariant forall j :: 0 <= j < i ==> a[j] <= max
      invariant index != -1 ==> forall j :: 0 <= j < index ==> a[j] < max
    {
      if a[i] > max {
        max := a[i];
        index := i;
      }
      i := i + 1;
    }
  }

  /**
   * An `IEnumerator<T>` over a fixed sequence: `position` is -1 before the first
   * `MoveNext` and sticks at `|items|` once the sequence is exhausted.
   */
  class Enumerator<T> {
    const items: seq<T>
    var position: int

    ghost predicate Valid()
      reads this
    {
      -1 <= position <= |items|
    }

    constructor (items: seq<T>)
      ensures Valid() && this.items == items && position == -1
    {
      this.items := items;
      position := -1;
    }

    /** Advances to the next element; tells whether there was one. */
    method MoveNext() returns (more: bool)
      requires Valid()
      modifies this
      ensures Valid()
      ensures position == if old(position) < |items| then old(position) + 1 else old(position)
      ensures more <==> position < |items|
    {
      if position < |items| {
        position := position + 1;
      }
      more := position < |items|;
    }

    function Current(): T
      reads this
      requires 0 <= position < |items|
    {
      items[position]
    }

    /** The elements a further `MoveNext` can still reach. */
    function Remaining(): (rest: seq<T>)
      reads this
      requires Valid()
      ensures |rest| <= |items|
    {
      if position == |items| then [] else items[position + 1..]
    }
  }

  /** The longest prefix of `xs` whose elements all satisfy `p`. */
  function TakeWhile<T>(p: T -> bool, xs: seq<T>): (r: seq<T>)
    ensures |r| <= |xs|
  {
    if xs == [] || !p(xs[0]) then [] else [xs[0]] + TakeWhile(p, xs[1..])
  }

  /** `TakeWhile` is a prefix, every element of it satisfies `p`, and it stops at the first failure. */
  lemma {:induction false} TakeWhileIsLongestPrefix<T>(p: T -> bool, xs: seq<T>)
    ensures TakeWhile(p, xs) == xs[..|TakeWhile(p, xs)|]
    ensures forall i :: 0 <= i < |TakeWhile(p, xs)| ==> p(xs[i])
    ensures |TakeWhile(p, xs)| < |xs| ==> !p(xs[|TakeWhile(p, xs)|])
  {
    if xs != [] && p(xs[0]) {
      TakeWhileIsLongestPrefix(p, xs[1..]);
    }
  }

  /**
   * The pages `Page` yields: each page starts with one element taken unconditionally and
   * continues while `p` holds; the element on which `p` fails ends the page and is dropped.
   */
  function Pages<T>(xs: seq<T>, p: T -> bool): seq<seq<T>>
    decreases |xs|
  {
    if xs == [] then []
    else
      var run := TakeWhile(p, xs[1..]);
      [[xs[0]] + run] + if 2 + |run| <= |xs| then Pages(xs[2 + |run|..], p) else []
  }

  /** Every page is non-empty and all but its first element satisfy the predicate. */
  lemma {:induction false} PagesShape<T>(xs: seq<T>, p: T -> bool)
    ensures forall k :: 0 <= k < |Pages(xs, p)| ==> |Pages(xs, p)[k]| > 0
    ensures forall k, j :: 0 <= k < |Pages(xs, p)| && 1 <= j < |Pages(xs, p)[k]| ==> p(Pages(xs, p)[k][j])
    decreases |xs|
  {
    if xs != [] {
      var run := TakeWhile(p, xs[1..]);
      TakeWhileIsLongestPrefix(p, xs[1..]);
      if 2 + |run| <= |xs| {
        PagesShape(xs[2 + |run|..], p);
      }
    }
  }

  /** The element that fails the predicate closes its page and starts no page of its own. */
  lemma PagesDropFailing<T>(a: T, run: seq<T>, b: T, rest: seq<T>, p: T -> bool)
    requires forall i :: 0 <= i < |run| ==> p(run[i])
    requires !p(b)
    ensures Pages([a] + run + [b] + rest, p) == [[a] + run] + Pages(rest, p)
  {
    var xs := [a] + run + [b] + rest;
    TakeWhileStops(p, run, b, rest);
    assert xs[1..] == run + [b] + rest;
    assert xs[2 + |run|..] == rest;
  }

  lemma {:induction false} TakeWhileStops<T>(p: T -> bool, run: seq<T>, b: T, rest: seq<T>)
    requires forall i :: 0 <= i < |run| ==> p(run[i])
    requires !p(b)
    ensures TakeWhile(p, run + [b] + rest) == run
  {
    if run != [] {
      assert (run + [b] + rest)[1..] == run[1..] + [b] + rest;
      TakeWhileStops(p, run[1..], b, rest);
    }
  }

  lemma {:induction false} TakeWhileAll<T>(p: T -> bool, run: seq<T>)
    requires forall i :: 0 <= i < |run| ==> p(run[i])
    ensures TakeWhile(p, run) == run
  {
    if run != [] {
      TakeWhileAll(p, run[1..]);
      assert run == [run[0]] + run[1..];
    }
  }

  /** When the predicate holds to the end, the last page runs to the end. */
  lemma PagesLastPage<T>(a: T, run: seq<T>, p: T -> bool)
    requires forall i :: 0 <= i < |run| ==> p(run[i])
    ensures Pages([a] + run, p) == [[a] + run]
  {
    TakeWhileAll(p, run);
    assert ([a] + run)[1..] == run;
  }

  /**
   * The inner loop of `Page`: starting on a page's first element, collects it and the run of
   * following elements that satisfy `p`, leaving the enumerator on the element that failed
   * (or past the end).
   */
  method ReadPage<T>(e: Enumerator<T>, p: T -> bool) returns (page: seq<T>, more: bool)
    requires e.Valid() && 0 <= e.position < |e.items|
    modifies e
    ensures e.Valid()
    ensures var start := old(e.position); var n := e.position - start - 1;
      && 0 <= n <= |e.items| - start - 1
      && page == [e.items[start]] + e.items[start + 1..start + 1 + n]
      && (forall i :: start + 1 <= i < start + 1 + n ==> p(e.items[i]))
      && (n < |e.items| - start - 1 ==> !p(e.items[start + 1 + n]))
    ensures more <==> e.position < |e.items|
  {
    ghost var start := e.position;
    page := [e.Current()];
    more := e.MoveNext();
    while more && p(e.Current())
      invariant e.Valid() && start < e.position
      invariant more <==> e.position < |e.items|
      invariant page == [e.items[start]] + e.items[start + 1..e.position]
      invariant forall i :: start + 1 <= i < e.position ==> p(e.items[i])
      decreases |e.items| - e.position
    {
      assert e.items[start + 1..e.position + 1] == e.items[start + 1..e.position] + [e.Current()];
      page := page + [e.Current()];
      more := e.MoveNext();
    }
  }

  /**
   * One page and the `MoveNext` after it: the pages from `start` are this page followed by
   * the pages from where the enumerator now stands.
   */
  lemma PagesAfter<T>(source: seq<T>, p: T -> bool, start: nat, n: nat, next: nat)
    requires start < |source| && n <= |source| - start - 1
    requires forall i :: start + 1 <= i < start + 1 + n ==> p(source[i])
    requires n < |source| - start - 1 ==> !p(source[start + 1 + n])
    requires next == if start + 1 + n < |source| then start + 2 + n else |source|
    ensures Pages(source[start..], p) == [[source[start]] + source[start + 1..start + 1 + n]] + Pages(source[next..], p)
  {
    var run := source[start + 1..start + 1 + n];
    forall i | 0 <= i < |run|
      ensures p(run[i])
    {
      assert run[i] == source[start + 1 + i];
    }
    if start + 1 + n < |source| {
      assert source[start..] == [source[start]] + run + [source[start + 1 + n]] + source[next..];
      PagesDropFailing(source[start], run, source[start + 1 + n], source[next..], p);
    } else {
      assert source[start..] == [source[start]] + run;
      PagesLastPage(source[start], run, p);
      assert source[next..] == [];
    }
  }

  /**
   * One turn of the outer loop of `Page`: reads a page and steps past the element that
   * closed it. The pages from where the enumerator stood are this page and the pages from
   * where it stands now.
   */
  method NextPage<T>(e: Enumerator<T>, p: T -> bool) returns (page: seq<T>, more: bool)
    requires e.Valid() && 0 <= e.position < |e.items|
    modifies e
    ensures e.Valid() && old(e.position) < e.position
    ensures more <==> e.position < |e.items|
    ensures Pages(e.items[old(e.position)..], p) == [page] + Pages(e.items[e.position..], p)
  {
    ghost var start := e.position;
    page, more := ReadPage(e, p);
    ghost var n := e.position - start - 1;
    more := e.MoveNext();
    PagesAfter(e.items, p, start, n, e.position);
  }

  /** `Page`: splits `source` into pages by walking one enumerator, as `Pages` describes. */
  method Page<T>(source: seq<T>, p: T -> bool) returns (pages: seq<seq<T>>)
    ensures pages == Pages(source, p)
  {
    var e := new Enumerator(source);
    pages := [];
    var more := e.MoveNext();
    while more
      invariant e.Valid() && e.items == source && 0 <= e.position
      invariant more <==> e.position < |source|
      invariant pages + Pages(source[e.position..], p) == Pages(source, p)
      decreases |source| - e.position
    {
      var page;
      page, more := NextPage(e, p);
      pages := pages + [page];
    }
    assert source[e.position..] == [];
  }

  /** The elements of `xs` that satisfy `p`, in order. */
  function Filter<T>(p: T -> bool, xs: seq<T>): (r: seq<T>)
    ensures |r| <= |xs|
  {
    if xs == [] then [] else (if p(xs[0]) then [xs[0]] else []) + Filter(p, xs[1..])
  }

  /** At most the first `n` elements. */
  function Take<T>(xs: seq<T>, n: int): (r: seq<T>)
    ensures |r| == if n < 0 then 0 else if n < |xs| then n else |xs|
    ensures forall i :: 0 <= i < |r| ==> r[i] == xs[i]
  {
    if n <= 0 then [] else if n < |xs| then xs[..n] else xs
  }

  /**
   * The `while (MoveNext() && i < count)` loop of `NextBatch` over the elements still ahead:
   * the batch gathered so far and the number of elements the loop consumes. `MoveNext` runs
   * before the count test, so once the batch is full one more element is consumed and dropped.
   */
  function BatchScan<T>(xs: seq<T>, p: T -> bool, count: int, taken: seq<T>): (r: (seq<T>, nat))
    ensures r.1 <= |xs|
  {
    if xs == [] then (taken, 0)
    else if !(|taken| < count) then (taken, 1)
    else
      var r := BatchScan(xs[1..], p, count, if p(xs[0]) then taken + [xs[0]] else taken);
      (r.0, r.1 + 1)
  }

  /**
   * What `NextBatch` returns for the elements `rest` still ahead of the enumerator, and how
   * many of them it consumes: `None` (null) when there is none.
   */
  function NextBatchOf<T>(rest: seq<T>, p: T -> bool, count: int): (r: Option<(seq<T>, nat)>)
    ensures r.None? <==> rest == []
    ensures r.Some? ==> 1 <= r.value.1 <= |rest|
  {
    if rest == [] then None
    else
      var r := BatchScan(rest[1..], p, count, if p(rest[0]) && 0 < count then [rest[0]] else []);
      Some((r.0, r.1 + 1))
  }

  /** Taking from a list that starts with x: x, then the rest from the tail. */
  lemma TakeCons<T>(x: T, f: seq<T>, m: int)
    requires m > 0
    ensures Take([x] + f, m) == [x] + Take(f, m - 1)
  {
    var l := [x] + f;
    var r := Take(l, m);
    assert |r| == 1 + |Take(f, m - 1)|;
    forall i | 0 <= i < |r|
      ensures r[i] == ([x] + Take(f, m - 1))[i]
    {
      if i > 0 {
        assert r[i] == l[i] == f[i - 1];
      }
    }
  }

  lemma Assoc<T>(a: seq<T>, b: seq<T>, c: seq<T>)
    ensures (a + b) + c == a + (b + c)
  {
  }

  lemma {:induction false} BatchScanTakesMatches<T>(xs: seq<T>, p: T -> bool, count: int, taken: seq<T>)
    requires |taken| <= count
    ensures BatchScan(xs, p, count, taken).0 == taken + Take(Filter(p, xs), count - |taken|)
    decreases |xs|
  {
    if xs == [] {
      assert Take(Filter(p, xs), count - |taken|) == [];
    } else if |taken| == count {
      assert Take(Filter(p, xs), count - |taken|) == [];
    } else {
      var f := Filter(p, xs[1..]);
      assert Filter(p, xs) == (if p(xs[0]) then [xs[0]] else []) + f;
      if p(xs[0]) {
        var next := taken + [xs[0]];
        BatchScanTakesMatches(xs[1..], p, count, next);
        TakeCons(xs[0], f, count - |taken|);
        Assoc(taken, [xs[0]], Take(f, count - |next|));
      } else {
        BatchScanTakesMatches(xs[1..], p, count, taken);
        assert [] + f == f;
      }
    }
  }

  lemma {:induction false} BatchScanKeepsEmpty<T>(xs: seq<T>, p: T -> bool, count: int)
    requires count <= 0
    ensures BatchScan(xs, p, count, []).0 == []
  {
  }

  /**
   * A batch holds the first `count` elements ahead that satisfy `p` (fewer when there are
   * fewer), in source order, and nothing when `count` is not positive.
   */
  lemma NextBatchIsFirstMatches<T>(rest: seq<T>, p: T -> bool, count: int)
    requires rest != []
    ensures count <= 0 ==> NextBatchOf(rest, p, count).value.0 == []
    ensures 0 < count ==> NextBatchOf(rest, p, count).value.0 == Take(Filter(p, rest), count)
  {
    var first := if p(rest[0]) && 0 < count then [rest[0]] else [];
    if count <= 0 {
      BatchScanKeepsEmpty(rest[1..], p, count);
    } else {
      BatchScanTakesMatches(rest[1..], p, count, first);
      var f := Filter(p, rest[1..]);
      if p(rest[0]) {
        assert Filter(p, rest) == [rest[0]] + f;
        assert Take([rest[0]] + f, count) == [rest[0]] + Take(f, count - 1);
      } else {
        assert Filter(p, rest) == f;
      }
    }
  }

  /** With every element matching, no element is filtered out. */
  lemma {:induction false} FilterAllMatch<T>(p: T -> bool, xs: seq<T>)
    requires forall x :: p(x)
    ensures Filter(p, xs) == xs
    decreases |xs|
  {
    if xs != [] {
      FilterAllMatch(p, xs[1..]);
      assert [xs[0]] + xs[1..] == xs;
    }
  }

  /**
   * With every element matching, the scan consumes everything ahead while the batch has
   * room, and one element more once it is full.
   */
  lemma {:induction false} BatchScanConsumes<T>(xs: seq<T>, p: T -> bool, count: int, taken: seq<T>)
    requires forall x :: p(x)
    requires |taken| <= count
    ensures BatchScan(xs, p, count, taken).1 == if |xs| <= count - |taken| then |xs| else count - |taken| + 1
    decreases |xs|
  {
    if xs != [] && |taken| < count {
      BatchScanConsumes(xs[1..], p, count, taken + [xs[0]]);
    }
  }

  /**
   * When every element matches, a batch is the first `count` elements ahead, and with more
   * than `count` ahead the loop consumes `count + 1` of them: the element after the last one
   * taken is lost.
   */
  lemma NextBatchDropsOneAfterFull<T>(rest: seq<T>, p: T -> bool, count: int)
    requires rest != [] && 0 < count
    requires forall x :: p(x)
    ensures NextBatchOf(rest, p, count).value.0 == Take(rest, count)
    ensures NextBatchOf(rest, p, count).value.1 == if |rest| <= count then |rest| else count + 1
  {
    NextBatchIsFirstMatches(rest, p, count);
    FilterAllMatch(p, rest);
    BatchScanConsumes(rest[1..], p, count, [rest[0]]);
  }

  /** One turn of the loop: with room in the batch the element ahead is consumed, and kept when it matches. */
  lemma BatchScanStep<T>(rest: seq<T>, k: nat, p: T -> bool, count: int, page: seq<T>)
    requires k < |rest| && |page| < count
    ensures var next := if p(rest[k]) then page + [rest[k]] else page;
      BatchScan(rest[k..], p, count, page)
        == (BatchScan(rest[k + 1..], p, count, next).0, BatchScan(rest[k + 1..], p, count, next).1 + 1)
  {
    assert rest[k..][0] == rest[k] && rest[k..][1..] == rest[k + 1..];
  }

  /**
   * The loop of `NextBatch` after the first element: keeps calling `MoveNext` while there is
   * room in the batch, as `BatchScan` describes for the elements that were ahead.
   */
  method ScanRest<T>(e: Enumerator<T>, p: T -> bool, count: int, first: seq<T>) returns (page: seq<T>)
    requires e.Valid() && e.position < |e.items|
    modifies e
    ensures e.Valid()
    ensures var r := BatchScan(old(e.Remaining()), p, count, first);
      page == r.0 && e.Remaining() == old(e.Remaining())[r.1..]
  {
    ghost var rest := e.Remaining();
    ghost var start := e.position;
    page := first;
    var i := |first|;
    ghost var k := 0;
    var more := e.MoveNext();
    while more && i < count
      invariant e.Valid() && rest == e.items[start + 1..]
      invariant 0 <= k <= |rest| && e.position == start + 1 + k
      invariant more <==> k < |rest|
      invariant i == |page|
      invariant BatchScan(rest, p, count, first)
        == (BatchScan(rest[k..], p, count, page).0, BatchScan(rest[k..], p, count, page).1 + k)
      decreases |rest| - k
    {
      BatchScanStep(rest, k, p, count, page);
      if p(e.Current()) {
        page := page + [e.Current()];
        i := i + 1;
      }
      k := k + 1;
      more := e.MoveNext();
    }
    if more {
      assert rest[k..] != [];
    } else {
      assert rest[k..] == [];
    }
  }

  /**
   * `NextBatch`: advances `e` and returns the next batch, as `NextBatchOf` describes for the
   * elements that were ahead of the enumerator.
   */
  method NextBatch<T>(e: Enumerator<T>, p: T -> bool, count: int) returns (batch: Option<seq<T>>)
    requires e.Valid()
    modifies e
    ensures e.Valid()
    ensures var r := NextBatchOf(old(e.Remaining()), p, count);
      && (r.None? ==> batch.None? && e.position == |e.items|)
      && (r.Some? ==> batch == Some(r.value.0) && e.Remaining() == old(e.Remaining())[r.value.1..])
  {
    ghost var rest := e.Remaining();
    ghost var start := e.position;
    var more := e.MoveNext();
    if !more {
      return None;
    }
    var page: seq<T> := [];
    if p(e.Current()) && 0 < count {
      page := page + [e.Current()];
    }
    assert rest == e.items[start + 1..] && rest[0] == e.Current();
    assert e.Remaining() == rest[1..];
    assert page == if p(rest[0]) && 0 < count then [rest[0]] else [];
    ghost var r := BatchScan(rest[1..], p, count, page);
    assert NextBatchOf(rest, p, count) == Some((r.0, r.1 + 1));
    page := ScanRest(e, p, count, page);
    assert e.Remaining() == rest[1..][r.1..] == rest[r.1 + 1..];
    batch := Some(page);
  }

  /**
   * `Enum.Parse(type, s, ignoreCase: true)` for an enumeration whose member names are
   * `names` in declaration order: the first member whose name matches `s` ignoring case,
   * or `ArgumentException` when none does.
   */
  function ParseEnum(names: seq<string>, s: string): (r: Result<nat, Exn>)
    ensures r.Ok? ==> r.value < |names| && EqualsIgnoreCase(names[r.value], s)
    ensures r.Ok? ==> forall k :: 0 <= k < r.value ==> !EqualsIgnoreCase(names[k], s)
    ensures r.Err? <==> forall k :: 0 <= k < |names| ==> !EqualsIgnoreCase(names[k], s)
    ensures r.Err? ==> r.error.kind == ArgumentError
  {
    if names == [] then Err(Raise(ArgumentError))
    else if EqualsIgnoreCase(names[0], s) then Ok(0)
    else match ParseEnum(names[1..], s)
      case Ok(k) => Ok(k + 1)
      case Err(e) => Err(e)
  }
}
