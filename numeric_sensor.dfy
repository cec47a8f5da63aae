/**
 * `NumericSensor`: a reading is a number, recorded in `AllReadings`, and falls into the
 * first bin whose edge it does not exceed. Bucket i is named after the range of bin i.
 */
module NumericSensors {
  import opened Wrappers
  import opened Runtime
  import opened Text
  import opened Sensors

  /**
   * The scan of `ComputeSensor` from position `i`: the first `i < count` whose edge the
   * value does not exceed, or `count - 1` when there is none. A missing `Bins` array
   * throws on its first use and an edge past its end is an out-of-bounds read.
   */
  function BinScanFrom(v: real, count: int, bins: Option<seq<Edge>>, i: nat): Result<int, Exn>
    decreases count - i
  {
    if i >= count then Ok(count - 1)
    else if bins.None? then Err(Raise(NullReference))
    else if i >= |bins.value| then Err(Raise(IndexOutOfRange))
    else if !Exceeds(v, bins.value[i]) then Ok(i)
    else BinScanFrom(v, count, bins, i + 1)
  }

  /** The bucket index `ComputeSensor` returns for value `v` with `count` buckets. */
  function BinScan(v: real, count: int, bins: Option<seq<Edge>>): Result<int, Exn>
  {
    BinScanFrom(v, count, bins, 0)
  }

  lemma {:induction false} BinScanFromRange(v: real, count: int, bins: Option<seq<Edge>>, i: nat)
    requires i <= count
    ensures BinScanFrom(v, count, bins, i).Ok? ==>
      var k := BinScanFrom(v, count, bins, i).value;
      (i <= k < count || k == count - 1) && k >= i - 1
    decreases count - i
  {
    if i < count && bins.Some? && i < |bins.value| && Exceeds(v, bins.value[i]) {
      BinScanFromRange(v, count, bins, i + 1);
    }
  }

  /**
   * The index is a bucket of the sensor, except that a sensor without buckets yields -1
   * (which the list indexer then rejects).
   */
  lemma BinScanRange(v: real, count: int, bins: Option<seq<Edge>>)
    ensures count <= 0 ==> BinScan(v, count, bins) == Ok(count - 1)
    ensures count > 0 && BinScan(v, count, bins).Ok? ==> 0 <= BinScan(v, count, bins).value < count
  {
    if count > 0 {
      BinScanFromRange(v, count, bins, 0);
    }
  }

  lemma {:induction false} BinScanFromFirstFit(v: real, count: int, bins: seq<Edge>, i: nat)
    requires i < count <= |bins|
    ensures BinScanFrom(v, count, Some(bins), i).Ok?
    ensures var k := BinScanFrom(v, count, Some(bins), i).value;
      && i <= k < count
      && (forall j :: i <= j < k ==> Exceeds(v, bins[j]))
      && (!Exceeds(v, bins[k]) || (k == count - 1 && forall j :: i <= j < count ==> Exceeds(v, bins[j])))
    decreases count - i
  {
    if Exceeds(v, bins[i]) && i + 1 < count {
      BinScanFromFirstFit(v, count, bins, i + 1);
    }
  }

  /**
   * With an edge for every bucket the scan cannot fail: it returns the first bin whose
   * edge the value does not exceed, and the last bucket when the value exceeds them all.
   */
  lemma BinScanFirstFit(v: real, count: int, bins: seq<Edge>)
    requires 0 < count <= |bins|
    ensures BinScan(v, count, Some(bins)).Ok?
    ensures var k := BinScan(v, count, Some(bins)).value;
      && 0 <= k < count
      && (forall j :: 0 <= j < k ==> Exceeds(v, bins[j]))
      && (!Exceeds(v, bins[k]) || (k == count - 1 && forall j :: 0 <= j < count ==> Exceeds(v, bins[j])))
  {
    BinScanFromFirstFit(v, count, bins, 0);
  }

  lemma {:induction false} BinScanFromShortBins(v: real, count: int, bins: seq<Edge>, i: nat)
    requires |bins| < count && i <= |bins|
    ensures BinScanFrom(v, count, Some(bins), i).Err? <==> forall j :: i <= j < |bins| ==> Exceeds(v, bins[j])
    ensures BinScanFrom(v, count, Some(bins), i).Err? ==> BinScanFrom(v, count, Some(bins), i).error.kind == IndexOutOfRange
    decreases |bins| - i
  {
    if i < |bins| && Exceeds(v, bins[i]) {
      BinScanFromShortBins(v, count, bins, i + 1);
    }
  }

  /**
   * The errors of the scan: without a `Bins` array it throws as soon as there is a bucket,
   * and with fewer edges than buckets it reads past the array exactly when the value
   * exceeds every edge there is.
   */
  lemma BinScanErrors(v: real, count: int, bins: Option<seq<Edge>>)
    ensures count > 0 && bins.None? ==> BinScan(v, count, bins) == Err(Raise(NullReference))
    ensures count > 0 && bins.Some? && |bins.value| < count ==>
      (BinScan(v, count, bins).Err? <==> forall j :: 0 <= j < |bins.value| ==> Exceeds(v, bins.value[j]))
    ensures count > 0 && bins.Some? && |bins.value| < count && BinScan(v, count, bins).Err? ==>
      BinScan(v, count, bins).error.kind == IndexOutOfRange
    ensures bins.Some? && count <= |bins.value| ==> BinScan(v, count, bins).Ok?
  {
    if bins.Some? && |bins.value| < count {
      BinScanFromShortBins(v, count, bins.value, 0);
    }
    if bins.Some? && 0 < count <= |bins.value| {
      BinScanFirstFit(v, count, bins.value);
    }
  }

  /** `a < b` on edges; positive infinity is above every whole number. */
  predicate EdgeLess(a: Edge, b: Edge)
  {
    a.At? && (b.PositiveInfinity? || a.n < b.n)
  }

  /** Bin edges in strictly ascending order, as every bin table of the engine is. */
  predicate StrictlyAscending(bins: seq<Edge>)
  {
    forall i, j :: 0 <= i < j < |bins| ==> EdgeLess(bins[i], bins[j])
  }

  /**
   * With strictly ascending edges, one per bucket, ending in infinity, the value lands in
   * the unique bin whose edge it does not exceed while exceeding the previous edge.
   */
  lemma BinScanBracket(v: real, bins: seq<Edge>, k: int)
    requires StrictlyAscending(bins) && |bins| > 0 && bins[|bins| - 1] == PositiveInfinity
    requires 0 <= k < |bins|
    ensures BinScan(v, |bins|, Some(bins)).Ok?
    ensures BinScan(v, |bins|, Some(bins)).value == k <==>
      (k == 0 || Exceeds(v, bins[k - 1])) && !Exceeds(v, bins[k])
  {
    BinScanFirstFit(v, |bins|, bins);
    var r := BinScan(v, |bins|, Some(bins)).value;
    assert !Exceeds(v, bins[r]);
    if (k == 0 || Exceeds(v, bins[k - 1])) && !Exceeds(v, bins[k]) {
      assert !Exceeds(v, bins[k]);
    }
  }

  /** With strictly ascending edges a larger value never moves to an earlier bucket. */
  lemma BinScanMonotonic(v: real, w: real, count: int, bins: seq<Edge>)
    requires StrictlyAscending(bins) && 0 < count <= |bins| && v <= w
    ensures BinScan(v, count, Some(bins)).Ok? && BinScan(w, count, Some(bins)).Ok?
    ensures BinScan(v, count, Some(bins)).value <= BinScan(w, count, Some(bins)).value
  {
    BinScanFirstFit(v, count, bins);
    BinScanFirstFit(w, count, bins);
    var kv := BinScan(v, count, Some(bins)).value;
    var kw := BinScan(w, count, Some(bins)).value;
    assert !Exceeds(w, bins[kw]) || forall j :: 0 <= j < count ==> Exceeds(w, bins[j]);
  }

  /**
   * `ComputeSensor`: parses the reading, appends the value to `AllReadings`, then scans
   * the bins as `BinScan` describes. A reading that does not parse changes nothing; a
   * missing `AllReadings` list throws before the scan.
   */
  method ComputeSensor(s: Sensor, reading: string, p: Platform) returns (r: Result<int, Exn>)
    modifies s.allReadings
    ensures ParseDouble(p, reading).Err? ==> r == Err(ParseDouble(p, reading).error)
    ensures ParseDouble(p, reading).Err? && s.allReadings != null ==> s.allReadings.items == old(s.allReadings.items)
    ensures ParseDouble(p, reading).Ok? && s.allReadings == null ==> r == Err(Raise(NullReference))
    ensures ParseDouble(p, reading).Ok? && s.allReadings != null ==>
      var v := ParseDouble(p, reading).value;
      && s.allReadings.items == old(s.allReadings.items) + [v]
      && r == BinScan(v, |s.buckets|, s.bins)
  {
    var parsed := ParseDouble(p, reading);
    if parsed.Err? {
      return Err(parsed.error);
    }
    var sensorValue := parsed.value;
    if s.allReadings == null {
      return Err(Raise(NullReference));
    }
    s.allReadings.items := s.allReadings.items + [sensorValue];
    var val := |s.buckets| - 1;
    var i := 0;
    while i < |s.buckets|
      invariant 0 <= i <= |s.buckets|
      invariant BinScan(sensorValue, |s.buckets|, s.bins) == BinScanFrom(sensorValue, |s.buckets|, s.bins, i)
    {
      if s.bins.None? {
        return Err(Raise(NullReference));
      }
      if i >= |s.bins.value| {
        return Err(Raise(IndexOutOfRange));
      }
      if Exceeds(sensorValue, s.bins.value[i]) {
        i := i + 1;
        continue;
      }
      val := i;
      break;
    }
    r := Ok(val);
  }

  /** The bucket `Compute` reports for the value `v`: `Buckets[ComputeSensor(...)]`. */
  function Choose(s: Sensor, v: real): (r: Result<SensorBucket, Exn>)
    reads s
    ensures BinScan(v, |s.buckets|, s.bins).Err? ==> r == Err(BinScan(v, |s.buckets|, s.bins).error)
    ensures BinScan(v, |s.buckets|, s.bins).Ok? ==> r == BucketAt(s.buckets, BinScan(v, |s.buckets|, s.bins).value)
  {
    match BinScan(v, |s.buckets|, s.bins)
    case Err(e) => Err(e)
    case Ok(k) => BucketAt(s.buckets, k)
  }

  /**
   * A configured sensor (one bucket per edge) always finds a bucket, and a sensor with no
   * buckets always fails with an out-of-range index.
   */
  lemma ChooseAfterConfigure(s: Sensor, v: real)
    requires s.bins.Some? && |s.buckets| == |s.bins.value|
    ensures |s.buckets| > 0 ==> Choose(s, v).Ok?
    ensures |s.buckets| == 0 ==> Choose(s, v) == Err(Raise(ArgumentOutOfRange))
  {
    BinScanRange(v, |s.buckets|, s.bins);
    BinScanErrors(v, |s.buckets|, s.bins);
  }

  /**
   * `Compute`: a fresh reading of `Choose`'s bucket with the value 1.0 and the given time;
   * `AllReadings` changes as `ComputeSensor` describes.
   */
  method Compute(s: Sensor, reading: string, dateTime: DateTime, p: Platform) returns (r: Result<SensorReading, Exn>)
    modifies s.allReadings
    ensures ParseDouble(p, reading).Err? ==> r == Err(ParseDouble(p, reading).error)
    ensures ParseDouble(p, reading).Err? && s.allReadings != null ==> s.allReadings.items == old(s.allReadings.items)
    ensures ParseDouble(p, reading).Ok? && s.allReadings == null ==> r == Err(Raise(NullReference))
    ensures ParseDouble(p, reading).Ok? && s.allReadings != null ==>
      var v := ParseDouble(p, reading).value;
      && s.allReadings.items == old(s.allReadings.items) + [v]
      && (r.Ok? <==> Choose(s, v).Ok?)
      && (r.Err? ==> r.error == Choose(s, v).error)
      && (r.Ok? ==> fresh(r.value) && r.value.bucket == Choose(s, v).value && r.value.value == 1.0 && r.value.dateTime == dateTime)
  {
    var k := ComputeSensor(s, reading, p);
    if k.Err? {
      return Err(k.error);
    }
    var bucket := BucketAt(s.buckets, k.value);
    if bucket.Err? {
      return Err(bucket.error);
    }
    var sr := new SensorReading(bucket.value, 1.0, dateTime);
    r := Ok(sr);
  }

  /** `double.ToString(CultureInfo.InvariantCulture)` of an edge. */
  function EdgeText(e: Edge): string
  {
    if e.At? then IntToString(e.n) else "Infinity"
  }

  /** `e + 1`; infinity stays infinite. */
  function Succ(e: Edge): Edge
  {
    if e.At? then At(e.n + 1) else PositiveInfinity
  }

  /**
   * `GetLengthStrings(lengths, i)`: the first edge itself; an edge one above its
   * predecessor by itself; a finite edge below `int.MaxValue` as "a-b" with a one above
   * the previous edge; otherwise ">" and the previous edge.
   */
  function LengthString(lengths: seq<Edge>, i: nat): string
    requires i < |lengths|
  {
    if i == 0 then EdgeText(lengths[0])
    else if lengths[i].At? && lengths[i - 1].At? && lengths[i].n - lengths[i - 1].n == 1 then EdgeText(lengths[i])
    else if lengths[i].At? && lengths[i].n < IntMax then EdgeText(Succ(lengths[i - 1])) + "-" + EdgeText(lengths[i])
    else ">" + EdgeText(lengths[i - 1])
  }

  /** The shapes a bin name can take. */
  datatype Label = Digits(n: int) | Span(lo: int, hi: int) | Above(n: int) | Infinite

  function Render(l: Label): string
  {
    match l
    case Digits(n) => IntToString(n)
    case Span(lo, hi) => IntToString(lo) + "-" + IntToString(hi)
    case Above(n) => ">" + IntToString(n)
    case Infinite => "Infinity"
  }

  /**
   * The label of bin i of strictly ascending edges: what the bin covers, as its name
   * spells it. Every edge but the last is finite.
   */
  function LabelOf(bins: seq<Edge>, i: nat): (l: Label)
    requires StrictlyAscending(bins) && i < |bins|
    ensures LengthString(bins, i) == Render(l)
  {
    if i == 0 then (if bins[0].At? then Digits(bins[0].n) else Infinite)
    else
      assert EdgeLess(bins[i - 1], bins[i]);
      if bins[i].At? && bins[i].n - bins[i - 1].n == 1 then Digits(bins[i].n)
      else if bins[i].At? && bins[i].n < IntMax then Span(bins[i - 1].n + 1, bins[i].n)
      else Above(bins[i - 1].n)
  }

  /** A predicate for the labels of edges that are never negative. */
  predicate NonNegativeLabel(l: Label)
  {
    match l
    case Digits(n) => n >= 0
    case Span(lo, hi) => lo >= 0 && hi >= 0
    case Above(n) => n >= 0
    case Infinite => true
  }

  lemma NatTextHasNoSigns(n: nat)
    ensures |IntToString(n)| > 0
    ensures forall k :: 0 <= k < |IntToString(n)| ==> IntToString(n)[k] != '-' && IntToString(n)[k] != '>' && IntToString(n)[k] != 'I'
  {
    NatToStringRoundTrip(n);
  }

  /** Splitting "x-y" at its dash is unique when x carries no dash. */
  lemma SplitAtDash(x: string, y: string, u: string, w: string)
    requires forall k :: 0 <= k < |x| ==> x[k] != '-'
    requires forall k :: 0 <= k < |u| ==> u[k] != '-'
    requires x + "-" + y == u + "-" + w
    ensures x == u && y == w
  {
    var s := x + "-" + y;
    assert s[|x|] == '-' && forall k :: 0 <= k < |x| ==> s[k] == x[k];
    assert s[|u|] == '-' && forall k :: 0 <= k < |u| ==> s[k] == u[k];
    assert x == s[..|x|] == u;
    assert y == s[|x| + 1..] == w;
  }

  /** Names of non-negative labels tell the labels apart. */
  lemma RenderInjective(a: Label, b: Label)
    requires NonNegativeLabel(a) && NonNegativeLabel(b)
    ensures Render(a) == Render(b) ==> a == b
  {
    match a {
      case Digits(n) =>
        NatTextHasNoSigns(n);
        match b {
          case Digits(m) => IntToStringInjective(n, m);
          case Span(lo, hi) =>
            NatTextHasNoSigns(lo);
            var k := |IntToString(lo)|;
            assert Render(b)[k] == '-';
            assert k < |Render(a)| ==> Render(a)[k] != '-';
          case Above(_) => assert Render(b)[0] == '>' != Render(a)[0];
          case Infinite => assert Render(b)[0] == 'I' != Render(a)[0];
        }
      case Span(lo, hi) =>
        NatTextHasNoSigns(lo);
        match b {
          case Digits(m) =>
            NatTextHasNoSigns(m);
            var k := |IntToString(lo)|;
            assert Render(a)[k] == '-';
            assert k < |Render(b)| ==> Render(b)[k] != '-';
          case Span(lo', hi') =>
            NatTextHasNoSigns(lo');
            if Render(a) == Render(b) {
              SplitAtDash(IntToString(lo), IntToString(hi), IntToString(lo'), IntToString(hi'));
              IntToStringInjective(lo, lo');
              IntToStringInjective(hi, hi');
            }
          case Above(_) => assert Render(b)[0] == '>' != Render(a)[0];
          case Infinite => assert Render(b)[0] == 'I' != Render(a)[0];
        }
      case Above(n) =>
        match b {
          case Digits(m) => NatTextHasNoSigns(m); assert Render(a)[0] == '>' != Render(b)[0];
          case Span(lo, _) => NatTextHasNoSigns(lo); assert Render(a)[0] == '>' != Render(b)[0];
          case Above(m) =>
            assert Render(a)[1..] == IntToString(n) && Render(b)[1..] == IntToString(m);
            IntToStringInjective(n, m);
          case Infinite => assert Render(b)[0] == 'I' != Render(a)[0];
        }
      case Infinite =>
        match b {
          case Digits(m) => NatTextHasNoSigns(m); assert Render(b)[0] != 'I';
          case Span(lo, _) => NatTextHasNoSigns(lo); assert Render(b)[0] != 'I';
          case Above(_) => assert Render(b)[0] == '>';
          case Infinite =>
        }
    }
  }

  /** Every finite edge is zero or more. */
  predicate NonNegativeEdges(bins: seq<Edge>)
  {
    forall i :: 0 <= i < |bins| && bins[i].At? ==> bins[i].n >= 0
  }

  /** Distinct bins of strictly ascending edges get distinct labels. */
  lemma LabelOfInjective(bins: seq<Edge>, i: nat, j: nat)
    requires StrictlyAscending(bins) && i < j < |bins|
    ensures LabelOf(bins, i) != LabelOf(bins, j)
  {
    var a := LabelOf(bins, i);
    var b := LabelOf(bins, j);
    assert EdgeLess(bins[i], bins[j]) && EdgeLess(bins[j - 1], bins[j]);
    if i > 0 {
      assert EdgeLess(bins[i - 1], bins[i]);
      assert EdgeLess(bins[i - 1], bins[j - 1]) || i == j - 1;
    }
    if j - 1 > i {
      assert EdgeLess(bins[i], bins[j - 1]);
    }
  }

  /**
   * With strictly ascending, non-negative edges every bucket `Configure` creates gets a
   * different name.
   */
  lemma LengthStringsDistinct(bins: seq<Edge>, i: nat, j: nat)
    requires StrictlyAscending(bins) && NonNegativeEdges(bins) && i < j < |bins|
    ensures LengthString(bins, i) != LengthString(bins, j)
  {
    LabelOfInjective(bins, i, j);
    LabelNonNegative(bins, i);
    LabelNonNegative(bins, j);
    RenderInjective(LabelOf(bins, i), LabelOf(bins, j));
  }

  lemma LabelNonNegative(bins: seq<Edge>, i: nat)
    requires StrictlyAscending(bins) && NonNegativeEdges(bins) && i < |bins|
    ensures NonNegativeLabel(LabelOf(bins, i))
  {
    if i > 0 {
      assert EdgeLess(bins[i - 1], bins[i]);
      assert bins[i - 1].n >= 0;
    }
  }

  /** The names for the edges 10, 20 and infinity. */
  lemma LengthStringExamples()
    ensures LengthString([At(10), At(20), PositiveInfinity], 0) == "10"
    ensures LengthString([At(10), At(20), PositiveInfinity], 1) == "11-20"
    ensures LengthString([At(10), At(20), PositiveInfinity], 2) == ">20"
    ensures LengthString([At(10), At(11)], 1) == "11"
  {
  }

  /** The names `Configure` gives to the buckets, one per edge. */
  function BucketNames(bins: seq<Edge>): (names: seq<Option<string>>)
    ensures |names| == |bins|
    ensures forall i :: 0 <= i < |bins| ==> names[i] == Some(LengthString(bins, i))
  {
    seq(|bins|, i requires 0 <= i < |bins| => Some(LengthString(bins, i)))
  }

  /**
   * `Configure`: one fresh bucket per edge, bucket i at index i named after bin i. A
   * missing `Bins` array makes the LINQ query throw and leaves the sensor as it was.
   */
  method Configure(s: Sensor) returns (thrown: Option<Exn>)
    modifies s
    ensures s.Props() == old(s.Props())
    ensures old(s.bins).None? ==> thrown == Some(Raise(ArgumentNull)) && s.buckets == old(s.buckets)
    ensures old(s.bins).Some? ==> thrown.None? && s.SensorNames() == BucketNames(s.bins.value)
    ensures old(s.bins).Some? ==> forall i :: 0 <= i < |s.buckets| ==>
      s.buckets[i].index == i && s.buckets[i].owner == s && fresh(s.buckets[i])
  {
    if s.bins.None? {
      return Some(Raise(ArgumentNull));
    }
    var bs := NewBuckets(s, BucketNames(s.bins.value));
    s.buckets := bs;
    thrown := None;
  }
}
