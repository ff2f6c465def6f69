/** The split of an update on platforms without capability contexts: the tuple on screen is written at
    once, and the queued pass over sources, modes and formats skips it. */
module LegacySplit {
  import opened Names
  import opened Text

  datatype Tuple = Tuple(source: int, mode: int, format: int)

  /** The index vectors of a request. */
  datatype Values = Values(sources: seq<int>, modes: seq<int>, formats: seq<int>) {
    predicate DistinctEach() { Distinct(sources) && Distinct(modes) && Distinct(formats) }
    predicate Has(t: Tuple) { t.source in sources && t.mode in modes && t.format in formats }
    predicate Single() { |sources| == 1 && |modes| == 1 && |formats| == 1 }
  }

  // ---------------------------------------------------------------- the order of visits

  function Row(s: int, m: int, formats: seq<int>): seq<Tuple> {
    if formats == [] then [] else Row(s, m, formats[..|formats| - 1]) + [Tuple(s, m, formats[|formats| - 1])]
  }

  function Block(s: int, modes: seq<int>, formats: seq<int>): seq<Tuple>
    decreases |modes|
  {
    if modes == [] then [] else Block(s, modes[..|modes| - 1], formats) + Row(s, modes[|modes| - 1], formats)
  }

  function All(sources: seq<int>, modes: seq<int>, formats: seq<int>): seq<Tuple>
    decreases |sources|
  {
    if sources == [] then []
    else All(sources[..|sources| - 1], modes, formats) + Block(sources[|sources| - 1], modes, formats)
  }

  /** The tuples that no skip tuple names. */
  function Kept(ts: seq<Tuple>, skips: seq<Tuple>): seq<Tuple> {
    if ts == [] then []
    else Kept(ts[..|ts| - 1], skips) + if ts[|ts| - 1] in skips then [] else [ts[|ts| - 1]]
  }

  lemma KeptNext(ts: seq<Tuple>, t: Tuple, skips: seq<Tuple>)
    ensures Kept(ts + [t], skips) == Kept(ts, skips) + if t in skips then [] else [t]
  {
    assert (ts + [t])[..|ts|] == ts;
  }

  lemma {:induction false} InRow(s: int, m: int, formats: seq<int>)
    ensures forall t :: t in Row(s, m, formats) <==> t.source == s && t.mode == m && t.format in formats
    ensures Distinct(formats) ==> Distinct(Row(s, m, formats))
  {
    if formats != [] {
      var init := formats[..|formats| - 1];
      assert formats == init + [formats[|formats| - 1]];
      InRow(s, m, init);
    }
  }

  lemma DistinctAppend<T>(a: seq<T>, b: seq<T>)
    requires Distinct(a) && Distinct(b) && forall x :: x in a ==> x !in b
    ensures Distinct(a + b)
  {
    forall i, j | 0 <= i < j < |a + b| ensures (a + b)[i] != (a + b)[j] {
      if i < |a| && |a| <= j { assert a[i] in a && b[j - |a|] in b; }
    }
  }

  lemma {:induction false} InBlock(s: int, modes: seq<int>, formats: seq<int>)
    ensures forall t :: t in Block(s, modes, formats) <==> t.source == s && t.mode in modes && t.format in formats
    ensures Distinct(modes) && Distinct(formats) ==> Distinct(Block(s, modes, formats))
    decreases |modes|
  {
    if modes != [] {
      var init, m := modes[..|modes| - 1], modes[|modes| - 1];
      assert modes == init + [m];
      InBlock(s, init, formats);
      InRow(s, m, formats);
      if Distinct(modes) && Distinct(formats) { DistinctAppend(Block(s, init, formats), Row(s, m, formats)); }
    }
  }

  lemma {:induction false} InAll(sources: seq<int>, modes: seq<int>, formats: seq<int>)
    ensures forall t :: t in All(sources, modes, formats) <==> Values(sources, modes, formats).Has(t)
    ensures Values(sources, modes, formats).DistinctEach() ==> Distinct(All(sources, modes, formats))
    decreases |sources|
  {
    if sources != [] {
      var init, s := sources[..|sources| - 1], sources[|sources| - 1];
      assert sources == init + [s];
      InAll(init, modes, formats);
      InBlock(s, modes, formats);
      if Values(sources, modes, formats).DistinctEach() {
        DistinctAppend(All(init, modes, formats), Block(s, modes, formats));
      }
    }
  }

  lemma {:induction false} InKept(ts: seq<Tuple>, skips: seq<Tuple>)
    ensures forall t :: t in Kept(ts, skips) <==> t in ts && t !in skips
    ensures Distinct(ts) ==> Distinct(Kept(ts, skips))
    ensures skips == [] ==> Kept(ts, skips) == ts
  {
    if ts != [] {
      assert ts == ts[..|ts| - 1] + [ts[|ts| - 1]];
      InKept(ts[..|ts| - 1], skips);
    }
  }

  lemma RowNext(s: int, m: int, formats: seq<int>, f: int)
    ensures Row(s, m, formats + [f]) == Row(s, m, formats) + [Tuple(s, m, f)]
  {
    assert (formats + [f])[..|formats|] == formats;
  }

  lemma OneMoreMode(s: int, modes: seq<int>, m: int, formats: seq<int>)
    ensures Block(s, modes + [m], formats) == Block(s, modes, formats) + Row(s, m, formats)
  {
    assert (modes + [m])[..|modes|] == modes;
  }

  lemma OneMoreSource(sources: seq<int>, s: int, modes: seq<int>, formats: seq<int>)
    ensures All(sources + [s], modes, formats) == All(sources, modes, formats) + Block(s, modes, formats)
  {
    assert (sources + [s])[..|sources|] == sources;
  }

  lemma Assoc(x: seq<Tuple>, y: seq<Tuple>, z: seq<Tuple>)
    ensures (x + y) + z == x + (y + z)
  {
  }

  lemma LastApart<T>(a: seq<T>, b: seq<T>)
    requires b != []
    ensures b == b[..|b| - 1] + [b[|b| - 1]] && a + b == (a + b[..|b| - 1]) + [b[|b| - 1]]
  {
  }

  lemma {:induction false} RowSplit(s: int, m: int, a: seq<int>, b: seq<int>)
    ensures Row(s, m, a + b) == Row(s, m, a) + Row(s, m, b)
    decreases |b|
  {
    if b == [] {
      assert a + b == a;
    } else {
      var init, f := b[..|b| - 1], b[|b| - 1];
      LastApart(a, b);
      RowSplit(s, m, a, init);
      RowNext(s, m, a + init, f);
      RowNext(s, m, init, f);
    }
  }

  lemma {:induction false} BlockSplit(s: int, a: seq<int>, b: seq<int>, formats: seq<int>)
    ensures Block(s, a + b, formats) == Block(s, a, formats) + Block(s, b, formats)
    decreases |b|
  {
    if b == [] {
      assert a + b == a;
    } else {
      var init, m := b[..|b| - 1], b[|b| - 1];
      LastApart(a, b);
      BlockSplit(s, a, init, formats);
      OneMoreMode(s, a + init, m, formats);
      OneMoreMode(s, init, m, formats);
      Assoc(Block(s, a, formats), Block(s, init, formats), Row(s, m, formats));
    }
  }

  lemma {:induction false} AllSplit(a: seq<int>, b: seq<int>, modes: seq<int>, formats: seq<int>)
    ensures All(a + b, modes, formats) == All(a, modes, formats) + All(b, modes, formats)
    decreases |b|
  {
    if b == [] {
      assert a + b == a;
    } else {
      var init, s := b[..|b| - 1], b[|b| - 1];
      LastApart(a, b);
      AllSplit(a, init, modes, formats);
      OneMoreSource(a + init, s, modes, formats);
      OneMoreSource(init, s, modes, formats);
      Assoc(All(a, modes, formats), All(init, modes, formats), Block(s, modes, formats));
    }
  }

  lemma OneSource(s: int, modes: seq<int>, formats: seq<int>)
    ensures All([s], modes, formats) == Block(s, modes, formats)
  {
    assert [s][..0] == [];
  }

  lemma OneMode(s: int, m: int, formats: seq<int>)
    ensures Block(s, [m], formats) == Row(s, m, formats)
  {
    assert [m][..0] == [];
  }

  lemma OneSourceAndMode(s: int, m: int, formats: seq<int>)
    ensures All([s], [m], formats) == Row(s, m, formats)
  {
    OneSource(s, [m], formats);
    OneMode(s, m, formats);
  }

  /** The order of the visits: all of an earlier source before any of a later one; within a source, all
      of an earlier mode before any of a later one; within these, formats as they are listed. */
  lemma OrderOfVisits(a: seq<int>, b: seq<int>, s: int, m: int, f: int, modes: seq<int>, formats: seq<int>)
    ensures All(a + b, modes, formats) == All(a, modes, formats) + All(b, modes, formats)
    ensures All([s], a + b, formats) == All([s], a, formats) + All([s], b, formats)
    ensures All([s], [m], a + b) == All([s], [m], a) + All([s], [m], b)
    ensures All([s], [m], [f]) == [Tuple(s, m, f)]
  {
    AllSplit(a, b, modes, formats);
    BlockSplit(s, a, b, formats);
    RowSplit(s, m, a, b);
    OneSource(s, a + b, formats);
    OneSource(s, a, formats);
    OneSource(s, b, formats);
    OneSourceAndMode(s, m, a + b);
    OneSourceAndMode(s, m, a);
    OneSourceAndMode(s, m, b);
    OneSourceAndMode(s, m, [f]);
    assert [f][..0] == [];
  }

  /** What is kept stays in order. */
  lemma {:induction false} KeptSplit(a: seq<Tuple>, b: seq<Tuple>, skips: seq<Tuple>)
    ensures Kept(a + b, skips) == Kept(a, skips) + Kept(b, skips)
    decreases |b|
  {
    if b == [] {
      assert a + b == a;
    } else {
      var k := |b| - 1;
      assert (a + b)[..|a + b| - 1] == a + b[..k];
      KeptSplit(a, b[..k], skips);
    }
  }

  // ---------------------------------------------------------------- the split

  /** The skip tuple, whose fields are uint8_t. */
  function Narrow(t: Tuple): Tuple { Tuple(Byte(t.source), Byte(t.mode), Byte(t.format)) }

  predicate IsNarrow(t: Tuple) { IsByte(t.source) && IsByte(t.mode) && IsByte(t.format) }

  /** What is visited before the call returns. HDRMode and DolbyVisionMode are written whole at once. */
  function Now(v: Values, current: Tuple, whole: bool): seq<Tuple> {
    if whole then All(v.sources, v.modes, v.formats) else if v.Has(current) then [current] else []
  }

  /** The skip tuples of the queued pass, if one is queued. */
  function Queued(v: Values, current: Tuple, whole: bool): Option<seq<Tuple>> {
    if whole then None else if !v.Has(current) then Some([]) else if v.Single() then None else Some([Narrow(current)])
  }

  /** What the queued pass visits. */
  function Later(v: Values, current: Tuple, whole: bool): seq<Tuple> {
    match Queued(v, current, whole)
    case None => []
    case Some(skips) => Kept(All(v.sources, v.modes, v.formats), skips)
  }

  /** Every tuple of the product is visited once, and no other. */
  ghost predicate VisitsProductOnce(v: Values, visits: seq<Tuple>) {
    Distinct(visits) && forall t: Tuple :: t in visits <==> v.Has(t)
  }

  lemma CoversWithSkip(all: seq<Tuple>, current: Tuple)
    requires Distinct(all) && current in all
    ensures Distinct([current] + Kept(all, [current]))
    ensures forall t: Tuple :: t in [current] + Kept(all, [current]) <==> t in all
  {
    InKept(all, [current]);
    DistinctAppend([current], Kept(all, [current]));
  }

  lemma RepeatedHead<T>(x: T, s: seq<T>)
    requires x in s
    ensures !Distinct([x] + s)
  {
    var k := IndexOf(s, x);
    assert ([x] + s)[0] == ([x] + s)[1 + k];
  }

  lemma RepeatsWithWrongSkip(all: seq<Tuple>, current: Tuple, skip: Tuple)
    requires current in all && skip != current
    ensures !Distinct([current] + Kept(all, [skip]))
  {
    InKept(all, [skip]);
    RepeatedHead(current, Kept(all, [skip]));
  }

  lemma SingleHas(v: Values, current: Tuple)
    requires v.Has(current) && v.Single()
    ensures forall t: Tuple :: v.Has(t) <==> t == current
  {
    assert v.sources == [v.sources[0]] && v.modes == [v.modes[0]] && v.formats == [v.formats[0]];
  }

  /** For vectors without duplicates the two passes together visit the product exactly once if and
      only if everything is written at once, or the tuple on screen is not requested, or is all that is
      requested, or fits in bytes. */
  lemma CoversOnceExactly(v: Values, current: Tuple, whole: bool)
    requires v.DistinctEach()
    ensures VisitsProductOnce(v, Now(v, current, whole) + Later(v, current, whole))
            <==> whole || !v.Has(current) || v.Single() || IsNarrow(current)
  {
    var all := All(v.sources, v.modes, v.formats);
    InAll(v.sources, v.modes, v.formats);
    if whole {
      assert all + [] == all;
    } else if !v.Has(current) {
      InKept(all, []);
      assert [] + all == all;
    } else if v.Single() {
      SingleHas(v, current);
      assert Now(v, current, whole) + Later(v, current, whole) == [current];
    } else if IsNarrow(current) {
      assert Narrow(current) == current;
      CoversWithSkip(all, current);
    } else {
      assert Narrow(current) != current;
      RepeatsWithWrongSkip(all, current, Narrow(current));
    }
  }

  lemma BlockNext(before: seq<Tuple>, s: int, modes: seq<int>, formats: seq<int>, j: nat)
    requires j < |modes|
    ensures before + Block(s, modes[..j + 1], formats) == (before + Block(s, modes[..j], formats)) + Row(s, modes[j], formats)
  {
    var block, row := Block(s, modes[..j], formats), Row(s, modes[j], formats);
    assert modes[..j + 1][..j] == modes[..j];
    assert Block(s, modes[..j + 1], formats) == block + row;
    assert before + (block + row) == (before + block) + row;
  }

  // ---------------------------------------------------------------- the methods

  /** updateAVoutputTVParamImplementation: the tuples it writes, in order. */
  method Visit(v: Values, skips: seq<Tuple>) returns (visited: seq<Tuple>)
    ensures visited == Kept(All(v.sources, v.modes, v.formats), skips)
  {
    visited := [];
    ghost var walked: seq<Tuple> := [];
    for i := 0 to |v.sources|
      invariant walked == All(v.sources[..i], v.modes, v.formats)
      invariant visited == Kept(walked, skips)
    {
      assert v.sources[..i + 1][..i] == v.sources[..i];
      visited, walked := VisitBlock(v.sources[i], v.modes, v.formats, skips, visited, walked);
    }
    assert v.sources[..|v.sources|] == v.sources;
  }

  /** The loop over modes, for one source. */
  method VisitBlock(s: int, modes: seq<int>, formats: seq<int>, skips: seq<Tuple>, visitedBefore: seq<Tuple>, ghost walkedBefore: seq<Tuple>)
    returns (visited: seq<Tuple>, ghost walked: seq<Tuple>)
    requires visitedBefore == Kept(walkedBefore, skips)
    ensures walked == walkedBefore + Block(s, modes, formats)
    ensures visited == Kept(walked, skips)
  {
    visited, walked := visitedBefore, walkedBefore;
    for j := 0 to |modes|
      invariant walked == walkedBefore + Block(s, modes[..j], formats)
      invariant visited == Kept(walked, skips)
    {
      visited, walked := VisitRow(s, modes[j], formats, skips, visited, walked);
      BlockNext(walkedBefore, s, modes, formats, j);
    }
    assert modes[..|modes|] == modes;
  }

  /** The innermost loop. */
  method VisitRow(s: int, m: int, formats: seq<int>, skips: seq<Tuple>, visitedBefore: seq<Tuple>, ghost walkedBefore: seq<Tuple>)
    returns (visited: seq<Tuple>, ghost walked: seq<Tuple>)
    requires visitedBefore == Kept(walkedBefore, skips)
    ensures walked == walkedBefore + Row(s, m, formats)
    ensures visited == Kept(walked, skips)
  {
    visited, walked := visitedBefore, walkedBefore;
    for k := 0 to |formats|
      invariant walked == walkedBefore + Row(s, m, formats[..k])
      invariant visited == Kept(walked, skips)
    {
      var t := Tuple(s, m, formats[k]);
      KeptNext(walked, t, skips);
      walked := walked + [t];
      assert formats[..k + 1][..k] == formats[..k];
      if t in skips { continue; }
      visited := visited + [t];
    }
    assert formats[..|formats|] == formats;
  }

  /** The search for the tuple on screen in the requested vectors. */
  method HasCurrent(v: Values, current: Tuple) returns (found: bool)
    ensures found <==> v.Has(current)
  {
    found := false;
    for i := 0 to |v.sources|
      invariant forall p :: 0 <= p < i ==> v.sources[p] == current.source ==> !(current.mode in v.modes && current.format in v.formats)
    {
      if v.sources[i] != current.source { continue; }
      for j := 0 to |v.modes|
        invariant forall p :: 0 <= p < j ==> v.modes[p] == current.mode ==> current.format !in v.formats
      {
        if v.modes[j] != current.mode { continue; }
        for k := 0 to |v.formats|
          invariant current.format !in v.formats[..k]
        {
          if v.formats[k] == current.format { return true; }
        }
      }
    }
  }

  /** updateAVoutputTVParam. */
  method Update(v: Values, current: Tuple, whole: bool) returns (now: seq<Tuple>, queued: Option<seq<Tuple>>)
    ensures now == Now(v, current, whole) && queued == Queued(v, current, whole)
    ensures whole ==> now == All(v.sources, v.modes, v.formats) && queued == None
    ensures !whole && !v.Has(current) ==> now == [] && queued == Some([])
    ensures !whole && v.Has(current) ==> now == [current]
    ensures !whole && v.Has(current) && !v.Single() ==>
      queued == Some([Tuple(current.source % 256, current.mode % 256, current.format % 256)])
  {
    if whole {
      now := Visit(v, []);
      InKept(All(v.sources, v.modes, v.formats), []);
      return now, None;
    }
    now := [];
    var hasCurrent := HasCurrent(v, current);
    var skips: seq<Tuple> := [];
    if hasCurrent {
      now := Visit(Values([current.source], [current.mode], [current.format]), []);
      OneTuple(current);
      if |v.sources| == 1 && |v.modes| == 1 && |v.formats| == 1 { return now, None; }
      skips := [Narrow(current)];
      ByteIsModulo(current.source);
      ByteIsModulo(current.mode);
      ByteIsModulo(current.format);
    }
    queued := Some(skips);
  }

  lemma ByteIsModulo(x: int)
    ensures Byte(x) == x % 256
  {
  }

  lemma OneTuple(t: Tuple)
    ensures Kept(All([t.source], [t.mode], [t.format]), []) == [t]
  {
    InKept(All([t.source], [t.mode], [t.format]), []);
    assert [t.source][..0] == [] && [t.mode][..0] == [] && [t.format][..0] == [];
    assert Row(t.source, t.mode, [t.format]) == [t];
    assert Block(t.source, [t.mode], [t.format]) == [t];
  }
}
