/** The last write to each place decides what a list of writes leaves behind. From this follows when
    two lists may change places. */
module LastWrites {
  import opened Text
  import opened Updates

  /** The last write to a place, if there is one. */
  function LastAt(ws: seq<Write>, x: Place): Option<Write>
    decreases |ws|
  {
    if ws == [] then None
    else
      match LastAt(ws[1..], x)
      case Some(w) => Some(w)
      case None => if PlaceOf(ws[0]) == x then Some(ws[0]) else None
  }

  lemma {:induction false} LastAtIsTouch(ws: seq<Write>, x: Place)
    ensures LastAt(ws, x).Some? <==> x in Touched(ws)
    ensures LastAt(ws, x).Some? ==> LastAt(ws, x).value in ws && PlaceOf(LastAt(ws, x).value) == x
    decreases |ws|
  {
    if ws != [] {
      LastAtIsTouch(ws[1..], x);
      TouchedTail(ws);
    }
  }

  lemma {:induction false} LastAtSplit(a: seq<Write>, b: seq<Write>, x: Place)
    ensures LastAt(a + b, x) == if LastAt(b, x).Some? then LastAt(b, x) else LastAt(a, x)
    decreases |a|
  {
    if a == [] {
      assert a + b == b;
    } else {
      assert (a + b)[0] == a[0] && (a + b)[1..] == a[1..] + b;
      LastAtSplit(a[1..], b, x);
    }
  }

  lemma LastOfTwo(ws: seq<Write>, x: Place)
    requires |ws| == 2
    ensures LastAt(ws, x) == if PlaceOf(ws[1]) == x then Some(ws[1]) else if PlaceOf(ws[0]) == x then Some(ws[0]) else None
  {
    assert LastAt(ws[1..][1..], x) == None;
    assert LastAt(ws[1..], x) == if PlaceOf(ws[1]) == x then Some(ws[1]) else None;
  }

  /** What a place holds. */
  datatype Content = Absent | Stored(text: string) | Saved(level: int)

  function ContentAt(m: Memory, x: Place): Content {
    match x
    case AtKey(key) => if key in m.store then Stored(m.store[key]) else Absent
    case AtCell(cell) => if cell in m.driver then Saved(m.driver[cell]) else Absent
  }

  /** What a write leaves at its place. */
  function Left(w: Write): Content {
    match w
    case Put(_, text) => Stored(text)
    case Clear(_) => Absent
    case Save(_, level) => Saved(level)
  }

  function Either(w: Option<Write>, before: Content): Content { match w case Some(v) => Left(v) case None => before }

  lemma {:induction false} ContentAfter(m: Memory, ws: seq<Write>, x: Place)
    ensures ContentAt(ApplyAll(m, ws), x) == Either(LastAt(ws, x), ContentAt(m, x))
    decreases |ws|
  {
    if ws != [] { ContentAfter(Apply(m, ws[0]), ws[1..], x); }
  }

  /** Two memories that hold the same everywhere are equal. */
  lemma SameContents(m: Memory, n: Memory)
    requires forall x :: ContentAt(m, x) == ContentAt(n, x)
    ensures m == n
  {
    forall key ensures key in m.store <==> key in n.store
               ensures key in m.store ==> m.store[key] == n.store[key]
    {
      assert ContentAt(m, AtKey(key)) == ContentAt(n, AtKey(key));
    }
    forall cell ensures cell in m.driver <==> cell in n.driver
                ensures cell in m.driver ==> m.driver[cell] == n.driver[cell]
    {
      assert ContentAt(m, AtCell(cell)) == ContentAt(n, AtCell(cell));
    }
    assert m.store == n.store && m.driver == n.driver;
  }

  /** Where both lists write and neither of them is covered by the writes that follow, they end with
      the same write. */
  predicate Swappable(a: seq<Write>, b: seq<Write>, after: seq<Write>) {
    forall x :: x in Touched(a) && x in Touched(b) && x !in Touched(after) ==> LastAt(a, x) == LastAt(b, x)
  }

  lemma ContentAfterThree(m: Memory, a: seq<Write>, b: seq<Write>, c: seq<Write>, x: Place)
    ensures ContentAt(ApplyAll(ApplyAll(ApplyAll(m, a), b), c), x)
            == Either(LastAt(c, x), Either(LastAt(b, x), Either(LastAt(a, x), ContentAt(m, x))))
  {
    ContentAfter(m, a, x);
    ContentAfter(ApplyAll(m, a), b, x);
    ContentAfter(ApplyAll(ApplyAll(m, a), b), c, x);
  }

  /** Two lists of writes followed by a third may be swapped exactly then. */
  lemma SwapExactly(m: Memory, a: seq<Write>, b: seq<Write>, after: seq<Write>)
    ensures ApplyAll(ApplyAll(ApplyAll(m, a), b), after) == ApplyAll(ApplyAll(ApplyAll(m, b), a), after)
            <==> Swappable(a, b, after)
  {
    var one, two := ApplyAll(ApplyAll(ApplyAll(m, a), b), after), ApplyAll(ApplyAll(ApplyAll(m, b), a), after);
    forall x ensures ContentAt(one, x) == ContentAt(two, x)
                     <==> (x in Touched(a) && x in Touched(b) && x !in Touched(after) ==> LastAt(a, x) == LastAt(b, x))
    {
      ContentAfterThree(m, a, b, after, x);
      ContentAfterThree(m, b, a, after, x);
      LastAtIsTouch(a, x);
      LastAtIsTouch(b, x);
      LastAtIsTouch(after, x);
      if x in Touched(a) && x in Touched(b) { LeftTells(LastAt(a, x).value, LastAt(b, x).value); }
    }
    if Swappable(a, b, after) { SameContents(one, two); }
  }

  lemma LeftTells(v: Write, w: Write)
    requires PlaceOf(v) == PlaceOf(w)
    ensures Left(v) == Left(w) <==> v == w
  {
  }

  lemma ApplyOne(m: Memory, w: Write)
    ensures ApplyAll(m, [w]) == Apply(m, w)
  {
    assert [w][1..] == [];
  }
}
