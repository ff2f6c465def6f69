/** The loop of the base64 encoder, for any bit operations on bytes B that give sextets X. */
module SextetLoop {
  import opened Text

  datatype Cut<!B, !X> = Cut(
    first: B -> X,         // the upper six bits of the first byte
    keepTwo: B -> X,       // its lower two bits, moved to where they go in the second sextet
    second: (B, X) -> X,   // the second sextet
    keepFour: B -> X,      // the lower four bits of the second byte, moved
    third: (B, X) -> X,    // the third sextet
    last: B -> X,          // the lower six bits of the third byte
    symbol: X -> char)
  {
    function Text(xs: seq<X>): (s: string)
      ensures |s| == |xs| && forall k :: 0 <= k < |xs| ==> s[k] == symbol(xs[k])
    {
      seq(|xs|, k requires 0 <= k < |xs| => symbol(xs[k]))
    }

    /** The sextets of whole groups of three bytes and of one or two left-over bytes. */
    function Cuts(bytes: seq<B>): seq<X>
      decreases |bytes|
    {
      if |bytes| == 0 then []
      else if |bytes| == 1 then [first(bytes[0]), keepTwo(bytes[0])]
      else if |bytes| == 2 then [first(bytes[0]), second(bytes[1], keepTwo(bytes[0])), keepFour(bytes[1])]
      else [first(bytes[0]), second(bytes[1], keepTwo(bytes[0])), third(bytes[2], keepFour(bytes[1])), last(bytes[2])]
           + Cuts(bytes[3..])
    }

    lemma {:induction false} CutsAppend(xs: seq<B>, ys: seq<B>)
      requires |xs| % 3 == 0
      ensures Cuts(xs + ys) == Cuts(xs) + Cuts(ys)
      decreases |xs|
    {
      if xs == [] {
        assert xs + ys == ys;
      } else {
        assert (xs + ys)[3..] == xs[3..] + ys;
        CutsAppend(xs[3..], ys);
      }
    }
  }

  /** The variables of the loop, with the symbols written as sextets. */
  datatype Loop<X> = Loop(out: seq<X>, state: nat, lastStuff: X)

  /** One turn of the loop. */
  function Turn<B, X>(c: Cut<B, X>, l: Loop<X>, x: B): Loop<X> {
    if l.state == 0 then Loop(l.out + [c.first(x)], 1, c.keepTwo(x))
    else if l.state == 1 then Loop(l.out + [c.second(x, l.lastStuff)], 2, c.keepFour(x))
    else Loop(l.out + [c.third(x, l.lastStuff), c.last(x)], 0, l.lastStuff)
  }

  function Turns<B, X>(c: Cut<B, X>, zero: X, bytes: seq<B>): Loop<X>
    decreases |bytes|
  {
    if bytes == [] then Loop([], 0, zero) else Turn(c, Turns(c, zero, bytes[..|bytes| - 1]), bytes[|bytes| - 1])
  }

  /** The sextets written when the loop has ended. */
  function Ended<X>(l: Loop<X>): seq<X> { if l.state == 0 then l.out else l.out + [l.lastStuff] }

  lemma TurnsNext<B, X>(c: Cut<B, X>, zero: X, bytes: seq<B>, x: B)
    ensures Turns(c, zero, bytes + [x]) == Turn(c, Turns(c, zero, bytes), x)
  {
    assert (bytes + [x])[..|bytes|] == bytes;
  }

  /** Whole groups are closed, and what is written is what they cut into. */
  predicate Closed<B, X(==)>(c: Cut<B, X>, zero: X, done: seq<B>) {
    |done| % 3 == 0 && Turns(c, zero, done).state == 0 && Turns(c, zero, done).out == c.Cuts(done)
  }

  lemma OneTurn<B, X>(c: Cut<B, X>, zero: X, done: seq<B>, x: B)
    requires Closed(c, zero, done)
    ensures Turns(c, zero, done + [x]) == Loop(c.Cuts(done) + [c.first(x)], 1, c.keepTwo(x))
  {
    TurnsNext(c, zero, done, x);
  }

  lemma TwoTurns<B, X>(c: Cut<B, X>, zero: X, done: seq<B>, x: B, y: B)
    requires Closed(c, zero, done)
    ensures Turns(c, zero, done + [x, y])
            == Loop(c.Cuts(done) + [c.first(x), c.second(y, c.keepTwo(x))], 2, c.keepFour(y))
  {
    OneTurn(c, zero, done, x);
    TurnsNext(c, zero, done + [x], y);
    assert done + [x] + [y] == done + [x, y];
  }

  lemma CutsOfThree<B, X>(c: Cut<B, X>, x: B, y: B, z: B)
    ensures c.Cuts([x, y, z])
            == [c.first(x), c.second(y, c.keepTwo(x))] + [c.third(z, c.keepFour(y)), c.last(z)]
  {
    assert [x, y, z][3..] == [];
  }

  lemma CutsOfThreeMore<B, X>(c: Cut<B, X>, done: seq<B>, x: B, y: B, z: B)
    requires |done| % 3 == 0
    ensures c.Cuts(done + [x, y, z])
            == (c.Cuts(done) + [c.first(x), c.second(y, c.keepTwo(x))]) + [c.third(z, c.keepFour(y)), c.last(z)]
  {
    c.CutsAppend(done, [x, y, z]);
    CutsOfThree(c, x, y, z);
  }

  lemma ThreeTurns<B, X>(c: Cut<B, X>, zero: X, done: seq<B>, x: B, y: B, z: B)
    requires Closed(c, zero, done)
    ensures Closed(c, zero, done + [x, y, z])
  {
    TwoTurns(c, zero, done, x, y);
    TurnsNext(c, zero, done + [x, y], z);
    assert done + [x, y] + [z] == done + [x, y, z];
    CutsOfThreeMore(c, done, x, y, z);
  }

  lemma {:induction false} WholeGroupsClose<B, X>(c: Cut<B, X>, zero: X, done: seq<B>)
    requires |done| % 3 == 0
    ensures Closed(c, zero, done)
    decreases |done|
  {
    if done != [] {
      var k := |done| - 3;
      WholeGroupsClose(c, zero, done[..k]);
      ThreeTurns(c, zero, done[..k], done[k], done[k + 1], done[k + 2]);
      assert done == done[..k] + [done[k], done[k + 1], done[k + 2]];
    }
  }

  /** The loop writes the sextets of what it has read. */
  lemma TurnsWriteCuts<B, X>(c: Cut<B, X>, zero: X, bytes: seq<B>)
    ensures Turns(c, zero, bytes).state == |bytes| % 3
    ensures Ended(Turns(c, zero, bytes)) == c.Cuts(bytes)
  {
    var done, open := bytes[..|bytes| - |bytes| % 3], bytes[|bytes| - |bytes| % 3..];
    assert bytes == done + open;
    WholeGroupsClose(c, zero, done);
    c.CutsAppend(done, open);
    if |open| == 0 {
      assert bytes == done;
    } else if |open| == 1 {
      OneTurn(c, zero, done, open[0]);
      assert open == [open[0]];
    } else {
      TwoTurns(c, zero, done, open[0], open[1]);
      assert open == [open[0], open[1]];
    }
  }

  /** How a decoder joins two neighbouring sextets into a byte: the first two, the middle two and the
      last two of a group. */
  datatype Join<!X, B> = Join(first: (X, X) -> B, second: (X, X) -> B, third: (X, X) -> B) {
    /** The bytes that sextets stand for; a single left-over sextet is malformed. */
    function Unpack(xs: seq<X>): Option<seq<B>>
      decreases |xs|
    {
      if |xs| == 0 then Some([])
      else if |xs| == 1 then None
      else if |xs| == 2 then Some([first(xs[0], xs[1])])
      else if |xs| == 3 then Some([first(xs[0], xs[1]), second(xs[1], xs[2])])
      else
        match Unpack(xs[4..])
        case None => None
        case Some(rest) => Some([first(xs[0], xs[1]), second(xs[1], xs[2]), third(xs[2], xs[3])] + rest)
    }
  }

  /** The joins undo the cuts. */
  ghost predicate Undoes<B(!new), X(!new)>(j: Join<X, B>, c: Cut<B, X>) {
    && (forall a: B :: j.first(c.first(a), c.keepTwo(a)) == a)
    && (forall a: B, b: B :: j.first(c.first(a), c.second(b, c.keepTwo(a))) == a)
    && (forall a: B, b: B :: j.second(c.second(b, c.keepTwo(a)), c.keepFour(b)) == b)
    && (forall a: B, b: B, z: B :: j.second(c.second(b, c.keepTwo(a)), c.third(z, c.keepFour(b))) == b)
    && (forall b: B, z: B :: j.third(c.third(z, c.keepFour(b)), c.last(z)) == z)
  }

  lemma UnpackTail<B(!new), X(!new)>(j: Join<X, B>, c: Cut<B, X>, bytes: seq<B>)
    requires Undoes(j, c) && |bytes| <= 2
    ensures j.Unpack(c.Cuts(bytes)) == Some(bytes)
  {
    if |bytes| == 1 {
      var xs := c.Cuts(bytes);
      assert bytes == [bytes[0]] && j.first(xs[0], xs[1]) == bytes[0];
    } else if |bytes| == 2 {
      var xs := c.Cuts(bytes);
      assert bytes == [bytes[0], bytes[1]] && j.first(xs[0], xs[1]) == bytes[0] && j.second(xs[1], xs[2]) == bytes[1];
    }
  }

  lemma {:induction false} UnpackCuts<B(!new), X(!new)>(j: Join<X, B>, c: Cut<B, X>, bytes: seq<B>)
    requires Undoes(j, c)
    ensures j.Unpack(c.Cuts(bytes)) == Some(bytes)
    decreases |bytes|
  {
    if |bytes| <= 2 {
      UnpackTail(j, c, bytes);
    } else {
      UnpackCuts(j, c, bytes[3..]);
      assert c.Cuts(bytes)[4..] == c.Cuts(bytes[3..]);
      assert bytes == [bytes[0], bytes[1], bytes[2]] + bytes[3..];
    }
  }

  /** The symbols a state of the loop appends to a text, at a turn and after the end. */
  lemma TextNext<B, X>(c: Cut<B, X>, xs: seq<X>, y: X)
    ensures c.Text(xs + [y]) == c.Text(xs) + [c.symbol(y)]
  {
  }

  lemma TextNextTwo<B, X>(c: Cut<B, X>, xs: seq<X>, y: X, z: X)
    ensures c.Text(xs + [y, z]) == c.Text(xs) + [c.symbol(y)] + [c.symbol(z)]
  {
  }

  /** imageEncoder up to the padding. */
  method WriteSymbols<B, X>(c: Cut<B, X>, zero: X, data: array<B>, length: nat, text: string)
    returns (result: string, state: nat)
    requires length <= data.Length
    ensures result == text + c.Text(c.Cuts(data[..length])) && state == length % 3
  {
    result := text;
    var index: nat, lastStuff := 0, zero;
    state := 0;
    ghost var l := Turns(c, zero, []);
    while index < length
      invariant 0 <= index <= length
      invariant l == Turns(c, zero, data[..index]) && state == l.state && lastStuff == l.lastStuff
      invariant result == text + c.Text(l.out)
    {
      var x := data[index];
      TurnsNext(c, zero, data[..index], x);
      assert data[..index + 1] == data[..index] + [x];
      if state == 0 {
        TextNext(c, l.out, c.first(x));
        result := result + [c.symbol(c.first(x))];
        lastStuff := c.keepTwo(x);
        state := 1;
      } else if state == 1 {
        TextNext(c, l.out, c.second(x, lastStuff));
        result := result + [c.symbol(c.second(x, lastStuff))];
        lastStuff := c.keepFour(x);
        state := 2;
      } else {
        TextNextTwo(c, l.out, c.third(x, lastStuff), c.last(x));
        result := result + [c.symbol(c.third(x, lastStuff))];
        result := result + [c.symbol(c.last(x))];
        state := 0;
      }
      index := index + 1;
      l := Turn(c, l, x);
    }
    TurnsWriteCuts(c, zero, data[..length]);
    if state != 0 {
      TextNext(c, l.out, lastStuff);
      result := result + [c.symbol(lastStuff)];
    }
  }
}

/** The base64 encoder. Its text is specified by section 4 of RFC 4648, and the loop, which carries
    left-over bits from one byte to the next, is proved to write it. */
module Base64 {
  import opened SextetLoop
  import opened Text

  // ---------------------------------------------------------------- the alphabet

  const UPPER := "ABCDEFGHIJKLMNOPQRSTUVWXYZ"
  const LOWER := "abcdefghijklmnopqrstuvwxyz"
  const DIGITS_AND_SIGNS := "0123456789+/"

  /** base64_chars, which is written as three adjacent literals. */
  function TableAt(i: nat): char
    requires i < 64
  {
    if i < 26 then UPPER[i] else if i < 52 then LOWER[i - 26] else DIGITS_AND_SIGNS[i - 52]
  }

  /** The same table by ranges of characters. */
  function SymbolAt(i: nat): char
    requires i < 64
  {
    if i < 26 then ('A' as int + i) as char
    else if i < 52 then ('a' as int + i - 26) as char
    else if i < 62 then ('0' as int + i - 52) as char
    else if i == 62 then '+' else '/'
  }

  /** The place of a character in table 1 of RFC 4648. */
  function PlaceOf(c: char): (r: Option<nat>)
    ensures r.Some? ==> r.value < 64
  {
    if 'A' <= c <= 'Z' then Some(c as int - 'A' as int)
    else if 'a' <= c <= 'z' then Some(c as int - 'a' as int + 26)
    else if '0' <= c <= '9' then Some(c as int - '0' as int + 52)
    else if c == '+' then Some(62)
    else if c == '/' then Some(63)
    else None
  }

  lemma UpperAt(i: nat)
    requires i < 26
    ensures UPPER[i] as int == 'A' as int + i
  {
  }

  lemma LowerAt(i: nat)
    requires i < 26
    ensures LOWER[i] as int == 'a' as int + i
  {
  }

  lemma DigitAt(i: nat)
    requires i < 12
    ensures DIGITS_AND_SIGNS[i] as int == if i < 10 then '0' as int + i else if i == 10 then '+' as int else '/' as int
  {
  }

  /** The encoder's table is table 1 of RFC 4648. */
  lemma TableIsAlphabet(i: nat)
    requires i < 64
    ensures SymbolAt(i) == TableAt(i) && PlaceOf(TableAt(i)) == Some(i)
  {
    if i < 26 { UpperAt(i); } else if i < 52 { LowerAt(i - 26); } else { DigitAt(i - 52); }
  }

  /** A six-bit value, and its symbol. */
  predicate IsSextet(x: bv8) { x < 64 }

  function Symbol(x: bv8): char
    requires IsSextet(x)
  {
    SymbolAt(x as int)
  }

  // ---------------------------------------------------------------- groups of three bytes

  /** The i-th six bits of a group of 24. */
  function Sextet(a: bv8, b: bv8, c: bv8, i: nat): (x: bv8)
    requires i < 4
    ensures IsSextet(x)
  {
    var bits := ((a as bv24) << 16) | ((b as bv24) << 8) | (c as bv24);
    var shifted := if i == 0 then bits >> 18 else if i == 1 then bits >> 12 else if i == 2 then bits >> 6 else bits;
    (shifted & 0x3F) as bv8
  }

  /** Section 4 of RFC 4648: whole groups, then a last group filled up with zero bits, of which only
      the sextets that hold input bits count. */
  function Sextets(bytes: seq<bv8>): (r: seq<bv8>)
    ensures forall k :: 0 <= k < |r| ==> IsSextet(r[k])
    decreases |bytes|
  {
    if |bytes| == 0 then []
    else if |bytes| == 1 then [Sextet(bytes[0], 0, 0, 0), Sextet(bytes[0], 0, 0, 1)]
    else if |bytes| == 2 then
      [Sextet(bytes[0], bytes[1], 0, 0), Sextet(bytes[0], bytes[1], 0, 1), Sextet(bytes[0], bytes[1], 0, 2)]
    else Group(bytes[0], bytes[1], bytes[2]) + Sextets(bytes[3..])
  }

  function Group(a: bv8, b: bv8, c: bv8): (r: seq<bv8>)
    ensures |r| == 4 && forall k :: 0 <= k < 4 ==> r[k] == Sextet(a, b, c, k)
  {
    [Sextet(a, b, c, 0), Sextet(a, b, c, 1), Sextet(a, b, c, 2), Sextet(a, b, c, 3)]
  }

  function Symbols(xs: seq<bv8>): (s: string)
    requires forall k :: 0 <= k < |xs| ==> IsSextet(xs[k])
    ensures |s| == |xs| && forall k :: 0 <= k < |xs| ==> s[k] == Symbol(xs[k])
  {
    seq(|xs|, k requires 0 <= k < |xs| => Symbol(xs[k]))
  }

  function Pad(n: nat, padding: bool): string {
    if !padding || n % 3 == 0 then "" else if n % 3 == 1 then "==" else "="
  }

  function Encode(bytes: seq<bv8>, padding: bool): string {
    Symbols(Sextets(bytes)) + Pad(|bytes|, padding)
  }

  // ---------------------------------------------------------------- what the text means

  /** Bit i of a byte, the most significant first. */
  predicate BitOf(x: bv8, i: nat)
    requires i < 8
  {
    var mask: bv8 := if i == 0 then 0x80 else if i == 1 then 0x40 else if i == 2 then 0x20 else if i == 3 then 0x10
                     else if i == 4 then 0x08 else if i == 5 then 0x04 else if i == 6 then 0x02 else 0x01;
    x & mask != 0
  }

  /** Bit i of a sextet, the most significant first. */
  predicate SextetBit(x: bv8, i: nat)
    requires i < 6
  {
    BitOf(x, 2 + i)
  }

  /** Bit j of the input as one long string of bits, with zeros after its end. */
  predicate InputBit(bytes: seq<bv8>, j: nat) {
    j / 8 < |bytes| && BitOf(bytes[j / 8], j % 8)
  }

  lemma FirstBits(a: bv8, b: bv8, c: bv8, i: nat)
    requires i < 6
    ensures SextetBit(Sextet(a, b, c, 0), i) == BitOf(a, i)
  {
  }

  lemma SecondBits(a: bv8, b: bv8, c: bv8, i: nat)
    requires i < 6
    ensures SextetBit(Sextet(a, b, c, 1), i) == if i < 2 then BitOf(a, 6 + i) else BitOf(b, i - 2)
  {
  }

  lemma ThirdBits(a: bv8, b: bv8, c: bv8, i: nat)
    requires i < 6
    ensures SextetBit(Sextet(a, b, c, 2), i) == if i < 4 then BitOf(b, 4 + i) else BitOf(c, i - 4)
  {
  }

  lemma FourthBits(a: bv8, b: bv8, c: bv8, i: nat)
    requires i < 6
    ensures SextetBit(Sextet(a, b, c, 3), i) == BitOf(c, 2 + i)
  {
  }

  function ByteAt(bytes: seq<bv8>, i: nat): bv8 { if i < |bytes| then bytes[i] else 0 }

  lemma InputBitAt(bytes: seq<bv8>, j: nat)
    ensures InputBit(bytes, j) == BitOf(ByteAt(bytes, j / 8), j % 8)
  {
  }

  /** The sextets of the first group. */
  lemma FirstGroup(bytes: seq<bv8>, k: nat)
    requires k < 4 && k < |Sextets(bytes)|
    ensures Sextets(bytes)[k] == Sextet(ByteAt(bytes, 0), ByteAt(bytes, 1), ByteAt(bytes, 2), k)
  {
  }

  lemma LaterGroups(bytes: seq<bv8>, k: nat)
    requires 4 <= k < |Sextets(bytes)|
    ensures |bytes| > 2 && k - 4 < |Sextets(bytes[3..])| && Sextets(bytes)[k] == Sextets(bytes[3..])[k - 4]
  {
  }

  lemma InputBitLater(bytes: seq<bv8>, j: nat)
    requires |bytes| >= 3 && j >= 24
    ensures InputBit(bytes, j) == InputBit(bytes[3..], j - 24)
  {
    assert (j - 24) / 8 == j / 8 - 3 && (j - 24) % 8 == j % 8;
  }

  lemma FirstGroupBits(bytes: seq<bv8>, k: nat, i: nat)
    requires k < 4 && i < 6
    ensures SextetBit(Sextet(ByteAt(bytes, 0), ByteAt(bytes, 1), ByteAt(bytes, 2), k), i) == InputBit(bytes, 6 * k + i)
  {
    var a, b, c := ByteAt(bytes, 0), ByteAt(bytes, 1), ByteAt(bytes, 2);
    InputBitAt(bytes, 6 * k + i);
    if k == 0 { FirstBits(a, b, c, i); }
    if k == 1 { SecondBits(a, b, c, i); }
    if k == 2 { ThirdBits(a, b, c, i); }
    if k == 3 { FourthBits(a, b, c, i); }
  }

  /** The sextets hold the bits of the input in order, six to a sextet, and after them only the zeros
      that fill the last one. */
  lemma {:induction false} BitsInOrder(bytes: seq<bv8>, k: nat, i: nat)
    requires k < |Sextets(bytes)| && i < 6
    ensures SextetBit(Sextets(bytes)[k], i) == InputBit(bytes, 6 * k + i)
    decreases |bytes|
  {
    if k >= 4 {
      LaterGroups(bytes, k);
      BitsInOrder(bytes[3..], k - 4, i);
      InputBitLater(bytes, 6 * k + i);
    } else {
      FirstGroup(bytes, k);
      FirstGroupBits(bytes, k, i);
    }
  }

  lemma {:induction false} SextetsLength(bytes: seq<bv8>)
    ensures |Sextets(bytes)| == (8 * |bytes| + 5) / 6
    decreases |bytes|
  {
    if |bytes| > 2 { SextetsLength(bytes[3..]); }
  }

  /** The length of the text: whole groups of four with padding, the unpadded length without. */
  lemma EncodedLength(bytes: seq<bv8>)
    ensures |Encode(bytes, true)| == 4 * ((|bytes| + 2) / 3)
    ensures |Encode(bytes, false)| == (8 * |bytes| + 5) / 6
  {
    SextetsLength(bytes);
    GroupsOfFour(|bytes|);
  }

  lemma GroupsOfFour(n: nat)
    ensures (8 * n + 5) / 6 + (if n % 3 == 0 then 0 else if n % 3 == 1 then 2 else 1) == 4 * ((n + 2) / 3)
  {
    var q := n / 3;
    if n % 3 == 0 {
      assert n == 3 * q;
    } else if n % 3 == 1 {
      assert n == 3 * q + 1;
    } else {
      assert n == 3 * q + 2;
    }
  }

  // ---------------------------------------------------------------- the loop

  /** The expressions of the loop; the table is only looked at below 64. */
  const PLAIN: Cut<bv8, bv8> := Cut(
    (x: bv8) => (x & 0xFC) >> 2,
    (x: bv8) => (x & 0x03) << 4,
    (x: bv8, lastStuff: bv8) => ((x & 0xF0) >> 4) | lastStuff,
    (x: bv8) => (x & 0x0F) << 2,
    (x: bv8, lastStuff: bv8) => ((x & 0xC0) >> 6) | lastStuff,
    (x: bv8) => x & 0x3F,
    (x: bv8) => if x < 64 then SymbolAt(x as int) else '\0')

  lemma FirstCut(a: bv8)
    ensures PLAIN.first(a) == Sextet(a, 0, 0, 0) && PLAIN.keepTwo(a) == Sextet(a, 0, 0, 1)
  {
  }

  lemma SecondCut(a: bv8, b: bv8)
    ensures PLAIN.first(a) == Sextet(a, b, 0, 0) && PLAIN.second(b, PLAIN.keepTwo(a)) == Sextet(a, b, 0, 1)
    ensures PLAIN.keepFour(b) == Sextet(a, b, 0, 2)
  {
  }

  lemma ThirdCut(a: bv8, b: bv8, c: bv8)
    ensures PLAIN.first(a) == Sextet(a, b, c, 0) && PLAIN.second(b, PLAIN.keepTwo(a)) == Sextet(a, b, c, 1)
    ensures PLAIN.third(c, PLAIN.keepFour(b)) == Sextet(a, b, c, 2) && PLAIN.last(c) == Sextet(a, b, c, 3)
  {
  }

  /** The loop's bit operations cut bytes as RFC 4648 does. */
  lemma {:induction false} PlainCuts(bytes: seq<bv8>)
    ensures PLAIN.Cuts(bytes) == Sextets(bytes)
    decreases |bytes|
  {
    if |bytes| == 1 {
      FirstCut(bytes[0]);
    } else if |bytes| == 2 {
      SecondCut(bytes[0], bytes[1]);
    } else if |bytes| > 2 {
      ThirdCut(bytes[0], bytes[1], bytes[2]);
      PlainCuts(bytes[3..]);
    }
  }

  lemma PlainText(xs: seq<bv8>)
    requires forall k :: 0 <= k < |xs| ==> IsSextet(xs[k])
    ensures PLAIN.Text(xs) == Symbols(xs)
  {
  }

  /** imageEncoder: what it appends for the first bytes of a buffer is their encoding. */
  method ImageEncoder(data: array<bv8>, length: nat, padding: bool, text: string) returns (result: string)
    requires length <= data.Length
    ensures result == text + Encode(data[..length], padding)
  {
    var state;
    result, state := WriteSymbols(PLAIN, 0, data, length, text);
    PlainCuts(data[..length]);
    PlainText(Sextets(data[..length]));
    if state != 0 {
      if padding {
        if state == 1 {
          result := result + "==";
        } else {
          result := result + "=";
        }
      }
    }
  }

  // ---------------------------------------------------------------- decoding

  /** The text without the padding at its end. */
  function Unpadded(s: string): string
    decreases |s|
  {
    if s != "" && s[|s| - 1] == '=' then Unpadded(s[..|s| - 1]) else s
  }

  const JOINED: Join<bv8, bv8> := Join(
    (x: bv8, y: bv8) => (x << 2) | (y >> 4),
    (y: bv8, z: bv8) => (y << 4) | (z >> 2),
    (z: bv8, w: bv8) => (z << 6) | w)

  lemma JoinedUndoesPlain()
    ensures Undoes(JOINED, PLAIN)
  {
  }

  predicate AllPlaced(s: string) { forall k :: 0 <= k < |s| ==> PlaceOf(s[k]).Some? }

  /** A decoder for text with or without padding. */
  function Decode(s: string): Option<seq<bv8>> {
    if AllPlaced(Unpadded(s)) then JOINED.Unpack(Places(Unpadded(s))) else None
  }

  function Places(s: string): (r: seq<bv8>)
    requires AllPlaced(s)
    ensures |r| == |s| && forall k :: 0 <= k < |s| ==> r[k] == PlaceOf(s[k]).value as bv8
  {
    seq(|s|, k requires 0 <= k < |s| && PlaceOf(s[k]).Some? => PlaceOf(s[k]).value as bv8)
  }

  lemma SymbolIsPlaced(x: bv8)
    requires IsSextet(x)
    ensures PlaceOf(Symbol(x)).Some? && PlaceOf(Symbol(x)).value < 64 && PlaceOf(Symbol(x)).value as bv8 == x && Symbol(x) != '='
  {
    var i := x as int;
    assert PlaceOf(SymbolAt(i)) == Some(i);
  }

  lemma UnpadOne(s: string)
    ensures Unpadded(s + "=") == Unpadded(s)
  {
    assert (s + "=")[..|s|] == s;
  }

  lemma UnpaddedSymbols(s: string, padding: bool, n: nat)
    requires s == "" || s[|s| - 1] != '='
    ensures Unpadded(s + Pad(n, padding)) == s
  {
    UnpadOne(s);
    UnpadOne(s + "=");
    assert s + "==" == (s + "=") + "=";
    assert s + "" == s;
  }

  /** Decoding what the encoder appends gives the bytes back. */
  lemma DecodeEncode(bytes: seq<bv8>, padding: bool)
    ensures Decode(Encode(bytes, padding)) == Some(bytes)
  {
    var xs := Sextets(bytes);
    var body := Symbols(xs);
    forall k | 0 <= k < |xs|
      ensures PlaceOf(body[k]).Some? && PlaceOf(body[k]).value < 64 && PlaceOf(body[k]).value as bv8 == xs[k] && body[k] != '='
    {
      SymbolIsPlaced(xs[k]);
    }
    UnpaddedSymbols(body, padding, |bytes|);
    assert Places(body) == xs;
    PlainCuts(bytes);
    JoinedUndoesPlain();
    UnpackCuts(JOINED, PLAIN, bytes);
  }
}
