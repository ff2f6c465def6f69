/** Capabilities: the list of contexts printed as nested objects, and the check of a request against
    the comma-separated capability texts. */
module Capabilities {
  import opened Keys
  import opened Names
  import opened Text

  // ---------------------------------------------------------------- nested capabilities

  /** Mode name to format name to the array of source names. */
  type Nested = map<string, map<string, seq<string>>>

  function Listed(t: Nested, m: string, f: string): seq<string> {
    if m in t && f in t[m] then t[m][f] else []
  }

  /** The names of the sources of the contexts with this mode and format, in the order of the
      contexts, where only contexts with all three names count. */
  function SourcesOf(n: Tables, caps: seq<Context>, m: string, f: string): seq<string>
    requires n.Good()
  {
    if caps == [] then []
    else
      var k := |caps| - 1;
      SourcesOf(n, caps[..k], m, f)
      + if Named(n, caps[k]) && n.modes.Name(caps[k].mode) == m && n.formats.Name(caps[k].format) == f
        then [n.sources.Name(caps[k].source)] else []
  }

  /** A sequence without repetitions, each element where it first appears. */
  function FirstAppearances(xs: seq<string>): seq<string> {
    if xs == [] then []
    else
      var r := FirstAppearances(xs[..|xs| - 1]);
      if xs[|xs| - 1] in r then r else r + [xs[|xs| - 1]]
  }

  lemma {:induction false} SameElements(xs: seq<string>)
    ensures forall x :: x in FirstAppearances(xs) <==> x in xs
  {
    if xs != [] {
      SameElements(xs[..|xs| - 1]);
      assert xs == xs[..|xs| - 1] + [xs[|xs| - 1]];
    }
  }

  lemma IndexInPrefix(xs: seq<string>, k: nat, x: string)
    requires k <= |xs| && x in xs[..k]
    ensures x in xs && IndexOf(xs, x) == IndexOf(xs[..k], x)
  {
    var i, j := IndexOf(xs, x), IndexOf(xs[..k], x);
    assert forall p :: 0 <= p < j ==> xs[p] == xs[..k][..j][p];
    assert forall p :: 0 <= p < i ==> xs[p] == xs[..i][p];
    assert xs[j] == x && xs[i] == x;
  }

  /** Once each, in order of first appearance. */
  lemma {:induction false} InOrderOfFirstAppearance(xs: seq<string>, i: nat, j: nat)
    requires i < j < |FirstAppearances(xs)|
    ensures
      var r := FirstAppearances(xs);
      r[i] in xs && r[j] in xs && IndexOf(xs, r[i]) < IndexOf(xs, r[j])
    decreases |xs|
  {
    var k := |xs| - 1;
    var r, r' := FirstAppearances(xs), FirstAppearances(xs[..k]);
    SameElements(xs[..k]);
    SameElements(xs);
    assert r[i] in r';
    IndexInPrefix(xs, k, r[i]);
    if j < |r'| {
      InOrderOfFirstAppearance(xs[..k], i, j);
      assert r[j] in r';
      IndexInPrefix(xs, k, r[j]);
    } else {
      var p := IndexOf(xs, r[j]);
      assert p < k ==> xs[..k][p] == r[j];
    }
  }

  /** One context entered under its names. */
  function Entered(t: Nested, m: string, f: string, s: string): Nested {
    var formats := if m in t then t[m] else map[];
    var sources := if f in formats then formats[f] else [];
    t[m := formats[f := if s in sources then sources else sources + [s]]]
  }

  lemma EnteredListed(t: Nested, m: string, f: string, s: string, m': string, f': string)
    ensures Listed(Entered(t, m, f, s), m', f')
            == if m' == m && f' == f then (if s in Listed(t, m, f) then Listed(t, m, f) else Listed(t, m, f) + [s])
               else Listed(t, m', f')
  {
  }

  /** No mode without a format, and no format without a source. */
  predicate NoneEmpty(t: Nested) {
    forall m :: m in t ==> t[m] != map[] && forall f :: f in t[m] ==> t[m][f] != []
  }

  lemma EnteredNoneEmpty(t: Nested, m: string, f: string, s: string)
    requires NoneEmpty(t)
    ensures NoneEmpty(Entered(t, m, f, s))
  {
    var t' := Entered(t, m, f, s);
    assert f in t'[m];
  }

  /** The nested objects list the contexts. */
  ghost predicate Lists(n: Tables, caps: seq<Context>, t: Nested)
    requires n.Good()
  {
    NoneEmpty(t) && forall m: string, f: string :: Listed(t, m, f) == FirstAppearances(SourcesOf(n, caps, m, f))
  }

  lemma {:induction false} SourcesOfMeaning(n: Tables, caps: seq<Context>, m: string, f: string, s: string)
    requires n.Good()
    ensures s in SourcesOf(n, caps, m, f)
            <==> exists c :: c in caps && Named(n, c) && n.modes.Name(c.mode) == m && n.formats.Name(c.format) == f && n.sources.Name(c.source) == s
  {
    if caps != [] {
      var k := |caps| - 1;
      assert caps == caps[..k] + [caps[k]];
      SourcesOfMeaning(n, caps[..k], m, f, s);
    }
  }

  /** Going from the flat list to the nested objects and back: a source is listed under a mode and a
      format exactly when a context has these three names, and it is listed once. */
  lemma NestedIsFlat(n: Tables, caps: seq<Context>, t: Nested, m: string, f: string, s: string)
    requires n.Good() && Lists(n, caps, t)
    ensures s in Listed(t, m, f)
            <==> exists c :: c in caps && Named(n, c) && n.modes.Name(c.mode) == m && n.formats.Name(c.format) == f && n.sources.Name(c.source) == s
    ensures Distinct(Listed(t, m, f))
  {
    var xs := SourcesOf(n, caps, m, f);
    SameElements(xs);
    SourcesOfMeaning(n, caps, m, f, s);
    var r := FirstAppearances(xs);
    forall i, j | 0 <= i < j < |r| ensures r[i] != r[j] { InOrderOfFirstAppearance(xs, i, j); }
  }

  lemma ListedNext(n: Tables, caps: seq<Context>, c: Context, m: string, f: string)
    requires n.Good()
    ensures
      var r := FirstAppearances(SourcesOf(n, caps, m, f));
      var s := n.sources.Name(c.source);
      FirstAppearances(SourcesOf(n, caps + [c], m, f))
      == if Named(n, c) && n.modes.Name(c.mode) == m && n.formats.Name(c.format) == f && s !in r then r + [s] else r
  {
    assert (caps + [c])[..|caps|] == caps;
    var xs, s := SourcesOf(n, caps, m, f), n.sources.Name(c.source);
    assert (xs + [s])[..|xs|] == xs;
    assert xs + [] == xs;
  }

  /** The context has these mode and format names, and a named source. */
  predicate Carries(n: Tables, c: Context, m: string, f: string)
    requires n.Good()
  {
    Named(n, c) && n.modes.Name(c.mode) == m && n.formats.Name(c.format) == f
  }

  /** Context k carries source a, and neither it nor an earlier one carries source b. */
  predicate Before(n: Tables, caps: seq<Context>, m: string, f: string, a: string, b: string, k: nat)
    requires n.Good()
  {
    && k < |caps| && Carries(n, caps[k], m, f) && n.sources.Name(caps[k].source) == a
    && forall l :: 0 <= l <= k && Carries(n, caps[l], m, f) ==> n.sources.Name(caps[l].source) != b
  }

  lemma BeforeGrows(n: Tables, caps: seq<Context>, c: Context, m: string, f: string, a: string, b: string, k: nat)
    requires n.Good() && Before(n, caps, m, f, a, b, k)
    ensures Before(n, caps + [c], m, f, a, b, k)
  {
  }

  /** A listed name has a context, and an unlisted one has none. */
  lemma ListedBeforeUnlisted(n: Tables, caps: seq<Context>, m: string, f: string, a: string, b: string) returns (k: nat)
    requires n.Good() && a in FirstAppearances(SourcesOf(n, caps, m, f)) && b !in FirstAppearances(SourcesOf(n, caps, m, f))
    ensures Before(n, caps, m, f, a, b, k)
  {
    SameElements(SourcesOf(n, caps, m, f));
    SourcesOfMeaning(n, caps, m, f, a);
    SourcesOfMeaning(n, caps, m, f, b);
    var c :| c in caps && Named(n, c) && n.modes.Name(c.mode) == m && n.formats.Name(c.format) == f && n.sources.Name(c.source) == a;
    k := IndexOf(caps, c);
    forall l | 0 <= l < |caps| && Carries(n, caps[l], m, f) ensures n.sources.Name(caps[l].source) != b { assert caps[l] in caps; }
  }

  lemma {:induction false} AppearsInOrder(n: Tables, caps: seq<Context>, m: string, f: string, r: seq<string>, i: nat, j: nat) returns (k: nat)
    requires n.Good() && r == FirstAppearances(SourcesOf(n, caps, m, f)) && i < j < |r|
    ensures Before(n, caps, m, f, r[i], r[j], k)
    decreases |caps|, 0
  {
    var init, c := caps[..|caps| - 1], caps[|caps| - 1];
    assert caps == init + [c];
    ListedNext(n, init, c, m, f);
    k := NextInOrder(n, init, c, m, f, FirstAppearances(SourcesOf(n, init, m, f)), r, i, j);
  }

  lemma {:induction false} NextInOrder(n: Tables, caps: seq<Context>, c: Context, m: string, f: string, r: seq<string>, r': seq<string>, i: nat, j: nat)
    returns (k: nat)
    requires n.Good() && r == FirstAppearances(SourcesOf(n, caps, m, f)) && i < j < |r'|
    requires r' == if Carries(n, c, m, f) && n.sources.Name(c.source) !in r then r + [n.sources.Name(c.source)] else r
    ensures Before(n, caps + [c], m, f, r'[i], r'[j], k)
    decreases |caps|, 1
  {
    if j < |r| {
      k := AppearsInOrder(n, caps, m, f, r, i, j);
    } else {
      k := ListedBeforeUnlisted(n, caps, m, f, r[i], r'[j]);
    }
    BeforeGrows(n, caps, c, m, f, r'[i], r'[j], k);
  }

  /** The order of the listed sources: of two, the one that comes first belongs to an earlier context with
      these names than any the other belongs to. */
  lemma ListedInOrder(n: Tables, caps: seq<Context>, t: Nested, m: string, f: string, i: nat, j: nat) returns (k: nat)
    requires n.Good() && Lists(n, caps, t) && i < j < |Listed(t, m, f)|
    ensures k < |caps| && Named(n, caps[k]) && n.modes.Name(caps[k].mode) == m && n.formats.Name(caps[k].format) == f
    ensures n.sources.Name(caps[k].source) == Listed(t, m, f)[i]
    ensures forall l :: 0 <= l <= k && Named(n, caps[l]) && n.modes.Name(caps[l].mode) == m && n.formats.Name(caps[l].format) == f
              ==> n.sources.Name(caps[l].source) != Listed(t, m, f)[j]
  {
    k := AppearsInOrder(n, caps, m, f, Listed(t, m, f), i, j);
    forall l | 0 <= l <= k && Named(n, caps[l]) && n.modes.Name(caps[l].mode) == m && n.formats.Name(caps[l].format) == f
      ensures n.sources.Name(caps[l].source) != Listed(t, m, f)[j]
    {
      assert Carries(n, caps[l], m, f);
    }
  }

  lemma ListsNext(n: Tables, caps: seq<Context>, t: Nested, c: Context)
    requires n.Good() && Lists(n, caps, t)
    ensures Lists(n, caps + [c], if Named(n, c) then Entered(t, n.modes.Name(c.mode), n.formats.Name(c.format), n.sources.Name(c.source)) else t)
  {
    var mode, format, source := n.modes.Name(c.mode), n.formats.Name(c.format), n.sources.Name(c.source);
    EnteredNoneEmpty(t, mode, format, source);
    var t' := if Named(n, c) then Entered(t, mode, format, source) else t;
    forall m: string, f: string ensures Listed(t', m, f) == FirstAppearances(SourcesOf(n, caps + [c], m, f)) {
      EnteredListed(t, mode, format, source, m, f);
      ListedNext(n, caps, c, m, f);
    }
  }

  /** parseContextCaps. */
  method ParseContextCaps(n: Tables, caps: seq<Context>) returns (t: Nested)
    requires n.Good()
    ensures Lists(n, caps, t)
  {
    t := map[];
    for i := 0 to |caps|
      invariant Lists(n, caps[..i], t)
    {
      var c := caps[i];
      ListsNext(n, caps[..i], t, c);
      assert caps[..i + 1] == caps[..i] + [c];
      if c.mode in n.modes.codes && c.format in n.formats.codes && c.source in n.sources.codes {
        t := EnterContext(t, n.modes.Name(c.mode), n.formats.Name(c.format), n.sources.Name(c.source));
      }
    }
    assert caps[..|caps|] == caps;
  }

  /** The body of the loop, on one context's names. */
  method EnterContext(t: Nested, m: string, f: string, s: string) returns (t': Nested)
    ensures t' == Entered(t, m, f, s)
  {
    t' := t;
    if m !in t' { t' := t'[m := map[]]; }
    var formats := t'[m];
    if f !in formats { formats := formats[f := []]; }
    var sources := formats[f];
    var found := Contains(sources, s);
    if !found { sources := sources + [s]; }
    formats := formats[f := sources];
    t' := t'[m := formats];
    assert t' == t[m := formats];
    assert formats == (if m in t then t[m] else map[])[f := sources];
  }

  /** The search for a name in the array. */
  method Contains(sources: seq<string>, s: string) returns (found: bool)
    ensures found <==> s in sources
  {
    for j := 0 to |sources|
      invariant s !in sources[..j]
    {
      if sources[j] == s { return true; }
    }
    found := false;
  }

  // ---------------------------------------------------------------- comma-separated texts

  /** All pieces between commas. */
  function Fields(s: string): (r: seq<string>)
    ensures r != []
    decreases |s|
  {
    if ',' in s then [s[..IndexOf(s, ',')]] + Fields(s[IndexOf(s, ',') + 1..]) else [s]
  }

  /** They are free of commas, and joined with commas they are the text again; there is one such list. */
  lemma {:induction false} FieldsExactly(s: string, parts: seq<string>)
    requires parts != []
    ensures Fields(s) == parts <==> CommaFree(parts) && Join(parts, ',') == s
    decreases |s|
  {
    FieldsAreCommaFree(s);
    FieldsJoin(s);
    if CommaFree(parts) && Join(parts, ',') == s { JoinInjective(Fields(s), parts, ','); }
  }

  lemma JoinNext(first: string, rest: seq<string>)
    requires rest != []
    ensures Join([first] + rest, ',') == first + [','] + Join(rest, ',')
  {
    assert ([first] + rest)[1..] == rest;
  }

  lemma {:induction false} FieldsJoin(s: string)
    ensures Join(Fields(s), ',') == s
    decreases |s|
  {
    if ',' in s {
      var k := IndexOf(s, ',');
      var first, rest := s[..k], s[k + 1..];
      FieldsJoin(rest);
      assert Fields(s) == [first] + Fields(rest);
      JoinNext(first, Fields(rest));
      assert s == first + [','] + rest;
    }
  }

  /** What repeated getline calls deliver. */
  function Tokens(s: string): seq<string>
    decreases |s|
  {
    if s == "" then []
    else if ',' in s then [s[..IndexOf(s, ',')]] + Tokens(s[IndexOf(s, ',') + 1..])
    else [s]
  }

  function WithoutEmptyLast(r: seq<string>): seq<string> { if r != [] && r[|r| - 1] == "" then r[..|r| - 1] else r }

  lemma WithoutEmptyLastCons(a: string, r: seq<string>)
    requires r != []
    ensures WithoutEmptyLast([a] + r) == [a] + WithoutEmptyLast(r)
  {
  }

  /** That is all pieces, except an empty one at the end. */
  lemma {:induction false} TokensAreFields(s: string)
    ensures Tokens(s) == WithoutEmptyLast(Fields(s))
    decreases |s|
  {
    if ',' in s {
      var a, rest := s[..IndexOf(s, ',')], s[IndexOf(s, ',') + 1..];
      TokensAreFields(rest);
      WithoutEmptyLastCons(a, Fields(rest));
      assert Fields(s) == [a] + Fields(rest);
    }
  }

  /** convertToString: a comma goes before a piece unless nothing but empty pieces came before it. */
  function Joined(ts: seq<string>): string {
    if ts == [] then ""
    else
      var a := Joined(ts[..|ts| - 1]);
      if a == "" then ts[|ts| - 1] else a + "," + ts[|ts| - 1]
  }

  predicate CommaFree(ts: seq<string>) { forall i :: 0 <= i < |ts| ==> ',' !in ts[i] }

  lemma FirstComma(a: string, b: string)
    requires ',' !in a
    ensures ',' in a + "," + b && IndexOf(a + "," + b, ',') == |a|
  {
    var t := a + "," + b;
    assert t[|a|] == ',';
    var k := IndexOf(t, ',');
    assert forall i :: 0 <= i < |a| ==> t[i] == a[i];
    assert forall i {:trigger t[i]} :: 0 <= i < k ==> t[i] == t[..k][i];
  }

  lemma FieldsOfComma(a: string, b: string)
    requires ',' !in a
    ensures Fields(a + "," + b) == [a] + Fields(b)
  {
    FirstComma(a, b);
    var t := a + "," + b;
    assert t[..|a|] == a && t[|a| + 1..] == b;
  }

  lemma FieldsOfTwoCommas(a: string, rest: string, b: string)
    requires ',' !in a
    ensures Fields(a + "," + rest) == [a] + Fields(rest)
    ensures Fields(a + "," + rest + "," + b) == [a] + Fields(rest + "," + b)
  {
    FieldsOfComma(a, rest);
    FieldsOfComma(a, rest + "," + b);
    assert a + "," + rest + "," + b == a + "," + (rest + "," + b);
  }

  lemma {:induction false} FieldsSnoc(s: string, b: string)
    requires ',' !in b
    ensures Fields(s + "," + b) == Fields(s) + [b]
    decreases |s|
  {
    if ',' in s {
      var k := IndexOf(s, ',');
      var a, rest := s[..k], s[k + 1..];
      assert s == a + "," + rest;
      FieldsSnoc(rest, b);
      FieldsOfTwoCommas(a, rest, b);
    } else {
      FieldsOfComma(s, b);
    }
  }

  lemma {:induction false} FieldsAreCommaFree(s: string)
    ensures CommaFree(Fields(s))
    decreases |s|
  {
    if ',' in s { FieldsAreCommaFree(s[IndexOf(s, ',') + 1..]); }
  }

  /** The pieces of a joined list: the list from its first non-empty element on. */
  function FromFirstText(ts: seq<string>): seq<string> {
    if ts == [] then [] else if ts[0] == "" then FromFirstText(ts[1..]) else ts
  }

  lemma {:induction false} FromFirstTextSnoc(ts: seq<string>, b: string)
    ensures FromFirstText(ts + [b]) == if FromFirstText(ts) != [] then FromFirstText(ts) + [b] else if b == "" then [] else [b]
  {
    if ts == [] {
      assert ts + [b] == [b] && [b][1..] == [];
    } else {
      assert (ts + [b])[1..] == ts[1..] + [b];
      FromFirstTextSnoc(ts[1..], b);
    }
  }

  lemma {:induction false} FieldsOfJoined(ts: seq<string>)
    requires CommaFree(ts)
    ensures Joined(ts) == "" <==> FromFirstText(ts) == []
    ensures Joined(ts) != "" ==> Fields(Joined(ts)) == FromFirstText(ts)
    decreases |ts|
  {
    if ts != [] {
      var init, b := ts[..|ts| - 1], ts[|ts| - 1];
      assert ts == init + [b];
      FieldsOfJoined(init);
      FromFirstTextSnoc(init, b);
      FieldsSnoc(Joined(init), b);
    }
  }

  lemma {:induction false} FromFirstTextIsPart(ts: seq<string>)
    ensures forall x :: x in FromFirstText(ts) ==> x in ts
    ensures forall x :: x in ts && x != "" ==> x in FromFirstText(ts)
  {
    if ts != [] { FromFirstTextIsPart(ts[1..]); }
  }

  lemma JoinThenSplit(ts: seq<string>)
    requires CommaFree(ts)
    ensures forall x :: x in Tokens(Joined(ts)) ==> x in ts
    ensures forall x :: x in ts && x != "" ==> x in Tokens(Joined(ts))
  {
    var r := FromFirstText(ts);
    FieldsOfJoined(ts);
    TokensAreFields(Joined(ts));
    FromFirstTextIsPart(ts);
    if Joined(ts) != "" {
      assert r == r[..|r| - 1] + [r[|r| - 1]];
    }
  }

  /** Splitting a capability text, joining the pieces and splitting again loses at most empty pieces
      and adds none. */
  lemma SplitJoinSplit(s: string)
    ensures
      var again := Tokens(Joined(Tokens(s)));
      && (forall x :: x in again ==> x in Tokens(s))
      && (forall x :: x in Tokens(s) && x != "" ==> x in again)
  {
    TokensAreFields(s);
    FieldsAreCommaFree(s);
    JoinThenSplit(Tokens(s));
  }

  /** A list without empty pieces comes back exactly. */
  lemma JoinedThenSplit(ts: seq<string>)
    requires CommaFree(ts) && forall i :: 0 <= i < |ts| ==> ts[i] != ""
    ensures Tokens(Joined(ts)) == ts
  {
    FieldsOfJoined(ts);
    TokensAreFields(Joined(ts));
  }

  // ---------------------------------------------------------------- the check

  /** The three axes of a request or of a parameter's capabilities, as comma-separated texts. */
  datatype Axes = Axes(pqmode: string, format: string, source: string)

  predicate Covers(cap: string, input: string) { forall x :: x in Tokens(input) ==> x in Tokens(cap) }

  /** One getline call. */
  method GetLine(stream: string) returns (token: string, rest: string)
    requires stream != ""
    ensures Tokens(stream) == [token] + Tokens(rest) && |rest| < |stream|
  {
    if ',' in stream {
      var k := IndexOf(stream, ',');
      token, rest := stream[..k], stream[k + 1..];
    } else {
      token, rest := stream, "";
    }
  }

  predicate Passes(caps: Axes, input: Axes) {
    Covers(caps.pqmode, input.pqmode) && Covers(caps.format, input.format) && Covers(caps.source, input.source)
  }

  /** spliltStringsAndConvertToSet on one text. */
  method SplitToSet(text: string) returns (r: set<string>)
    ensures forall x :: x in r <==> x in Tokens(text)
  {
    r := {};
    var rest := text;
    ghost var done: seq<string> := [];
    assert done + Tokens(text) == Tokens(text);
    while rest != ""
      invariant forall x :: x in r <==> x in done
      invariant Tokens(text) == done + Tokens(rest)
      decreases |rest|
    {
      var token;
      token, rest := GetLine(rest);
      assert done + ([token] + Tokens(rest)) == (done + [token]) + Tokens(rest);
      done := done + [token];
      r := r + {token};
    }
  }

  lemma SomeName(s: set<string>)
    requires s != {}
    ensures exists x :: x in s
  {
    assert (forall x :: x !in s) ==> s == {};
  }

  /** isIncluded. */
  method IsIncluded(set1: set<string>, set2: set<string>) returns (r: bool)
    ensures r <==> set2 <= set1
  {
    var rest := set2;
    while rest != {}
      invariant rest <= set2 && set2 - rest <= set1
      decreases |rest|
    {
      SomeName(rest);
      var x :| x in rest;
      if x !in set1 { return false; }
      rest := rest - {x};
    }
    r := true;
  }

  /** isCapabilityCheckPassed for parameters other than CMS and WhiteBalance: it holds exactly when
      the capabilities can be read and every requested mode, format and source is among them. */
  method IsCapabilityCheckPassed(caps: Option<Axes>, input: Axes) returns (passed: bool)
    ensures passed <==> caps.Some? && Passes(caps.value, input)
  {
    if caps.None? { return false; }
    var pqmodeCap := SplitToSet(caps.value.pqmode);
    var formatCap := SplitToSet(caps.value.format);
    var sourceCap := SplitToSet(caps.value.source);
    var pqmodeInput := SplitToSet(input.pqmode);
    var formatInput := SplitToSet(input.format);
    var sourceInput := SplitToSet(input.source);
    var a := IsIncluded(pqmodeCap, pqmodeInput);
    if !a { return false; }
    var b := IsIncluded(formatCap, formatInput);
    if !b { return false; }
    passed := IsIncluded(sourceCap, sourceInput);
  }

  // ---------------------------------------------------------------- a request's axes

  /** The text that parsingSetInputArgument makes of a label: its items with commas between, or "Global" if
      that is empty. */
  function RequestText(items: Option<seq<string>>): string {
    var text := if items.None? || items.value == [] then "" else Join(items.value, ',');
    if text == "" then "Global" else text
  }

  /** Its loop, for one label. */
  method ParseAxis(items: Option<seq<string>>) returns (text: string)
    ensures text == RequestText(items)
  {
    var s := match items case None => [] case Some(x) => x;
    text := "";
    for i := 0 to |s|
      invariant if i < |s| then text + Join(s[i..], ',') == Join(s, ',') else s != [] ==> text == Join(s, ',')
      invariant s == [] ==> text == ""
    {
      assert s[i..][1..] == s[i + 1..];
      assert i < |s| - 1 ==> (text + s[i] + ",") + Join(s[i + 1..], ',') == text + (s[i] + "," + Join(s[i + 1..], ','));
      text := text + s[i];
      if i != |s| - 1 { text := text + ","; }
    }
    if text == "" { text := "Global"; }
  }

  /** convertToValidInputParameter on one axis: "Global" is replaced by the capabilities, split and joined
      again; "Current" by what the HAL reports, which may fail; anything else stays. */
  function Converted(text: string, cap: string, current: Option<string>): Option<string> {
    if text == "Global" then Some(Joined(Tokens(cap))) else if text == "Current" then current else Some(text)
  }

  /** And on the three axes. */
  function ConvertedAxes(input: Axes, cap: Axes, mode: Option<string>, format: Option<string>, source: Option<string>): Option<Axes> {
    var a, b, c := Converted(input.pqmode, cap.pqmode, mode), Converted(input.format, cap.format, format), Converted(input.source, cap.source, source);
    if a.Some? && b.Some? && c.Some? then Some(Axes(a.value, b.value, c.value)) else None
  }

  /** What a label is allowed to be: missing, empty, a single empty item or "Global"; "Current", if what is
      on screen is known and among the capabilities; or a list whose tokens all are. */
  predicate Allowed(items: Option<seq<string>>, cap: string, current: Option<string>) {
    || items.None? || items.value in [[], [""], ["Global"]]
    || (items.value == ["Current"] && current.Some? && Covers(cap, current.value))
    || (items.value != ["Current"] && Covers(cap, Join(items.value, ',')))
  }

  /** The tokens of a list of items are the items, up to an empty one at the end. */
  lemma TokensOfItems(items: seq<string>)
    requires items != [] && CommaFree(items)
    ensures Tokens(Join(items, ',')) == if items[|items| - 1] == "" then items[..|items| - 1] else items
  {
    TokensAreFields(Join(items, ','));
    FieldsExactly(Join(items, ','), items);
  }

  lemma OneItem(items: seq<string>, word: string)
    requires items != [] && ',' !in word
    ensures Join(items, ',') == word <==> items == [word]
  {
    if |items| > 1 {
      var rest := Join(items[1..], ',');
      assert Join(items, ',')[|items[0]|] == ',';
    } else {
      assert items == [items[0]];
    }
  }

  /** A "Global" axis becomes one with the non-empty tokens of the capability text, and no others but
      empty ones that it has too. */
  lemma GlobalIsCapabilities(cap: string, token: string)
    ensures Converted("Global", cap, None).Some?
    ensures token != "" ==> (token in Tokens(Converted("Global", cap, None).value) <==> token in Tokens(cap))
    ensures token in Tokens(Converted("Global", cap, None).value) ==> token in Tokens(cap)
  {
    SplitJoinSplit(cap);
  }

  lemma AxisPasses(items: Option<seq<string>>, cap: string, current: Option<string>)
    ensures
      var c := Converted(RequestText(items), cap, current);
      c.Some? && Covers(cap, c.value) <==> Allowed(items, cap, current)
  {
    SplitJoinSplit(cap);
    if items.Some? && items.value != [] {
      OneItem(items.value, "");
      OneItem(items.value, "Global");
      OneItem(items.value, "Current");
    }
  }

  /** A request is converted and passes the check exactly when each of its labels is allowed; so axes left
      out or "Global" pass for every capability text. */
  lemma GlobalAxesPass(caps: Axes, modes: Option<seq<string>>, formats: Option<seq<string>>, sources: Option<seq<string>>,
                       mode: Option<string>, format: Option<string>, source: Option<string>)
    ensures
      var input := ConvertedAxes(Axes(RequestText(modes), RequestText(formats), RequestText(sources)), caps, mode, format, source);
      input.Some? && Passes(caps, input.value)
      <==> Allowed(modes, caps.pqmode, mode) && Allowed(formats, caps.format, format) && Allowed(sources, caps.source, source)
  {
    AxisPasses(modes, caps.pqmode, mode);
    AxisPasses(formats, caps.format, format);
    AxisPasses(sources, caps.source, source);
  }
}
