/** The settings file: entries printed as key=value lines, and lines read back at their last '='. */
module SettingsFile {
  import opened Names
  import opened Text

  /** A label of the JSON object with its value as text. */
  datatype Entry = Entry(key: string, value: string)

  predicate DistinctKeys(m: seq<Entry>) {
    forall i, j :: 0 <= i < j < |m| ==> m[i].key != m[j].key
  }

  /** Where a key stands. */
  function Find(m: seq<Entry>, key: string): (r: Option<nat>)
    ensures r.Some? ==> r.value < |m| && m[r.value].key == key
    ensures r.None? <==> forall i :: 0 <= i < |m| ==> m[i].key != key
  {
    if m == [] then None
    else if m[|m| - 1].key == key then Some(|m| - 1)
    else Find(m[..|m| - 1], key)
  }

  function Lookup(m: seq<Entry>, key: string): Option<string> {
    match Find(m, key) case None => None case Some(i) => Some(m[i].value)
  }

  /** data[key] = value: the label's value, or a new label at the end. */
  function Assign(m: seq<Entry>, key: string, value: string): seq<Entry> {
    match Find(m, key)
    case Some(i) => m[i := Entry(key, value)]
    case None => m + [Entry(key, value)]
  }

  // ---------------------------------------------------------------- writing

  function LineOf(e: Entry): string { e.key + "=" + e.value }

  /** writeToFile: entries without a value are left out. */
  function Written(m: seq<Entry>): string {
    if m == [] then ""
    else (if m[0].value == "" then "" else LineOf(m[0]) + "\n") + Written(m[1..])
  }

  function WithValue(m: seq<Entry>): seq<Entry> {
    if m == [] then []
    else (if m[0].value == "" then [] else [m[0]]) + WithValue(m[1..])
  }

  // ---------------------------------------------------------------- reading

  /** find_last_of("="). */
  function LastEquals(s: string): (r: Option<nat>)
    ensures r.Some? ==> r.value < |s| && s[r.value] == '=' && '=' !in s[r.value + 1..]
    ensures r.None? <==> '=' !in s
    decreases |s|
  {
    if s == "" then None
    else if s[|s| - 1] == '=' then Some(|s| - 1)
    else
      var r := LastEquals(s[..|s| - 1]);
      assert s == s[..|s| - 1] + [s[|s| - 1]];
      assert r.Some? ==> s[r.value + 1..] == s[..|s| - 1][r.value + 1..] + [s[|s| - 1]];
      r
  }

  /** One line read. */
  function Loaded(m: seq<Entry>, line: string): seq<Entry> {
    match LastEquals(line)
    case None => m
    case Some(p) => Assign(m, line[..p], line[p + 1..])
  }

  /** readFromFile: line after line, the text after the last newline being a line too. */
  function LoadedAll(m: seq<Entry>, text: string): seq<Entry>
    decreases |text|
  {
    if '\n' in text then
      var k := IndexOf(text, '\n');
      LoadedAll(Loaded(m, text[..k]), text[k + 1..])
    else Loaded(m, text)
  }

  // ---------------------------------------------------------------- the round trip

  /** An entry that stays on its line and keeps its value apart from its key. */
  predicate FitsLine(e: Entry) { '\n' !in e.key && '\n' !in e.value && '=' !in e.value }

  predicate AllFit(m: seq<Entry>) { forall i :: 0 <= i < |m| ==> FitsLine(m[i]) }

  predicate AllHaveValues(m: seq<Entry>) { forall i :: 0 <= i < |m| ==> m[i].value != "" }

  lemma LastEqualsOfLine(e: Entry)
    requires '=' !in e.value
    ensures LastEquals(LineOf(e)) == Some(|e.key|)
  {
    var s := LineOf(e);
    assert s[|e.key|] == '=';
    var p := LastEquals(s).value;
    assert forall i {:trigger s[i]} :: p < i < |s| ==> s[i] == s[p + 1..][i - p - 1];
    assert forall i {:trigger s[i]} :: |e.key| < i < |s| ==> s[i] == e.value[i - |e.key| - 1];
  }

  lemma LineIsLoaded(m: seq<Entry>, e: Entry)
    requires FitsLine(e)
    ensures Loaded(m, LineOf(e)) == Assign(m, e.key, e.value)
  {
    LastEqualsOfLine(e);
    var s := LineOf(e);
    assert s[..|e.key|] == e.key && s[|e.key| + 1..] == e.value;
  }

  lemma FirstNewline(line: string, rest: string)
    requires '\n' !in line
    ensures '\n' in line + "\n" + rest && IndexOf(line + "\n" + rest, '\n') == |line|
  {
    var t := line + "\n" + rest;
    assert t[|line|] == '\n';
    var k := IndexOf(t, '\n');
    assert forall i :: 0 <= i < |line| ==> t[i] == line[i];
    assert forall i {:trigger t[i]} :: 0 <= i < k ==> t[i] == t[..k][i];
  }

  function AssignedAll(m: seq<Entry>, es: seq<Entry>): seq<Entry>
    decreases |es|
  {
    if es == [] then m else AssignedAll(Assign(m, es[0].key, es[0].value), es[1..])
  }

  lemma {:induction false} WrittenIsLoaded(d: seq<Entry>, m: seq<Entry>)
    requires AllFit(m)
    ensures LoadedAll(d, Written(m)) == AssignedAll(d, WithValue(m))
    decreases |m|
  {
    if m == [] {
      assert Written(m) == "" && LastEquals("") == None;
    } else if m[0].value == "" {
      assert Written(m) == Written(m[1..]) && WithValue(m) == WithValue(m[1..]);
      WrittenIsLoaded(d, m[1..]);
    } else {
      var line, rest := LineOf(m[0]), Written(m[1..]);
      FirstNewline(line, rest);
      var text := line + "\n" + rest;
      assert text[..|line|] == line && text[|line| + 1..] == rest;
      LineIsLoaded(d, m[0]);
      assert WithValue(m)[1..] == WithValue(m[1..]);
      WrittenIsLoaded(Assign(d, m[0].key, m[0].value), m[1..]);
    }
  }

  lemma {:induction false} AssigningNewKeys(d: seq<Entry>, es: seq<Entry>)
    requires DistinctKeys(d + es)
    ensures AssignedAll(d, es) == d + es
    decreases |es|
  {
    if es == [] {
      assert d + es == d;
    } else {
      forall i | 0 <= i < |d| ensures d[i].key != es[0].key { assert (d + es)[i].key != (d + es)[|d|].key; }
      assert es[0] == Entry(es[0].key, es[0].value);
      assert (d + [es[0]]) + es[1..] == d + es;
      AssigningNewKeys(d + [es[0]], es[1..]);
    }
  }

  lemma {:induction false} WithValueIsPart(m: seq<Entry>)
    ensures forall e :: e in WithValue(m) <==> e in m && e.value != ""
    ensures |WithValue(m)| <= |m|
  {
    if m != [] { WithValueIsPart(m[1..]); }
  }

  lemma {:induction false} WithValueIsDistinct(m: seq<Entry>)
    requires DistinctKeys(m)
    ensures DistinctKeys(WithValue(m))
  {
    if m != [] {
      var rest := WithValue(m[1..]);
      WithValueIsDistinct(m[1..]);
      WithValueIsPart(m[1..]);
      forall j | 0 <= j < |rest| ensures rest[j].key != m[0].key { assert rest[j] in m[1..]; }
    }
  }

  lemma {:induction false} WithValueOfAll(m: seq<Entry>)
    requires AllHaveValues(m)
    ensures WithValue(m) == m
  {
    if m != [] { WithValueOfAll(m[1..]); }
  }

  /** Reading back what was written gives the entries that have a value, in the same order. */
  lemma ReadBack(m: seq<Entry>)
    requires DistinctKeys(m) && AllFit(m)
    ensures LoadedAll([], Written(m)) == WithValue(m)
  {
    WrittenIsLoaded([], m);
    WithValueIsDistinct(m);
    assert [] + WithValue(m) == WithValue(m);
    AssigningNewKeys([], WithValue(m));
  }

  // ---------------------------------------------------------------- exactly when

  lemma AssignFits(m: seq<Entry>, key: string, value: string)
    requires AllFit(m) && FitsLine(Entry(key, value))
    ensures AllFit(Assign(m, key, value))
  {
  }

  lemma LoadedFits(m: seq<Entry>, line: string)
    requires AllFit(m) && '\n' !in line
    ensures AllFit(Loaded(m, line))
  {
    var p := LastEquals(line);
    if p.Some? { AssignFits(m, line[..p.value], line[p.value + 1..]); }
  }

  lemma LoadedAllSplit(m: seq<Entry>, text: string, k: nat)
    requires '\n' in text && k == IndexOf(text, '\n')
    ensures LoadedAll(m, text) == LoadedAll(Loaded(m, text[..k]), text[k + 1..])
    ensures '\n' !in text[..k]
  {
  }

  lemma {:induction false} LoadedAllFits(m: seq<Entry>, text: string)
    requires AllFit(m)
    ensures AllFit(LoadedAll(m, text))
    decreases |text|
  {
    if '\n' in text {
      var k := IndexOf(text, '\n');
      var next, rest := Loaded(m, text[..k]), text[k + 1..];
      LoadedAllSplit(m, text, k);
      LoadedFits(m, text[..k]);
      LoadedAllFits(next, rest);
    } else {
      LoadedFits(m, text);
    }
  }

  ghost predicate SameMap(m: seq<Entry>, m': seq<Entry>) {
    forall k: string :: Lookup(m, k) == Lookup(m', k)
  }

  lemma LookupAt(m: seq<Entry>, i: nat)
    requires DistinctKeys(m) && i < |m|
    ensures Lookup(m, m[i].key) == Some(m[i].value)
  {
  }

  /** A file written and read into a fresh object gives the same map exactly when no key contains a
      newline and every value is non-empty and contains neither a newline nor '='. Keys may contain
      '='. */
  lemma RoundTripExactly(m: seq<Entry>)
    requires DistinctKeys(m)
    ensures SameMap(LoadedAll([], Written(m)), m) <==> AllFit(m) && AllHaveValues(m)
    ensures AllFit(m) && AllHaveValues(m) ==> LoadedAll([], Written(m)) == m
  {
    var r := LoadedAll([], Written(m));
    if AllFit(m) {
      ReadBack(m);
      if AllHaveValues(m) {
        WithValueOfAll(m);
      } else {
        var i :| 0 <= i < |m| && m[i].value == "";
        LookupAt(m, i);
        WithValueIsPart(m);
        forall j | 0 <= j < |r| ensures r[j].value != "" { assert r[j] in WithValue(m); }
        assert Lookup(r, m[i].key) != Some("");
      }
    } else {
      LoadedAllFits([], Written(m));
      var i :| 0 <= i < |m| && !FitsLine(m[i]);
      LookupAt(m, i);
      assert Lookup(r, m[i].key) != Some(m[i].value);
    }
  }

  // ---------------------------------------------------------------- changes survive a restart

  lemma AssignKeepsDistinct(m: seq<Entry>, key: string, value: string)
    requires DistinctKeys(m)
    ensures DistinctKeys(Assign(m, key, value))
  {
  }

  /** Only the assigned key reads differently. */
  lemma LookupAssigned(m: seq<Entry>, key: string, value: string, k: string)
    requires DistinctKeys(m)
    ensures Lookup(Assign(m, key, value), k) == if k == key then Some(value) else Lookup(m, k)
  {
    AssignKeepsDistinct(m, key, value);
    var m' := Assign(m, key, value);
    var i := if Find(m, key).Some? then Find(m, key).value else |m|;
    assert m'[i] == Entry(key, value);
    if k == key {
      LookupAt(m', i);
    } else if Find(m, k).Some? {
      var j := Find(m, k).value;
      assert m'[j] == m[j];
      LookupAt(m', j);
    } else {
      assert forall j :: 0 <= j < |m'| ==> m'[j].key != k;
    }
  }

  /** A line that sets a key: what follows the last '=' is the value. */
  predicate Sets(line: string, key: string, value: string) { line == key + "=" + value && '=' !in value }

  lemma SetsOneKey(line: string, key: string, value: string, key': string, value': string)
    requires Sets(line, key, value) && Sets(line, key', value')
    ensures key == key' && value == value'
  {
    LastEqualsOfLine(Entry(key, value));
    LastEqualsOfLine(Entry(key', value'));
    assert line[..|key|] == key && line[..|key'|] == key' && line[|key| + 1..] == value && line[|key'| + 1..] == value';
  }

  lemma LineSets(m: seq<Entry>, line: string, key: string)
    requires DistinctKeys(m)
    ensures DistinctKeys(Loaded(m, line))
    ensures forall value :: Sets(line, key, value) ==> Lookup(Loaded(m, line), key) == Some(value)
    ensures (forall value :: !Sets(line, key, value)) ==> Lookup(Loaded(m, line), key) == Lookup(m, key)
  {
    var p := LastEquals(line);
    if p.Some? {
      var k, v := line[..p.value], line[p.value + 1..];
      assert line == k + "=" + v;
      assert Sets(line, k, v);
      AssignKeepsDistinct(m, k, v);
      LookupAssigned(m, k, v, key);
      forall value | Sets(line, key, value) ensures key == k && value == v { SetsOneKey(line, key, value, k, v); }
    } else {
      forall value ensures !Sets(line, key, value) { assert (key + "=" + value)[|key|] == '='; }
    }
  }

  /** What a file of any lines means: the last line that sets a key decides, lines without '=' are ignored,
      and keys that no line sets are as before. */
  lemma {:induction false} LastLineDecides(m: seq<Entry>, lines: seq<string>, key: string)
    requires DistinctKeys(m) && lines != [] && Free(lines, '\n')
    ensures forall i, value :: 0 <= i < |lines| && Sets(lines[i], key, value) && (forall k, v :: i < k < |lines| ==> !Sets(lines[k], key, v))
              ==> Lookup(LoadedAll(m, Join(lines, '\n')), key) == Some(value)
    ensures (forall i, v :: 0 <= i < |lines| ==> !Sets(lines[i], key, v))
            ==> Lookup(LoadedAll(m, Join(lines, '\n')), key) == Lookup(m, key)
    decreases |lines|
  {
    LineSets(m, lines[0], key);
    if |lines| > 1 {
      var rest := lines[1..];
      LoadedFirst(m, lines[0], Join(rest, '\n'));
      LastLineDecides(Loaded(m, lines[0]), rest, key);
      assert forall k :: 0 < k < |lines| ==> lines[k] == rest[k - 1];
      assert forall k :: 0 <= k < |rest| ==> rest[k] == lines[k + 1];
    }
  }

  lemma LoadedFirst(m: seq<Entry>, line: string, rest: string)
    requires '\n' !in line
    ensures LoadedAll(m, line + "\n" + rest) == LoadedAll(Loaded(m, line), rest)
  {
    FirstNewline(line, rest);
    var text := line + "\n" + rest;
    assert text[..|line|] == line && text[|line| + 1..] == rest;
  }

  /** What a key reads as after a restart. */
  function Restarted(m: seq<Entry>, key: string): Option<string> { Lookup(LoadedAll([], Written(m)), key) }

  lemma LookupWithValue(m: seq<Entry>, key: string)
    requires DistinctKeys(m)
    ensures Lookup(WithValue(m), key) == if Lookup(m, key) == Some("") then None else Lookup(m, key)
  {
    WithValueIsPart(m);
    WithValueIsDistinct(m);
    var r := WithValue(m);
    if Lookup(m, key).Some? && Lookup(m, key) != Some("") {
      var i := Find(m, key).value;
      assert m[i] in r;
      var j :| 0 <= j < |r| && r[j] == m[i];
      LookupAt(r, j);
    } else if Find(r, key).Some? {
      var j := Find(r, key).value;
      assert r[j] in m;
      var i :| 0 <= i < |m| && m[i] == r[j];
      LookupAt(m, i);
    }
  }

  /** A value that fits its line is what a restart reads, and no other key changes. */
  lemma SetSurvives(m: seq<Entry>, key: string, value: string, other: string)
    requires DistinctKeys(m) && AllFit(m) && FitsLine(Entry(key, value)) && value != "" && other != key
    ensures Restarted(Assign(m, key, value), key) == Some(value)
    ensures Restarted(Assign(m, key, value), other) == Restarted(m, other)
  {
    AssignKeepsDistinct(m, key, value);
    AssignFits(m, key, value);
    ReadBack(m);
    ReadBack(Assign(m, key, value));
    LookupWithValue(Assign(m, key, value), key);
    LookupWithValue(Assign(m, key, value), other);
    LookupWithValue(m, other);
    LookupAssigned(m, key, value, key);
    LookupAssigned(m, key, value, other);
  }

  /** Emptying a label, which is how a key is removed, makes a restart not find it. */
  lemma RemoveSurvives(m: seq<Entry>, key: string, other: string)
    requires DistinctKeys(m) && AllFit(m) && '\n' !in key && other != key
    ensures Restarted(Assign(m, key, ""), key) == None
    ensures Restarted(Assign(m, key, ""), other) == Restarted(m, other)
  {
    AssignKeepsDistinct(m, key, "");
    AssignFits(m, key, "");
    ReadBack(m);
    ReadBack(Assign(m, key, ""));
    LookupWithValue(Assign(m, key, ""), key);
    LookupWithValue(Assign(m, key, ""), other);
    LookupWithValue(m, other);
    LookupAssigned(m, key, "", key);
    LookupAssigned(m, key, "", other);
  }

  /** The object without a label. */
  function Without(m: seq<Entry>, key: string): seq<Entry> {
    match Find(m, key) case None => m case Some(i) => m[..i] + m[i + 1..]
  }

  /** The next entry of a file that is written from the i-th on. */
  lemma WrittenFrom(m: seq<Entry>, i: nat, text: string)
    requires i < |m|
    ensures text + Written(m[i..]) == (if m[i].value == "" then text else text + (LineOf(m[i]) + "\n")) + Written(m[i + 1..])
  {
    assert m[i..][1..] == m[i + 1..];
    assert text + ((LineOf(m[i]) + "\n") + Written(m[i + 1..])) == (text + (LineOf(m[i]) + "\n")) + Written(m[i + 1..]);
  }

  lemma {:induction false} WrittenAppend(a: seq<Entry>, b: seq<Entry>)
    ensures Written(a + b) == Written(a) + Written(b)
  {
    if a == [] {
      assert a + b == b;
    } else {
      assert (a + b)[1..] == a[1..] + b;
      WrittenAppend(a[1..], b);
    }
  }

  lemma FindAt(m: seq<Entry>, i: nat)
    requires DistinctKeys(m) && i < |m|
    ensures Find(m, m[i].key) == Some(i)
  {
  }

  lemma EmptyLabelAt(m: seq<Entry>, i: nat, e: Entry)
    requires i < |m| && e.value == ""
    ensures Written(m[i := e]) == Written(m[..i] + m[i + 1..])
  {
    assert m[i := e] == m[..i] + ([e] + m[i + 1..]);
    WrittenAppend(m[..i], [e] + m[i + 1..]);
    WrittenAppend(m[..i], m[i + 1..]);
    assert ([e] + m[i + 1..])[1..] == m[i + 1..];
  }

  lemma EmptyLabelAtEnd(m: seq<Entry>, e: Entry)
    requires e.value == ""
    ensures Written(m + [e]) == Written(m)
  {
    WrittenAppend(m, [e]);
    assert [e][1..] == [];
  }

  /** It makes no difference to the file whether the emptied label is then taken out. */
  lemma EmptiedIsWithout(m: seq<Entry>, key: string)
    ensures Written(Assign(m, key, "")) == Written(Without(m, key))
  {
    match Find(m, key) {
      case None => EmptyLabelAtEnd(m, Entry(key, ""));
      case Some(i) => EmptyLabelAt(m, i, Entry(key, ""));
    }
  }

  lemma AssignThenWithout(m: seq<Entry>, key: string, value: string)
    requires DistinctKeys(m)
    ensures Without(Assign(m, key, value), key) == Without(m, key)
  {
    AssignKeepsDistinct(m, key, value);
    match Find(m, key) {
      case None => FindAt(m + [Entry(key, value)], |m|);
      case Some(i) => FindAt(m[i := Entry(key, value)], i);
    }
  }

  lemma WithoutIsGone(m: seq<Entry>, key: string)
    requires DistinctKeys(m)
    ensures DistinctKeys(Without(m, key)) && Lookup(Without(m, key), key) == None
  {
    var r := Without(m, key);
    if Find(m, key).Some? {
      var i := Find(m, key).value;
      assert forall j :: 0 <= j < |r| ==> r[j] == m[if j < i then j else j + 1];
    }
    assert forall j :: 0 <= j < |r| ==> r[j].key != key;
  }

  // ---------------------------------------------------------------- the class

  class CSettings {
    var data: seq<Entry>
    var fileExists: bool
    var text: string

    /** The constructor reads the file, or creates an empty one. */
    constructor (file: Option<string>)
      ensures Valid() && fileExists
      ensures text == (if file.Some? then file.value else "") && data == LoadedAll([], text)
    {
      data := [];
      fileExists := file.Some?;
      text := if file.Some? then file.value else "";
      new;
      var ok := ReadFromFile();
      if !ok { fileExists := true; }
    }

    predicate Valid() reads this { DistinctKeys(data) }

    method Contains(key: string) returns (found: bool)
      ensures found <==> Lookup(data, key).Some? && Lookup(data, key) != Some("")
    {
      var value := Lookup(data, key);
      found := value.Some? && value.value != "";
    }

    method SetValue(key: string, value: string) returns (ok: bool)
      requires Valid()
      modifies this`data, this`text
      ensures Valid() && data == Assign(old(data), key, value)
      ensures ok == fileExists && text == if ok then Written(data) else old(text)
    {
      data := Assign(data, key, value);
      AssignKeepsDistinct(old(data), key, value);
      ok := WriteToFile();
    }

    /** Some versions of the object do not take the label out; the outcome is a parameter. */
    method Remove(key: string, takenOut: bool) returns (ok: bool)
      requires Valid()
      modifies this`data, this`text
      ensures Valid()
      ensures data == if takenOut then Without(old(data), key) else Assign(old(data), key, "")
      ensures ok == fileExists && text == if ok then Written(Without(old(data), key)) else old(text)
    {
      AssignKeepsDistinct(data, key, "");
      LookupAssigned(data, key, "", key);
      EmptiedIsWithout(data, key);
      AssignThenWithout(data, key, "");
      WithoutIsGone(data, key);
      data := Assign(data, key, "");
      if takenOut { data := Without(data, key); }
      var found := Contains(key);
      if found { return false; }
      ok := WriteToFile();
    }

    method WriteToFile() returns (ok: bool)
      modifies this`text
      ensures ok == fileExists && text == if ok then Written(data) else old(text)
    {
      ok := false;
      if fileExists {
        text := "";
        for i := 0 to |data|
          invariant text + Written(data[i..]) == Written(data)
        {
          WrittenFrom(data, i, text);
          if data[i].value != "" {
            text := text + (LineOf(data[i]) + "\n");
          }
        }
        ok := true;
      }
    }

    method ReadFromFile() returns (ok: bool)
      requires Valid()
      modifies this`data
      ensures ok == fileExists
      ensures Valid() && data == if ok then LoadedAll(old(data), text) else old(data)
    {
      ok := false;
      if !fileExists { return; }
      var rest, eof := text, false;
      while !eof
        invariant Valid() && (ok || !eof)
        invariant LoadedAll(old(data), text) == if eof then data else LoadedAll(data, rest)
        decreases !eof, |rest|
      {
        var content := rest;
        if '\n' in rest {
          var k := IndexOf(rest, '\n');
          LoadedAllSplit(data, rest, k);
          content, rest := rest[..k], rest[k + 1..];
        } else {
          eof := true;
        }
        ReadLine(content);
        ok := true;
      }
    }

    method ReadLine(content: string)
      requires Valid()
      modifies this`data
      ensures Valid() && data == Loaded(old(data), content)
    {
      var pos := LastEquals(content);
      if pos.Some? {
        AssignKeepsDistinct(data, content[..pos.value], content[pos.value + 1..]);
        data := Assign(data, content[..pos.value], content[pos.value + 1..]);
      }
    }
  }
}
