/** String-to-string JavaScript objects (`Record<string, string>`): entries in
    insertion order with distinct keys, property assignment, object spread,
    and the `KEY=VALUE` text a `.env` file is written with. */
module Records {
  import opened Wrappers
  import Text

  type Entry = (string, string)

  /** The keys of `s`, in order. */
  function Keys(s: seq<Entry>): (r: seq<string>)
    ensures |r| == |s|
    ensures forall i :: 0 <= i < |s| ==> r[i] == s[i].0
  {
    if |s| == 0 then [] else [s[0].0] + Keys(s[1..])
  }

  predicate DistinctKeys(s: seq<Entry>) {
    forall i, j :: 0 <= i < j < |s| ==> s[i].0 != s[j].0
  }

  /** An object's own enumerable string properties, in insertion order. */
  type Record = s: seq<Entry> | DistinctKeys(s) witness []

  /** `obj[key]`: the value of the first entry with that key. */
  function Lookup(s: seq<Entry>, key: string): (r: Option<string>)
    ensures r.Some? <==> key in Keys(s)
    ensures r.Some? ==> (key, r.value) in s
  {
    if |s| == 0 then None
    else if s[0].0 == key then Some(s[0].1)
    else
      assert Keys(s) == [s[0].0] + Keys(s[1..]);
      Lookup(s[1..], key)
  }

  /** In a record every entry is what its key looks up. */
  lemma {:induction false} LookupAt(s: Record, i: nat)
    requires i < |s|
    ensures Lookup(s, s[i].0) == Some(s[i].1)
  {
    if i > 0 {
      var t: Record := s[1..];
      LookupAt(t, i - 1);
    }
  }

  /** `obj[key] = value`: an existing key keeps its position, a new key goes
      last. */
  function Assign(s: Record, key: string, value: string): (r: Record)
    ensures Keys(r) == if key in Keys(s) then Keys(s) else Keys(s) + [key]
    ensures Lookup(r, key) == Some(value)
    ensures forall k :: k != key ==> Lookup(r, k) == Lookup(s, k)
  {
    PutDistinct(s, key, value);
    forall k ensures Lookup(Put(s, key, value), k) == if k == key then Some(value) else Lookup(s, k) {
      PutLookup(s, key, value, k);
    }
    Put(s, key, value)
  }

  function Put(s: seq<Entry>, key: string, value: string): (r: seq<Entry>)
    ensures Keys(r) == if key in Keys(s) then Keys(s) else Keys(s) + [key]
  {
    if |s| == 0 then [(key, value)]
    else
      assert Keys(s) == [s[0].0] + Keys(s[1..]);
      if s[0].0 == key then [(key, value)] + s[1..]
      else
        var rest := Put(s[1..], key, value);
        assert Keys([s[0]] + rest) == [s[0].0] + Keys(rest);
        [s[0]] + rest
  }

  lemma {:induction false} PutLookup(s: seq<Entry>, key: string, value: string, k: string)
    ensures Lookup(Put(s, key, value), k) == if k == key then Some(value) else Lookup(s, k)
  {
    if |s| > 0 && s[0].0 != key {
      PutLookup(s[1..], key, value, k);
    }
  }

  lemma PutDistinct(s: seq<Entry>, key: string, value: string)
    requires DistinctKeys(s)
    ensures DistinctKeys(Put(s, key, value))
  {
    var r := Put(s, key, value);
    var ks := Keys(r);
    forall i, j | 0 <= i < j < |r| ensures r[i].0 != r[j].0 {
      assert ks[i] == r[i].0 && ks[j] == r[j].0;
      if j < |s| {
        assert Keys(s)[i] == s[i].0 && Keys(s)[j] == s[j].0;
      } else {
        assert Keys(s)[i] == s[i].0;
      }
    }
  }

  /** `{...base, ...over}`: the keys of `base` come first, in their order,
      then the new keys of `over`. */
  function Spread(base: Record, over: Record): (r: Record)
    ensures |Keys(base)| <= |Keys(r)| && Keys(r)[..|base|] == Keys(base)
    decreases |over|
  {
    if |over| == 0 then base
    else
      var next: Record := over[1..];
      var mid := Assign(base, over[0].0, over[0].1);
      assert Keys(mid)[..|base|] == Keys(base);
      Spread(mid, next)
  }

  /** After `{...base, ...over}` every key of `over` has its value from
      `over`, and every other key keeps its value from `base`. */
  lemma {:induction false} SpreadLookup(base: Record, over: Record, k: string)
    ensures Lookup(Spread(base, over), k)
            == if Lookup(over, k).Some? then Lookup(over, k) else Lookup(base, k)
    decreases |over|
  {
    if |over| > 0 {
      var next: Record := over[1..];
      var mid := Assign(base, over[0].0, over[0].1);
      SpreadStep(base, over);
      LookupFirst(over, k);
      SpreadLookup(mid, next, k);
    }
  }

  lemma SpreadStep(base: Record, over: Record)
    requires |over| > 0
    ensures Spread(base, over) == Spread(Assign(base, over[0].0, over[0].1), over[1..])
  {
  }

  /** Looking a key up in a record: the first entry answers for its own key,
      which the rest of the record does not hold. */
  lemma LookupFirst(s: Record, k: string)
    requires |s| > 0
    ensures Lookup(s, k) == if k == s[0].0 then Some(s[0].1) else Lookup(s[1..], k)
    ensures k == s[0].0 ==> Lookup(s[1..], k).None?
  {
    if k == s[0].0 {
      var rest := s[1..];
      assert k !in Keys(rest) by {
        assert forall j :: 0 <= j < |rest| ==> rest[j] == s[j + 1];
      }
    }
  }

  /** One `.env` line. */
  function Line(e: Entry): string {
    e.0 + "=" + e.1
  }

  function Lines(s: seq<Entry>): (r: seq<string>)
    ensures |r| == |s|
    ensures forall i :: 0 <= i < |s| ==> r[i] == Line(s[i])
  {
    seq(|s|, i requires 0 <= i < |s| => Line(s[i]))
  }

  /** `Object.entries(obj).map(([k, v]) => k + "=" + v).join("\n")`: no
      trailing newline, and the empty object gives the empty text. */
  function Render(s: Record): (r: string)
    ensures |s| == 0 ==> r == ""
    ensures |s| == 1 ==> r == Line(s[0])
  {
    Text.Join(Lines(s), "\n")
  }

  /** The position of the first `=`, or `|line|` when there is none. */
  function FirstEq(line: string): (n: nat)
    ensures n <= |line|
    ensures '=' !in line[..n]
    ensures n < |line| ==> line[n] == '='
  {
    if |line| == 0 || line[0] == '=' then 0
    else
      var n := FirstEq(line[1..]);
      assert line[..n + 1] == [line[0]] + line[1..][..n];
      n + 1
  }

  /** Reading a `.env` line back: the key is what precedes the first `=`. */
  function ParseLine(line: string): (e: Entry)
    ensures '=' !in e.0
  {
    var n := FirstEq(line);
    (line[..n], if n < |line| then line[n + 1..] else "")
  }

  /** Reading `.env` text back into entries. */
  function ParseEnv(text: string): (r: seq<Entry>)
    ensures text == "" ==> r == []
  {
    if text == "" then []
    else
      var lines := Text.Split(text, '\n');
      seq(|lines|, i requires 0 <= i < |lines| => ParseLine(lines[i]))
  }

  lemma ParseLineOfLine(e: Entry)
    requires '=' !in e.0
    ensures ParseLine(Line(e)) == e
  {
    var line := Line(e);
    var n := FirstEq(line);
    assert line[..|e.0|] == e.0;
    assert line[|e.0|] == '=';
    assert forall j :: 0 <= j < n ==> line[..n][j] == line[j];
    assert n == |e.0|;
    assert line[n + 1..] == e.1;
  }

  /** The rendered text reads back as the same entries, whenever no key holds
      a `=` or a newline and no value holds a newline. */
  lemma RenderRoundTrip(s: Record)
    requires forall i :: 0 <= i < |s| ==> '=' !in s[i].0 && '\n' !in s[i].0 && '\n' !in s[i].1
    ensures ParseEnv(Render(s)) == s
  {
    if |s| > 0 {
      var lines := Lines(s);
      forall i | 0 <= i < |lines|
        ensures '\n' !in lines[i]
      {
        assert '\n' !in "=";
      }
      Text.SplitJoin(lines, '\n');
      assert Render(s) != "" by {
        assert |Render(s)| > 0 by { RenderNonEmpty(s); }
      }
      forall i | 0 <= i < |s|
        ensures ParseLine(lines[i]) == s[i]
      {
        ParseLineOfLine(s[i]);
      }
    }
  }

  lemma {:induction false} RenderNonEmpty(s: Record)
    requires |s| > 0
    ensures |Render(s)| > 0
  {
    JoinNonEmpty(Lines(s), "\n");
  }

  lemma {:induction false} JoinNonEmpty(parts: seq<string>, sep: string)
    requires |parts| > 0 && |parts[0]| > 0
    ensures |Text.Join(parts, sep)| > 0
  {
  }
}
