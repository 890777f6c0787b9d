/** The `Id` value object: a string identifier stored trimmed of the
    whitespace JavaScript's `String.prototype.trim` removes. */
module Ids {
  import Text

  /** The characters `trim` removes: the ECMAScript WhiteSpace and
      LineTerminator code points. */
  predicate IsJsSpace(c: char) {
    var n := c as int;
    || n == 0x09 || n == 0x0A || n == 0x0B || n == 0x0C || n == 0x0D || n == 0x20
    || n == 0xA0 || n == 0x1680 || (0x2000 <= n <= 0x200A)
    || n == 0x2028 || n == 0x2029 || n == 0x202F || n == 0x205F || n == 0x3000 || n == 0xFEFF
  }

  predicate AllSpace(s: string) {
    forall k :: 0 <= k < |s| ==> IsJsSpace(s[k])
  }

  /** Neither end of `s` is whitespace. */
  predicate Trimmed(s: string) {
    |s| > 0 ==> !IsJsSpace(s[0]) && !IsJsSpace(s[|s| - 1])
  }

  /** `trimStart`: the suffix left after the leading whitespace. */
  function TrimStart(s: string): (r: string)
    ensures |r| <= |s| && r == s[|s| - |r|..]
    ensures AllSpace(s[..|s| - |r|])
    ensures |r| > 0 ==> !IsJsSpace(r[0])
    decreases |s|
  {
    if |s| > 0 && IsJsSpace(s[0]) then TrimStart(s[1..]) else s
  }

  /** `trimEnd`: the prefix left before the trailing whitespace. */
  function TrimEnd(s: string): (r: string)
    ensures |r| <= |s| && r == s[..|r|]
    ensures AllSpace(s[|r|..])
    ensures |r| > 0 ==> !IsJsSpace(r[|r| - 1])
    decreases |s|
  {
    if |s| > 0 && IsJsSpace(s[|s| - 1]) then TrimEnd(s[..|s| - 1]) else s
  }

  /** `trim`: `trimStart` then `trimEnd`. */
  function Trim(s: string): (r: string)
    ensures Trimmed(r)
    ensures |r| <= |s|
  {
    TrimEnd(TrimStart(s))
  }

  /** `r` sits at `i` in `s` with only whitespace around it. */
  predicate SpacedInfix(s: string, i: nat, r: string) {
    && i + |r| <= |s|
    && r == s[i..i + |r|]
    && AllSpace(s[..i])
    && AllSpace(s[i + |r|..])
  }

  /** `trim` returns the infix of `s` between its leading and its trailing
      whitespace. */
  lemma TrimInfix(s: string)
    ensures SpacedInfix(s, |s| - |TrimStart(s)|, Trim(s))
  {
    InfixOf(s, TrimStart(s), Trim(s));
  }

  /** Cutting only whitespace from the front of `s` and then from the back
      leaves a whitespace-padded infix of `s`. */
  lemma InfixOf(s: string, t: string, r: string)
    requires |t| <= |s| && t == s[|s| - |t|..] && AllSpace(s[..|s| - |t|])
    requires |r| <= |t| && r == t[..|r|] && AllSpace(t[|r|..])
    ensures SpacedInfix(s, |s| - |t|, r)
  {
    SuffixSlices(s, t, r, |s| - |t|);
  }

  /** Slices of a prefix `r` of the suffix `t` of `s` that starts at `i`. */
  lemma SuffixSlices(s: string, t: string, r: string, i: nat)
    requires i <= |s| && t == s[i..] && |r| <= |t| && r == t[..|r|]
    ensures s[i..i + |r|] == r && s[i + |r|..] == t[|r|..]
  {
  }

  lemma {:induction false} TrimStartOfTrimmed(s: string)
    requires |s| == 0 || !IsJsSpace(s[0])
    ensures TrimStart(s) == s
  {
  }

  lemma {:induction false} TrimEndOfTrimmed(s: string)
    requires |s| == 0 || !IsJsSpace(s[|s| - 1])
    ensures TrimEnd(s) == s
  {
  }

  /** Trimming leaves an already trimmed string alone. */
  lemma TrimOfTrimmed(s: string)
    requires Trimmed(s)
    ensures Trim(s) == s
  {
    TrimStartOfTrimmed(s);
    TrimEndOfTrimmed(s);
  }

  /** Trimming twice is trimming once. */
  lemma TrimIdempotent(s: string)
    ensures Trim(Trim(s)) == Trim(s)
  {
    TrimOfTrimmed(Trim(s));
  }

  lemma {:induction false} TrimStartPadding(p: string, s: string)
    requires AllSpace(p)
    ensures TrimStart(p + s) == TrimStart(s)
    decreases |p|
  {
    if |p| > 0 {
      assert (p + s)[0] == p[0];
      assert (p + s)[1..] == p[1..] + s;
      TrimStartPadding(p[1..], s);
    } else {
      assert p + s == s;
    }
  }

  lemma {:induction false} TrimEndPadding(s: string, q: string)
    requires AllSpace(q)
    ensures TrimEnd(s + q) == TrimEnd(s)
    decreases |q|
  {
    if |q| > 0 {
      assert (s + q)[|s + q| - 1] == q[|q| - 1];
      assert (s + q)[..|s + q| - 1] == s + q[..|q| - 1];
      TrimEndPadding(s, q[..|q| - 1]);
    } else {
      assert s + q == s;
    }
  }

  /** Leading whitespace is only looked for before the first other character. */
  lemma {:induction false} TrimStartAppend(s: string, q: string)
    requires !AllSpace(s)
    ensures TrimStart(s + q) == TrimStart(s) + q
    decreases |s|
  {
    assert (s + q)[0] == s[0];
    if IsJsSpace(s[0]) {
      assert (s + q)[1..] == s[1..] + q;
      TrimStartAppend(s[1..], q);
    }
  }

  lemma {:induction false} TrimStartAllSpace(s: string)
    requires AllSpace(s)
    ensures TrimStart(s) == ""
    decreases |s|
  {
    if |s| > 0 {
      TrimStartAllSpace(s[1..]);
    }
  }

  /** Surrounding whitespace does not change what `trim` returns. */
  lemma TrimIgnoresPadding(p: string, s: string, q: string)
    requires AllSpace(p) && AllSpace(q)
    ensures Trim(p + s + q) == Trim(s)
  {
    assert p + s + q == p + (s + q);
    TrimStartPadding(p, s + q);
    if AllSpace(s) {
      assert AllSpace(s + q);
      TrimStartAllSpace(s + q);
      TrimStartAllSpace(s);
    } else {
      TrimStartAppend(s, q);
      TrimEndPadding(TrimStart(s), q);
    }
  }

  /** What an `Id` can be built from. */
  datatype IdInput = FromText(text: string) | FromNumber(n: int) | FromId(id: Id)

  /** An identifier; `stored` is the private field. */
  datatype Id = Id(stored: string)

  /** `new Id(value)`: an `Id` is copied, anything else is converted with
      `String` (integers only, here) and trimmed. */
  function MakeId(x: IdInput): (r: Id)
    ensures x.FromId? ==> r == x.id
    ensures x.FromText? ==> Trimmed(r.stored) && |r.stored| <= |x.text|
    ensures x.FromText? && Trimmed(x.text) ==> r.stored == x.text
  {
    match x
    case FromText(s) =>
      TrimOfTrimmedIfNeeded(s);
      Id(Trim(s))
    case FromNumber(n) => Id(Trim(Text.IntToString(n)))
    case FromId(id) => id
  }

  lemma TrimOfTrimmedIfNeeded(s: string)
    ensures Trimmed(s) ==> Trim(s) == s
  {
    if Trimmed(s) {
      TrimOfTrimmed(s);
    }
  }

  /** Every `Id` a program can build holds a trimmed string. */
  predicate Constructed(id: Id) {
    Trimmed(id.stored)
  }

  lemma {:induction false} NumberTextTrimmed(n: int)
    ensures Trimmed(Text.IntToString(n))
  {
    var t := Text.IntToString(n);
    if n < 0 {
      assert t[0] == '-';
      assert t[|t| - 1] == Text.NatToString(-n)[|Text.NatToString(-n)| - 1];
    }
  }

  /** Every constructed id holds a trimmed string, and a number's id is its
      decimal text. */
  lemma MakeIdConstructed(x: IdInput)
    requires x.FromId? ==> Constructed(x.id)
    ensures Constructed(MakeId(x))
    ensures x.FromNumber? ==> MakeId(x).stored == Text.IntToString(x.n)
  {
    if x.FromNumber? {
      NumberTextTrimmed(x.n);
      TrimOfTrimmed(Text.IntToString(x.n));
    }
  }

  /** The `value` getter. */
  function Value(id: Id): (r: string)
    ensures Constructed(id) ==> MakeId(FromText(r)) == id
  {
    TrimOfTrimmedIfNeeded(id.stored);
    id.stored
  }

  /** `toString()` returns `value`. */
  function ToString(id: Id): (r: string)
    ensures r == Value(id)
  {
    id.stored
  }

  /** `equals(x)`: the value of `x` as an `Id` is this id's value. */
  function Equals(id: Id, x: IdInput): (r: bool)
    ensures x.FromId? ==> (r <==> id == x.id)
    ensures x.FromText? && Trimmed(x.text) ==> (r <==> Value(id) == x.text)
  {
    Value(id) == Value(MakeId(x))
  }

  /** Wrapping an id again, or rebuilding it from its value, changes nothing. */
  lemma RewrapIdempotent(x: IdInput)
    requires x.FromId? ==> Constructed(x.id)
    ensures MakeId(FromId(MakeId(x))) == MakeId(x)
    ensures MakeId(FromText(Value(MakeId(x)))) == MakeId(x)
  {
    MakeIdConstructed(x);
  }

  /** `equals` is reflexive, whether given the id itself or its value. */
  lemma EqualsReflexive(id: Id)
    requires Constructed(id)
    ensures Equals(id, FromId(id))
    ensures Equals(id, FromText(Value(id)))
  {
  }

  /** `equals` ignores whitespace around a string argument. */
  lemma EqualsIgnoresPadding(id: Id, p: string, s: string, q: string)
    requires AllSpace(p) && AllSpace(q)
    ensures Equals(id, FromText(p + s + q)) == Equals(id, FromText(s))
  {
    TrimIgnoresPadding(p, s, q);
  }

  /** `equals` is symmetric between ids. */
  lemma EqualsSymmetric(a: Id, b: Id)
    ensures Equals(a, FromId(b)) == Equals(b, FromId(a))
  {
  }
}
