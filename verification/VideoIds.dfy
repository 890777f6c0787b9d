/** YouTube video-id extraction as the project aggregate's two regular
    expressions perform it (leftmost match, greedy capture), and the
    canonical watch URL built from the id. */
module VideoIds {
  import opened Wrappers
  import Text

  /** A character the capture group `[^&\n?#]` accepts. */
  predicate IdChar(c: char) {
    c != '&' && c != '\n' && c != '?' && c != '#'
  }

  predicate AllIdChars(s: string) {
    forall k :: 0 <= k < |s| ==> IdChar(s[k])
  }

  /** A character `.` does not match: the ECMAScript line terminators. */
  predicate LineTerminator(c: char) {
    c == '\n' || c == '\r' || c as int == 0x2028 || c as int == 0x2029
  }

  /** The length of the greedy `[^&\n?#]+` run starting at `i`. */
  function Run(s: string, i: nat): (n: nat)
    requires i <= |s|
    ensures i + n <= |s|
    decreases |s| - i
  {
    if i == |s| || !IdChar(s[i]) then 0 else Run(s, i + 1) + 1
  }

  /** The run covers id characters only and cannot be extended. */
  lemma {:induction false} RunStops(s: string, i: nat)
    requires i <= |s|
    ensures AllIdChars(s[i..i + Run(s, i)])
    ensures i + Run(s, i) == |s| || !IdChar(s[i + Run(s, i)])
    decreases |s| - i
  {
    if i < |s| && IdChar(s[i]) {
      RunStops(s, i + 1);
      assert s[i..i + Run(s, i)] == [s[i]] + s[i + 1..i + 1 + Run(s, i + 1)];
    }
  }

  /** `n` id characters start at `start` and the run cannot go further. */
  predicate RunAt(s: string, start: nat, n: nat) {
    && start + n <= |s|
    && (forall k :: start <= k < start + n ==> IdChar(s[k]))
    && (start + n == |s| || !IdChar(s[start + n]))
  }

  /** The greedy run over `n` id characters stops right after them. */
  lemma {:induction false} RunIs(s: string, start: nat, n: nat)
    requires RunAt(s, start, n)
    ensures Run(s, start) == n
    decreases n
  {
    if n > 0 {
      RunIs(s, start + 1, n - 1);
    }
  }

  /** `s[i..]` begins with `w`. */
  predicate At(s: string, i: nat, w: string) {
    i + |w| <= |s| && forall k :: 0 <= k < |w| ==> s[i + k] == w[k]
  }

  const WatchPrefix := "youtube.com/watch?v="
  const ShortPrefix := "youtu.be/"
  const EmbedPrefix := "youtube.com/embed/"
  const LegacyPrefix := "youtube.com/v/"
  const WatchQuery := "youtube.com/watch?"

  /** The alternative of the first pattern that matches at `i`, as its
      length. Every alternative starts with `y`. */
  function AlternativeAt(s: string, i: nat): (r: Option<nat>)
    ensures r.Some? ==> i < |s| && s[i] == 'y' && i + r.value <= |s|
  {
    if At(s, i, WatchPrefix) then assert s[i + 0] == WatchPrefix[0]; Some(|WatchPrefix|)
    else if At(s, i, ShortPrefix) then assert s[i + 0] == ShortPrefix[0]; Some(|ShortPrefix|)
    else if At(s, i, EmbedPrefix) then assert s[i + 0] == EmbedPrefix[0]; Some(|EmbedPrefix|)
    else if At(s, i, LegacyPrefix) then assert s[i + 0] == LegacyPrefix[0]; Some(|LegacyPrefix|)
    else None
  }

  /** The first pattern matched at `i`: an alternative followed by at least
      one id character, giving where the capture starts. */
  function FirstMatch(s: string, i: nat): (r: Option<nat>)
    ensures r.Some? ==> i < r.value < |s| && IdChar(s[r.value])
  {
    match AlternativeAt(s, i)
    case Some(m) => if i + m < |s| && IdChar(s[i + m]) then Some(i + m) else None
    case None => None
  }

  /** The end of the line that starts at `i`. */
  function LineEnd(s: string, i: nat): (e: nat)
    requires i <= |s|
    ensures i <= e <= |s|
    decreases |s| - i
  {
    if i == |s| || LineTerminator(s[i]) then i else LineEnd(s, i + 1)
  }

  /** `v=` followed by an id character at `q`. */
  predicate KeyAt(s: string, q: nat) {
    q + 2 < |s| && s[q] == 'v' && s[q + 1] == '=' && IdChar(s[q + 2])
  }

  /** The greedy `.*` before `v=`: the rightmost usable `v=` in `[lo, q]`. */
  function RightmostKey(s: string, lo: nat, q: nat): (r: Option<nat>)
    requires lo <= q
    ensures r.Some? ==> lo <= r.value <= q && KeyAt(s, r.value)
    decreases q - lo
  {
    if KeyAt(s, q) then Some(q)
    else if q == lo then None
    else RightmostKey(s, lo, q - 1)
  }

  /** The second pattern matched at `p`: `youtube.com/watch?`, the rest of
      the line up to its last usable `v=`, giving where the capture starts. */
  function SecondMatch(s: string, p: nat): (r: Option<nat>)
    ensures r.Some? ==> p < r.value < |s| && IdChar(s[r.value])
  {
    if At(s, p, WatchQuery) then
      var lo := p + |WatchQuery|;
      match RightmostKey(s, lo, LineEnd(s, lo))
      case Some(q) => Some(q + 2)
      case None => None
    else None
  }

  /** The leftmost position in `[from, end)` where `f` finds a match, with
      what it found there. */
  function Leftmost(f: nat -> Option<nat>, from: nat, end: nat): Option<(nat, nat)>
    decreases end - from
  {
    if from >= end then None
    else
      match f(from)
      case Some(c) => Some((from, c))
      case None => Leftmost(f, from + 1, end)
  }

  /** The search finds a match, no earlier one exists, and it fails only when
      there is no match at all. */
  lemma {:induction false} LeftmostSpec(f: nat -> Option<nat>, from: nat, end: nat)
    ensures var r := Leftmost(f, from, end);
            && (r.Some? ==> from <= r.value.0 < end && f(r.value.0) == Some(r.value.1))
            && (r.Some? ==> forall j :: from <= j < r.value.0 ==> f(j).None?)
            && (r.None? ==> forall j :: from <= j < end ==> f(j).None?)
    decreases end - from
  {
    if from < end && f(from).None? {
      LeftmostSpec(f, from + 1, end);
    }
  }

  lemma {:induction false} LeftmostAt(f: nat -> Option<nat>, from: nat, end: nat, i: nat)
    requires from <= i < end && f(i).Some?
    requires forall j :: from <= j < i ==> f(j).None?
    ensures Leftmost(f, from, end) == Some((i, f(i).value))
    decreases i - from
  {
    if from < i {
      LeftmostAt(f, from + 1, end, i);
    }
  }

  lemma {:induction false} LeftmostNone(f: nat -> Option<nat>, from: nat, end: nat)
    requires forall j :: from <= j < end ==> f(j).None?
    ensures Leftmost(f, from, end).None?
    decreases end - from
  {
    if from < end {
      LeftmostNone(f, from + 1, end);
    }
  }

  function FirstOf(s: string): nat -> Option<nat> {
    (j: nat) => FirstMatch(s, j)
  }

  function SecondOf(s: string): nat -> Option<nat> {
    (j: nat) => SecondMatch(s, j)
  }

  /** The captured id starting at `i`. */
  function Capture(s: string, i: nat): string
    requires i <= |s|
  {
    s[i..i + Run(s, i)]
  }

  /** `getVideoId`: the first pattern's capture at its leftmost match, else
      the second pattern's, else an error. A returned id is a non-empty run
      of id characters. */
  function GetVideoId(url: string): (r: Result<string>)
    ensures r.Err? ==> r.error == "Unable to extract video ID"
    ensures r.Ok? ==> |r.value| > 0 && AllIdChars(r.value)
  {
    match Leftmost(FirstOf(url), 0, |url|)
    case Some((i, start)) =>
      LeftmostFound(FirstOf(url), 0, |url|);
      CaptureValid(url, start);
      Ok(Capture(url, start))
    case None =>
      match Leftmost(SecondOf(url), 0, |url|)
      case Some((p, start)) =>
        LeftmostFound(SecondOf(url), 0, |url|);
        CaptureValid(url, start);
        Ok(Capture(url, start))
      case None => Err("Unable to extract video ID")
  }

  /** What the search returns is a match. */
  lemma LeftmostFound(f: nat -> Option<nat>, from: nat, end: nat)
    requires Leftmost(f, from, end).Some?
    ensures f(Leftmost(f, from, end).value.0) == Some(Leftmost(f, from, end).value.1)
  {
    LeftmostSpec(f, from, end);
  }

  /** A capture that starts on an id character is a non-empty id. */
  lemma CaptureValid(s: string, start: nat)
    requires start < |s| && IdChar(s[start])
    ensures |Capture(s, start)| > 0 && AllIdChars(Capture(s, start))
  {
    RunStops(s, start);
  }

  /** Extraction fails exactly when neither pattern matches anywhere. */
  lemma GetVideoIdFails(url: string)
    ensures GetVideoId(url).Err? <==> (forall j :: FirstMatch(url, j).None?) && (forall j :: SecondMatch(url, j).None?)
  {
    LeftmostSpec(FirstOf(url), 0, |url|);
    LeftmostSpec(SecondOf(url), 0, |url|);
    if GetVideoId(url).Err? {
      forall j: nat
        ensures FirstMatch(url, j).None? && SecondMatch(url, j).None?
      {
        if j < |url| {
          assert FirstOf(url)(j).None? && SecondOf(url)(j).None?;
        }
      }
    } else if Leftmost(FirstOf(url), 0, |url|).Some? {
      var i := Leftmost(FirstOf(url), 0, |url|).value.0;
      assert FirstOf(url)(i).Some?;
    } else {
      var p := Leftmost(SecondOf(url), 0, |url|).value.0;
      assert SecondOf(url)(p).Some?;
    }
  }

  /** The four prefixes the first pattern recognises. */
  predicate IsFirstPrefix(w: string) {
    w == WatchPrefix || w == ShortPrefix || w == EmbedPrefix || w == LegacyPrefix
  }

  /** At most one alternative matches at a position: they differ at offset
      5 or 12. */
  lemma AlternativeOfPrefix(s: string, i: nat, prefix: string)
    requires IsFirstPrefix(prefix) && At(s, i, prefix)
    ensures AlternativeAt(s, i) == Some(|prefix|)
  {
    if prefix == ShortPrefix {
      assert s[i + 5] == prefix[5] != WatchPrefix[5];
    } else if prefix == EmbedPrefix || prefix == LegacyPrefix {
      assert s[i + 5] == prefix[5] != ShortPrefix[5];
      assert s[i + 12] == prefix[12] != WatchPrefix[12];
      assert prefix == LegacyPrefix ==> prefix[12] != EmbedPrefix[12];
    }
  }

  /** No match of either pattern starts at a character other than `y`. */
  lemma NoMatchOff(s: string, j: nat)
    requires j < |s| && s[j] != 'y'
    ensures FirstMatch(s, j).None? && SecondMatch(s, j).None?
  {
    assert !At(s, j, WatchQuery) by {
      if j + |WatchQuery| <= |s| {
        assert s[j + 0] != WatchQuery[0];
      }
    }
  }

  /** A recognised prefix followed by an id character, with no `y` before
      it, is the first pattern's leftmost match. */
  lemma FirstLeftmostAt(s: string, i: nat, prefix: string)
    requires IsFirstPrefix(prefix) && At(s, i, prefix)
    requires forall j :: 0 <= j < i ==> s[j] != 'y'
    requires i + |prefix| < |s| && IdChar(s[i + |prefix|])
    ensures Leftmost(FirstOf(s), 0, |s|) == Some((i, i + |prefix|))
  {
    FirstMatchAtPrefix(s, i, prefix);
    NoMatchBefore(s, i);
    LeftmostAt(FirstOf(s), 0, |s|, i);
  }

  lemma FirstMatchAtPrefix(s: string, i: nat, prefix: string)
    requires IsFirstPrefix(prefix) && At(s, i, prefix)
    requires i + |prefix| < |s| && IdChar(s[i + |prefix|])
    ensures FirstOf(s)(i) == Some(i + |prefix|)
  {
    AlternativeOfPrefix(s, i, prefix);
  }

  /** Neither pattern matches before the first `y`. */
  lemma NoMatchBefore(s: string, i: nat)
    requires i <= |s|
    requires forall j :: 0 <= j < i ==> s[j] != 'y'
    ensures forall j :: 0 <= j < i ==> FirstOf(s)(j).None? && SecondOf(s)(j).None?
  {
    forall j | 0 <= j < i
      ensures FirstOf(s)(j).None? && SecondOf(s)(j).None?
    {
      NoMatchOff(s, j);
    }
  }

  /** The id the first pattern's leftmost match captures. */
  lemma CaptureFirst(s: string, i: nat, start: nat, n: nat)
    requires Leftmost(FirstOf(s), 0, |s|) == Some((i, start))
    requires start + n <= |s| && Run(s, start) == n
    ensures GetVideoId(s) == Ok(s[start..start + n])
  {
    assert Capture(s, start) == s[start..start + n];
  }

  /** The id the second pattern's leftmost match captures when the first
      pattern matches nowhere. */
  lemma CaptureSecond(s: string, p: nat, start: nat, n: nat)
    requires Leftmost(FirstOf(s), 0, |s|).None?
    requires Leftmost(SecondOf(s), 0, |s|) == Some((p, start))
    requires start + n <= |s| && Run(s, start) == n
    ensures GetVideoId(s) == Ok(s[start..start + n])
  {
    assert Capture(s, start) == s[start..start + n];
  }

  /** Where four concatenated pieces lie. */
  lemma PieceLayout(a: string, b: string, c: string, d: string)
    ensures var s := a + b + c + d;
            && |s| == |a| + |b| + |c| + |d|
            && (forall k :: 0 <= k < |a| ==> s[k] == a[k])
            && (forall k :: 0 <= k < |b| ==> s[|a| + k] == b[k])
            && (forall k :: 0 <= k < |c| ==> s[|a| + |b| + k] == c[k])
            && (forall k :: 0 <= k < |d| ==> s[|a| + |b| + |c| + k] == d[k])
  {
  }

  /** An id written after one of the recognised prefixes is extracted whole,
      provided nothing before the prefix could start a match (no `y`) and the
      id ends where the URL does or at a character outside the id set. */
  lemma IdAfterPrefix(head: string, prefix: string, id: string, tail: string)
    requires 'y' !in head
    requires IsFirstPrefix(prefix)
    requires |id| > 0 && AllIdChars(id)
    requires tail == "" || !IdChar(tail[0])
    ensures GetVideoId(head + prefix + id + tail) == Ok(id)
  {
    var s := head + prefix + id + tail;
    var start := |head| + |prefix|;
    PrefixLayout(head, prefix, id, tail);
    RunIs(s, start, |id|);
    CaptureFirstAt(s, |head|, prefix, |id|);
  }

  /** When a recognised prefix at `i` is the first place a match can start
      and an id run of length `n` follows it, that run is the id. */
  lemma CaptureFirstAt(s: string, i: nat, prefix: string, n: nat)
    requires IsFirstPrefix(prefix) && At(s, i, prefix)
    requires forall j :: 0 <= j < i ==> s[j] != 'y'
    requires n > 0 && i + |prefix| + n <= |s| && IdChar(s[i + |prefix|])
    requires Run(s, i + |prefix|) == n
    ensures GetVideoId(s) == Ok(s[i + |prefix|..i + |prefix| + n])
  {
    FirstLeftmostAt(s, i, prefix);
    CaptureFirst(s, i, i + |prefix|, n);
  }

  /** Where the prefix and the id of `head + prefix + id + tail` lie. */
  lemma PrefixLayout(head: string, prefix: string, id: string, tail: string)
    requires 'y' !in head
    requires AllIdChars(id)
    requires tail == "" || !IdChar(tail[0])
    ensures var s := head + prefix + id + tail;
            var i := |head|;
            var start := i + |prefix|;
            && At(s, i, prefix)
            && (forall j :: 0 <= j < i ==> s[j] != 'y')
            && RunAt(s, start, |id|)
            && s[start..start + |id|] == id
  {
    var s := head + prefix + id + tail;
    var i := |head|;
    var start := i + |prefix|;
    PieceLayout(head, prefix, id, tail);
    assert forall j :: 0 <= j < i ==> s[j] != 'y' by {
      assert forall j :: 0 <= j < i ==> s[j] == head[j];
    }
    assert forall k :: start <= k < start + |id| ==> IdChar(s[k]) by {
      assert forall k :: start <= k < start + |id| ==> s[k] == id[k - start];
    }
    if tail != "" {
      assert s[start + |id|] == tail[0];
    }
    assert s[start..start + |id|] == id;
  }

  /** A `youtube.com/watch?` not directly followed by `v=` starts none of
      the first pattern's alternatives. */
  lemma NoAlternativeAtQuery(s: string, h: nat)
    requires At(s, h, WatchQuery)
    requires h + |WatchQuery| + 1 < |s|
    requires !(s[h + |WatchQuery|] == 'v' && s[h + |WatchQuery| + 1] == '=')
    ensures AlternativeAt(s, h).None?
  {
    assert s[h + 5] == WatchQuery[5] != ShortPrefix[5];
    assert s[h + 12] == WatchQuery[12] != EmbedPrefix[12] && WatchQuery[12] != LegacyPrefix[12];
    assert !At(s, h, WatchPrefix) by {
      assert WatchPrefix[18] == 'v' && WatchPrefix[19] == '=';
    }
  }

  lemma {:induction false} LineEndAtLeast(s: string, i: nat, q: nat)
    requires i <= q <= |s|
    requires forall k :: i <= k < q ==> !LineTerminator(s[k])
    ensures q <= LineEnd(s, i)
    decreases q - i
  {
    if i < q {
      LineEndAtLeast(s, i + 1, q);
    }
  }

  /** The rightmost usable `v=` up to `e` is the one at `q` when none lies
      after it. */
  lemma {:induction false} RightmostKeyAt(s: string, lo: nat, e: nat, q: nat)
    requires lo <= q <= e && KeyAt(s, q)
    requires forall j :: q < j <= e ==> !KeyAt(s, j)
    ensures RightmostKey(s, lo, e) == Some(q)
    decreases e - q
  {
    if q < e {
      RightmostKeyAt(s, lo, e - 1, q);
    }
  }

  /** With `youtube.com/watch?` at `h` not directly followed by `v=` and no
      other `y`, the first pattern matches nowhere. */
  lemma NoFirstInWatch(s: string, h: nat)
    requires h + |WatchQuery| + 1 < |s|
    requires At(s, h, WatchQuery)
    requires forall j :: 0 <= j < |s| && j != h ==> s[j] != 'y'
    requires !(s[h + |WatchQuery|] == 'v' && s[h + |WatchQuery| + 1] == '=')
    ensures Leftmost(FirstOf(s), 0, |s|).None?
  {
    forall j | 0 <= j < |s|
      ensures FirstOf(s)(j).None?
    {
      if j == h {
        NoAlternativeAtQuery(s, h);
      } else {
        NoMatchOff(s, j);
      }
    }
    LeftmostNone(FirstOf(s), 0, |s|);
  }

  /** The second pattern's leftmost match starts at the only `y`, and its
      capture starts after the last `v=` of the line. */
  lemma SecondLeftmostAt(s: string, h: nat, q: nat)
    requires h + |WatchQuery| < q && q + 2 < |s|
    requires At(s, h, WatchQuery)
    requires forall j :: 0 <= j < h ==> s[j] != 'y'
    requires forall k :: h + |WatchQuery| <= k < q ==> !LineTerminator(s[k])
    requires s[q] == 'v' && s[q + 1] == '=' && IdChar(s[q + 2])
    requires forall k :: q + 2 <= k < |s| ==> s[k] != 'v'
    ensures Leftmost(SecondOf(s), 0, |s|) == Some((h, q + 2))
  {
    SecondMatchAt(s, h, q);
    NoMatchBefore(s, h);
    LeftmostAt(SecondOf(s), 0, |s|, h);
  }

  /** The second pattern matched at `h` captures after the last `v=` of the
      line. */
  lemma SecondMatchAt(s: string, h: nat, q: nat)
    requires h + |WatchQuery| < q && q + 2 < |s|
    requires At(s, h, WatchQuery)
    requires forall k :: h + |WatchQuery| <= k < q ==> !LineTerminator(s[k])
    requires s[q] == 'v' && s[q + 1] == '=' && IdChar(s[q + 2])
    requires forall k :: q + 2 <= k < |s| ==> s[k] != 'v'
    ensures SecondOf(s)(h) == Some(q + 2)
  {
    var lo := h + |WatchQuery|;
    LineEndAtLeast(s, lo, q);
    RightmostKeyAt(s, lo, LineEnd(s, lo), q);
  }

  /** The only `y` in `s` starts a `youtube.com/watch?` at `h` that is not
      directly followed by `v=`; the line runs on to a `v=` at `q` followed by
      an id character, and no `v` comes after that one. */
  predicate WatchQueryAt(s: string, h: nat, q: nat) {
    && h + |WatchQuery| < q && q + 2 < |s|
    && At(s, h, WatchQuery)
    && (forall j :: 0 <= j < |s| && j != h ==> s[j] != 'y')
    && !(s[h + |WatchQuery|] == 'v' && s[h + |WatchQuery| + 1] == '=')
    && (forall k :: h + |WatchQuery| <= k < q ==> !LineTerminator(s[k]))
    && s[q] == 'v' && s[q + 1] == '=' && IdChar(s[q + 2])
    && (forall k :: q + 2 <= k < |s| ==> s[k] != 'v')
  }

  /** A `v=` parameter later in a watch URL's query is found by the second
      pattern when the first finds nothing; the greedy `.*` takes the
      rightmost `v=` of the line, and the id is the run after it. */
  lemma IdAfterWatchQuery(s: string, h: nat, q: nat, n: nat)
    requires WatchQueryAt(s, h, q) && RunAt(s, q + 2, n)
    ensures GetVideoId(s) == Ok(s[q + 2..q + 2 + n])
  {
    RunIs(s, q + 2, n);
    WatchCapture(s, h, q, n);
  }

  lemma WatchCapture(s: string, h: nat, q: nat, n: nat)
    requires WatchQueryAt(s, h, q) && q + 2 + n <= |s| && Run(s, q + 2) == n
    ensures GetVideoId(s) == Ok(s[q + 2..q + 2 + n])
  {
    WatchLeftmosts(s, h, q);
    CaptureSecond(s, h, q + 2, n);
  }

  lemma WatchLeftmosts(s: string, h: nat, q: nat)
    requires WatchQueryAt(s, h, q)
    ensures Leftmost(FirstOf(s), 0, |s|).None?
    ensures Leftmost(SecondOf(s), 0, |s|) == Some((h, q + 2))
  {
    NoFirstInWatch(s, h);
    SecondLeftmostAt(s, h, q);
  }

  /** The URL `canonicalVideoURL` builds from an id. */
  function CanonicalFor(id: string): (r: string)
    ensures Text.StartsWith(r, "https://www.youtube.com/watch?v=")
  {
    "https://www." + WatchPrefix + id
  }

  /** The canonical URL yields the id it was built from, so extracting from
      the canonical URL gives what extracting from the original gave. */
  lemma CanonicalRoundTrip(url: string)
    requires GetVideoId(url).Ok?
    ensures GetVideoId(CanonicalFor(GetVideoId(url).value)) == GetVideoId(url)
  {
    var id := GetVideoId(url).value;
    assert "https://www." + WatchPrefix + id + "" == CanonicalFor(id);
    IdAfterPrefix("https://www.", WatchPrefix, id, "");
  }
}
