/**
 Mention parsing (internal/store/store.go: ParseMentions) and mention highlighting
 (internal/tui/app.go: highlightMentions), on runes with ASCII case folding.
 */
module Mentions {
  import opened Prelude
  import opened Sanitizer

  function LowerChar(c: char): char {
    if 'A' <= c <= 'Z' then (c as int + 32) as char else c
  }

  /** strings.ToLower on ASCII. */
  function Lower(s: string): string {
    seq(|s|, i requires 0 <= i < |s| => LowerChar(s[i]))
  }

  predicate HandleChar(c: char) { 'a' <= c <= 'z' || '0' <= c <= '9' || c == '_' || c == '-' }

  const MIN_HANDLE := 3
  const MAX_HANDLE := 20

  // ----- the regular expression @([a-z0-9_-]{3,20}) -----

  /** The length the greedy [a-z0-9_-]{0,most} takes at position i. */
  function Greedy(s: string, i: nat, most: nat): (n: nat)
    requires i <= |s|
    ensures n <= most && i + n <= |s|
    decreases most
  {
    if most == 0 || i == |s| || !HandleChar(s[i]) then 0 else 1 + Greedy(s, i + 1, most - 1)
  }

  /** n is what the greedy match takes if and only if it is all handle characters and cannot grow. */
  lemma {:induction false} GreedyExact(s: string, i: nat, most: nat, n: nat)
    requires i + n <= |s|
    ensures Greedy(s, i, most) == n <==>
            n <= most && (forall k :: i <= k < i + n ==> HandleChar(s[k]))
            && (n == most || i + n == |s| || !HandleChar(s[i + n]))
    decreases most
  {
    if most > 0 && i < |s| && HandleChar(s[i]) && n > 0 {
      GreedyExact(s, i + 1, most - 1, n - 1);
    }
  }

  predicate MatchesAt(s: string, i: nat)
    requires i < |s|
  {
    s[i] == '@' && Greedy(s, i + 1, MAX_HANDLE) >= MIN_HANDLE
  }

  function HandleAt(s: string, i: nat): string
    requires i < |s|
  {
    s[i + 1..i + 1 + Greedy(s, i + 1, MAX_HANDLE)]
  }

  /** Leftmost, non-overlapping matches: the scan resumes after the text of a match. */
  function Scan(s: string, i: nat): (ps: seq<nat>)
    requires i <= |s|
    ensures forall k :: 0 <= k < |ps| ==> i <= ps[k] < |s|
    decreases |s| - i
  {
    if i == |s| then []
    else if MatchesAt(s, i) then [i] + Scan(s, i + 1 + Greedy(s, i + 1, MAX_HANDLE))
    else Scan(s, i + 1)
  }

  lemma {:induction false} ScanMatches(s: string, i: nat, k: nat)
    requires i <= |s| && k < |Scan(s, i)|
    ensures MatchesAt(s, Scan(s, i)[k])
    decreases |s| - i
  {
    if MatchesAt(s, i) {
      if k > 0 { ScanMatches(s, i + 1 + Greedy(s, i + 1, MAX_HANDLE), k - 1); }
    } else {
      ScanMatches(s, i + 1, k);
    }
  }

  lemma {:induction false} ScanIncreases(s: string, i: nat, k: nat, l: nat)
    requires i <= |s| && k < l < |Scan(s, i)|
    ensures Scan(s, i)[k] < Scan(s, i)[l]
    decreases |s| - i
  {
    if MatchesAt(s, i) {
      if k > 0 { ScanIncreases(s, i + 1 + Greedy(s, i + 1, MAX_HANDLE), k - 1, l - 1); }
    } else {
      ScanIncreases(s, i + 1, k, l);
    }
  }

  /** No match hides another: the scan finds every position the pattern matches at. */
  lemma {:induction false} ScanFindsAll(s: string, i: nat, p: nat) returns (k: nat)
    requires i <= p < |s| && MatchesAt(s, p)
    ensures k < |Scan(s, i)| && Scan(s, i)[k] == p
    decreases |s| - i
  {
    if p == i {
      k := 0;
    } else if MatchesAt(s, i) {
      AtOutsideHandle(s, i, p);
      k := ScanFindsAll(s, i + 1 + Greedy(s, i + 1, MAX_HANDLE), p);
      k := k + 1;
    } else {
      k := ScanFindsAll(s, i + 1, p);
    }
  }

  lemma AtOutsideHandle(s: string, i: nat, p: nat)
    requires i < p < |s| && s[p] == '@'
    ensures i + 1 + Greedy(s, i + 1, MAX_HANDLE) <= p
  {
    GreedyExact(s, i + 1, MAX_HANDLE, Greedy(s, i + 1, MAX_HANDLE));
    assert !HandleChar(s[p]);
  }

  /** FindAllStringSubmatch, keeping the captured handle. */
  function Handles(s: string): seq<string> {
    var ps := Scan(s, 0);
    seq(|ps|, k requires 0 <= k < |ps| => HandleAt(s, ps[k]))
  }

  /** Keep first occurrences. */
  function Dedup(hs: seq<string>): seq<string> {
    if hs == [] then []
    else
      var d := Dedup(hs[..|hs| - 1]);
      if hs[|hs| - 1] in d then d else d + [hs[|hs| - 1]]
  }

  lemma {:induction false} DedupNoDup(hs: seq<string>)
    ensures NoDup(Dedup(hs))
  {
    if hs != [] { DedupNoDup(hs[..|hs| - 1]); }
  }

  lemma {:induction false} DedupSame(hs: seq<string>, h: string)
    ensures h in Dedup(hs) <==> h in hs
  {
    if hs != [] {
      assert hs == hs[..|hs| - 1] + [hs[|hs| - 1]];
      DedupSame(hs[..|hs| - 1], h);
    }
  }

  function Mentioned(body: string): seq<string> { Dedup(Handles(Lower(body))) }

  method ParseMentions(body: string) returns (out: seq<string>)
    ensures out == Mentioned(body)
  {
    var matches := Handles(Lower(body));
    var seen: set<string> := {};
    out := [];
    for i := 0 to |matches|
      invariant out == Dedup(matches[..i])
      invariant seen == set h | h in out
    {
      assert matches[..i + 1][..i] == matches[..i];
      if matches[i] !in seen {
        seen := seen + {matches[i]};
        out := out + [matches[i]];
      }
    }
    assert matches[..|matches|] == matches;
  }

  // ----- what a mention is, without the scan -----

  /** An @ at p followed by the handle h, 3 to 20 characters long and as long as it can be. */
  ghost predicate MentionAt(s: string, p: nat, h: string) {
    && p + 1 + |h| <= |s| && s[p] == '@' && s[p + 1..p + 1 + |h|] == h
    && 3 <= |h| <= 20
    && (forall k :: p + 1 <= k < p + 1 + |h| ==> HandleChar(s[k]))
    && (|h| == 20 || p + 1 + |h| == |s| || !HandleChar(s[p + 1 + |h|]))
  }

  lemma MentionIsMatch(s: string, p: nat, h: string)
    ensures MentionAt(s, p, h) <==> p < |s| && MatchesAt(s, p) && HandleAt(s, p) == h
  {
    if p + 1 + |h| <= |s| {
      GreedyExact(s, p + 1, MAX_HANDLE, |h|);
    }
  }

  lemma HandlesAt(s: string, k: nat)
    requires k < |Scan(s, 0)|
    ensures MentionAt(s, Scan(s, 0)[k], Handles(s)[k])
  {
    ScanMatches(s, 0, k);
    MentionIsMatch(s, Scan(s, 0)[k], Handles(s)[k]);
  }

  lemma HandlesComplete(s: string, p: nat, h: string) returns (k: nat)
    requires MentionAt(s, p, h)
    ensures k < |Scan(s, 0)| && Scan(s, 0)[k] == p && Handles(s)[k] == h
  {
    MentionIsMatch(s, p, h);
    k := ScanFindsAll(s, 0, p);
  }

  /** The first index of x in xs. */
  ghost function FirstIndex(xs: seq<string>, x: string): (i: nat)
    requires x in xs
    ensures i < |xs| && xs[i] == x
  {
    if xs[0] == x then 0 else 1 + FirstIndex(xs[1..], x)
  }

  lemma {:induction false} FirstIndexFirst(xs: seq<string>, x: string, k: nat)
    requires x in xs && k < |xs| && xs[k] == x
    ensures FirstIndex(xs, x) <= k
  {
    if xs[0] != x { FirstIndexFirst(xs[1..], x, k - 1); }
  }

  lemma {:induction false} FirstIndexSnoc(xs: seq<string>, x: string, y: string)
    requires y in xs
    ensures FirstIndex(xs + [x], y) == FirstIndex(xs, y)
  {
    assert (xs + [x])[0] == xs[0];
    if xs[0] != y {
      assert (xs + [x])[1..] == xs[1..] + [x];
      FirstIndexSnoc(xs[1..], x, y);
    }
  }

  lemma {:induction false} FirstIndexNew(xs: seq<string>, x: string)
    requires x !in xs
    ensures FirstIndex(xs + [x], x) == |xs|
  {
    if xs != [] {
      assert (xs + [x])[1..] == xs[1..] + [x];
      FirstIndexNew(xs[1..], x);
    }
  }

  lemma {:induction false} DedupOrder(hs: seq<string>, a: nat, b: nat)
    requires a < b < |Dedup(hs)|
    ensures Dedup(hs)[a] in hs && Dedup(hs)[b] in hs
    ensures FirstIndex(hs, Dedup(hs)[a]) < FirstIndex(hs, Dedup(hs)[b])
  {
    var n := |hs| - 1;
    var d, last := Dedup(hs[..n]), hs[n];
    assert hs == hs[..n] + [last];
    DedupSame(hs[..n], d[a]);
    FirstIndexSnoc(hs[..n], last, d[a]);
    if b == |d| {
      DedupSame(hs[..n], last);
      FirstIndexNew(hs[..n], last);
    } else {
      DedupSame(hs[..n], d[b]);
      DedupOrder(hs[..n], a, b);
      FirstIndexSnoc(hs[..n], last, d[b]);
    }
  }

  /** The handles returned are exactly the mentioned ones, without duplicates. */
  lemma ParseMentionsExact(body: string)
    ensures NoDup(Mentioned(body))
    ensures forall h :: h in Mentioned(body) <==> exists p: nat :: MentionAt(Lower(body), p, h)
  {
    var s := Lower(body);
    DedupNoDup(Handles(s));
    forall h ensures h in Mentioned(body) <==> exists p: nat :: MentionAt(s, p, h) {
      DedupSame(Handles(s), h);
      if h in Handles(s) {
        var k :| 0 <= k < |Handles(s)| && Handles(s)[k] == h;
        HandlesAt(s, k);
      }
      if p: nat :| MentionAt(s, p, h) {
        var k := HandlesComplete(s, p, h);
      }
    }
  }

  /** They come in the order of first appearance: every later handle's mentions are preceded. */
  lemma ParseMentionsOrder(body: string, a: nat, b: nat, q: nat) returns (p: nat)
    requires a < b < |Mentioned(body)| && MentionAt(Lower(body), q, Mentioned(body)[b])
    ensures p < q && MentionAt(Lower(body), p, Mentioned(body)[a])
  {
    var s := Lower(body);
    var hs := Handles(s);
    DedupSame(hs, Dedup(hs)[a]);
    DedupSame(hs, Dedup(hs)[b]);
    DedupOrder(hs, a, b);
    var i, j := FirstIndex(hs, Dedup(hs)[a]), FirstIndex(hs, Dedup(hs)[b]);
    var k := HandlesComplete(s, q, Dedup(hs)[b]);
    FirstIndexFirst(hs, Dedup(hs)[b], k);
    HandlesAt(s, i);
    ScanIncreases(s, 0, i, k);
    p := Scan(s, 0)[i];
  }

  // ----- highlighting -----

  /** What lipgloss writes before and after the text of a style. */
  datatype Style = Style(open: string, close: string)

  /** strings.Index(lower[idx:], needle), as a position in lower. */
  function IndexFrom(lower: string, idx: nat, needle: string): (i: int)
    requires idx <= |lower|
    ensures i == -1 || (idx <= i && i + |needle| <= |lower|)
    decreases |lower| - idx
  {
    if idx + |needle| > |lower| then -1
    else if lower[idx..idx + |needle|] == needle then idx
    else if idx == |lower| then -1
    else IndexFrom(lower, idx + 1, needle)
  }

  /** The text up to the match at i, and the match between the marks of the style. */
  function Marked(out: string, idx: nat, i: nat, end: nat, st: Style): string
    requires idx <= i <= end <= |out|
  {
    out[idx..i] + (st.open + out[i..end] + st.close)
  }

  /** out from idx on, with marks around the n characters at each of the positions. */
  function MarkedAt(out: string, idx: nat, ps: seq<nat>, n: nat, st: Style): string
    decreases |ps|
  {
    if idx > |out| then []
    else if ps == [] || !(idx <= ps[0] <= |out| - n) then out[idx..]
    else Marked(out, idx, ps[0], ps[0] + n, st) + MarkedAt(out, ps[0] + n, ps[1..], n, st)
  }

  lemma MarkedAtOne(out: string, idx: nat, i: nat, rest: seq<nat>, n: nat, st: Style)
    requires idx <= i && i + n <= |out|
    ensures MarkedAt(out, idx, [i] + rest, n, st) == Marked(out, idx, i, i + n, st) + MarkedAt(out, i + n, rest, n, st)
  {
    assert ([i] + rest)[1..] == rest;
  }

  /** Wrap every occurrence of needle in lower at or after idx; lower is out in lower case. */
  function Wrap(out: string, lower: string, needle: string, st: Style, idx: nat): string
    requires idx <= |out| == |lower| && needle != []
    decreases |out| - idx
  {
    var i := IndexFrom(lower, idx, needle);
    if i == -1 then out[idx..]
    else Marked(out, idx, i, i + |needle|, st) + Wrap(out, lower, needle, st, i + |needle|)
  }

  function WrapAll(out: string, hs: seq<string>, self: string, mention: Style, accent: Style): string {
    if hs == [] then out
    else
      var before, h := WrapAll(out, hs[..|hs| - 1], self, mention, accent), hs[|hs| - 1];
      Wrap(before, Lower(before), "@" + h, if Lower(h) == Lower(self) then mention else accent, 0)
  }

  /** One turn of the loop: the text to write, and where to go on unless it is the last. */
  method NextPiece(out: string, lower: string, needle: string, st: Style, idx: nat)
      returns (piece: string, last: bool, next: nat)
    requires idx <= |out| == |lower| && needle != []
    ensures idx <= next <= |out|
    ensures if last then Wrap(out, lower, needle, st, idx) == piece
            else idx < next && Wrap(out, lower, needle, st, idx) == piece + Wrap(out, lower, needle, st, next)
  {
    var abs := IndexFrom(lower, idx, needle);
    if abs == -1 {
      return out[idx..], true, idx;
    }
    next := abs + |needle|;
    return Marked(out, idx, abs, next, st), false, next;
  }

  /** The inner loop of highlightMentions. */
  method WrapOccurrences(out: string, needle: string, st: Style) returns (sb: string)
    requires needle != []
    ensures sb == Wrap(out, Lower(out), needle, st, 0)
  {
    var lower := Lower(out);
    sb := WrapIn(out, lower, needle, st);
  }

  method WrapIn(out: string, lower: string, needle: string, st: Style) returns (sb: string)
    requires |out| == |lower| && needle != []
    ensures sb == Wrap(out, lower, needle, st, 0)
  {
    var idx, last, piece := 0, false, "";
    sb := "";
    while !last
      invariant idx <= |out|
      invariant sb + (if last then [] else Wrap(out, lower, needle, st, idx)) == Wrap(out, lower, needle, st, 0)
      decreases if last then 0 else 1, |out| - idx
    {
      piece, last, idx := NextPiece(out, lower, needle, st, idx);
      Assoc(sb, piece, if last then [] else Wrap(out, lower, needle, st, idx));
      sb := sb + piece;
    }
  }

  method HighlightMentions(body: string, self: string, mention: Style, accent: Style) returns (out: string)
    ensures out == WrapAll(body, Mentioned(body), self, mention, accent)
  {
    var matches := ParseMentions(body);
    out := body;
    for k := 0 to |matches|
      invariant out == WrapAll(body, matches[..k], self, mention, accent)
    {
      assert matches[..k + 1][..k] == matches[..k];
      var h := matches[k];
      out := WrapOccurrences(out, "@" + h, if Lower(h) == Lower(self) then mention else accent);
    }
    assert matches[..|matches|] == matches;
  }

  // ----- what is highlighted -----

  predicate OccursAt(lower: string, needle: string, j: nat) {
    j + |needle| <= |lower| && lower[j..j + |needle|] == needle
  }

  ghost predicate NoneIn(lower: string, needle: string, from: nat, to: nat) {
    forall j: nat :: from <= j < to ==> !OccursAt(lower, needle, j)
  }

  /** i is where the needle first occurs from idx on. */
  ghost predicate FirstAt(lower: string, needle: string, idx: nat, i: nat) {
    idx <= i && OccursAt(lower, needle, i) && NoneIn(lower, needle, idx, i)
  }

  /** ps are the leftmost, non-overlapping occurrences from idx on, and there is none besides. */
  ghost predicate Leftmost(lower: string, needle: string, idx: nat, ps: seq<nat>)
    decreases |ps|
  {
    if ps == [] then NoneIn(lower, needle, idx, |lower| + 1)
    else
      FirstAt(lower, needle, idx, ps[0]) && Leftmost(lower, needle, ps[0] + |needle|, ps[1..])
  }

  lemma {:induction false} FoundFirst(lower: string, idx: nat, needle: string)
    requires idx <= |lower| && needle != []
    ensures var i := IndexFrom(lower, idx, needle);
            if i == -1 then NoneIn(lower, needle, idx, |lower| + 1)
            else FirstAt(lower, needle, idx, i)
    decreases |lower| - idx
  {
    if idx + |needle| <= |lower| && lower[idx..idx + |needle|] != needle { FoundFirst(lower, idx + 1, needle); }
  }

  lemma LeftmostCons(lower: string, needle: string, idx: nat, i: nat, rest: seq<nat>)
    requires FirstAt(lower, needle, idx, i)
    requires Leftmost(lower, needle, i + |needle|, rest)
    ensures Leftmost(lower, needle, idx, [i] + rest)
  {
    assert ([i] + rest)[1..] == rest;
  }

  /** w is out from idx on with marks around the leftmost, non-overlapping occurrences ps, and nothing else. */
  ghost predicate IsMarked(out: string, lower: string, needle: string, st: Style, idx: nat, ps: seq<nat>, w: string) {
    Leftmost(lower, needle, idx, ps) && w == MarkedAt(out, idx, ps, |needle|, st)
  }

  lemma NoneMarked(out: string, lower: string, needle: string, st: Style, idx: nat)
    requires idx <= |out| == |lower| && needle != [] && IndexFrom(lower, idx, needle) == -1
    ensures IsMarked(out, lower, needle, st, idx, [], Wrap(out, lower, needle, st, idx))
  {
    FoundFirst(lower, idx, needle);
  }

  lemma OneMarked(out: string, lower: string, needle: string, st: Style, idx: nat, i: nat, ps: seq<nat>, w: string)
    requires idx <= i && i + |needle| <= |out| == |lower| && FirstAt(lower, needle, idx, i)
    requires IsMarked(out, lower, needle, st, i + |needle|, ps, w)
    ensures IsMarked(out, lower, needle, st, idx, [i] + ps, Marked(out, idx, i, i + |needle|, st) + w)
  {
    LeftmostCons(lower, needle, idx, i, ps);
    MarkedAtOne(out, idx, i, ps, |needle|, st);
  }

  lemma WrapStep(out: string, lower: string, needle: string, st: Style, idx: nat, i: nat)
    requires idx <= i && i + |needle| <= |out| == |lower| && needle != [] && IndexFrom(lower, idx, needle) == i
    ensures Wrap(out, lower, needle, st, idx)
         == Marked(out, idx, i, i + |needle|, st) + Wrap(out, lower, needle, st, i + |needle|)
  {
  }

  lemma FirstMarked(out: string, lower: string, needle: string, st: Style, idx: nat, i: nat, ps: seq<nat>)
    requires idx <= i && i + |needle| <= |out| == |lower| && needle != [] && IndexFrom(lower, idx, needle) == i
    requires FirstAt(lower, needle, idx, i)
    requires IsMarked(out, lower, needle, st, i + |needle|, ps, Wrap(out, lower, needle, st, i + |needle|))
    ensures IsMarked(out, lower, needle, st, idx, [i] + ps, Wrap(out, lower, needle, st, idx))
  {
    WrapStep(out, lower, needle, st, idx, i);
    OneMarked(out, lower, needle, st, idx, i, ps, Wrap(out, lower, needle, st, i + |needle|));
  }

  lemma {:induction false} WrapIsMarked(out: string, lower: string, needle: string, st: Style, idx: nat)
    returns (ps: seq<nat>)
    requires idx <= |out| == |lower| && needle != []
    ensures IsMarked(out, lower, needle, st, idx, ps, Wrap(out, lower, needle, st, idx))
    decreases |out| - idx
  {
    var i := IndexFrom(lower, idx, needle);
    if i == -1 {
      NoneMarked(out, lower, needle, st, idx);
      return [];
    }
    FoundFirst(lower, idx, needle);
    var rest := WrapIsMarked(out, lower, needle, st, i + |needle|);
    FirstMarked(out, lower, needle, st, idx, i, rest);
    return [i] + rest;
  }

  /** The inner loop marks the leftmost, non-overlapping occurrences, and nothing else. */
  lemma WrapMarksLeftmost(out: string, lower: string, needle: string, st: Style) returns (ps: seq<nat>)
    requires |out| == |lower| && needle != []
    ensures Leftmost(lower, needle, 0, ps) && Wrap(out, lower, needle, st, 0) == MarkedAt(out, 0, ps, |needle|, st)
  {
    ps := WrapIsMarked(out, lower, needle, st, 0);
  }

  // ----- the marks and their styles -----

  /** Around each occurrence stand the two marks of the style; the text between the occurrences is as it was. */
  lemma MarksStand(out: string, idx: nat, ps: seq<nat>, n: nat, st: Style)
    requires idx <= |out| && (ps != [] ==> idx <= ps[0] && ps[0] + n <= |out|)
    ensures MarkedAt(out, idx, ps, n, st)
         == if ps == [] then out[idx..]
            else out[idx..ps[0]] + st.open + out[ps[0]..ps[0] + n] + st.close + MarkedAt(out, ps[0] + n, ps[1..], n, st)
  {
    if ps != [] {
      var before, word := out[idx..ps[0]], out[ps[0]..ps[0] + n];
      assert before + (st.open + word + st.close) == before + st.open + word + st.close;
    }
  }

  lemma WrapAllStep(body: string, hs: seq<string>, self: string, mention: Style, accent: Style, k: nat)
    requires k < |hs|
    ensures var out := WrapAll(body, hs[..k], self, mention, accent);
            WrapAll(body, hs[..k + 1], self, mention, accent)
            == Wrap(out, Lower(out), "@" + hs[k], if Lower(hs[k]) == Lower(self) then mention else accent, 0)
  {
    assert hs[..k + 1][..k] == hs[..k];
  }

  /**
   Handle by handle: the leftmost occurrences of its mention, in what the handles before it left, get the reader's
   style if it is the reader's handle, without case, and the other style if not.
   */
  lemma HandleGetsStyle(body: string, hs: seq<string>, self: string, mention: Style, accent: Style, k: nat)
    returns (ps: seq<nat>)
    requires k < |hs|
    ensures var out := WrapAll(body, hs[..k], self, mention, accent);
            var st := if Lower(hs[k]) == Lower(self) then mention else accent;
            && Leftmost(Lower(out), "@" + hs[k], 0, ps)
            && WrapAll(body, hs[..k + 1], self, mention, accent) == MarkedAt(out, 0, ps, |hs[k]| + 1, st)
  {
    var out := WrapAll(body, hs[..k], self, mention, accent);
    WrapAllStep(body, hs, self, mention, accent, k);
    ps := WrapMarksLeftmost(out, Lower(out), "@" + hs[k], if Lower(hs[k]) == Lower(self) then mention else accent);
  }

  /**
   A body that does not mention the reader shows nothing of the reader's style, and one that mentions nobody else
   nothing of the other.
   */
  lemma {:induction false} StylesApart(body: string, hs: seq<string>, self: string, mention: Style, accent: Style,
                                       other: Style)
    ensures (forall h :: h in hs ==> Lower(h) != Lower(self)) ==>
              WrapAll(body, hs, self, other, accent) == WrapAll(body, hs, self, mention, accent)
    ensures (forall h :: h in hs ==> Lower(h) == Lower(self)) ==>
              WrapAll(body, hs, self, mention, other) == WrapAll(body, hs, self, mention, accent)
  {
    if hs != [] {
      StylesApart(body, hs[..|hs| - 1], self, mention, accent, other);
      assert hs[|hs| - 1] in hs;
    }
  }

  // ----- highlighting preserves the text -----

  /** A mark that the terminal, like the sanitizer's automaton, reads as control sequences only. */
  ghost predicate Erasable(mark: string) {
    Strip(mark) == "" && Run(Ground, mark) == Ground && AtOnlyInGround(Ground, mark)
  }

  /** Every @ of s is read in the ground state. */
  ghost predicate AtOnlyInGround(q: State, s: string)
    decreases s
  {
    s == [] || ((s[0] == '@' ==> q == Ground) && AtOnlyInGround(Next(q, s[0]), s[1..]))
  }

  lemma {:induction false} AtConcat(q: State, a: string, b: string)
    ensures AtOnlyInGround(q, a + b) <==> AtOnlyInGround(q, a) && AtOnlyInGround(Run(q, a), b)
    decreases a
  {
    if a == [] {
      assert a + b == b;
    } else {
      assert (a + b)[1..] == a[1..] + b;
      AtConcat(Next(q, a[0]), a[1..], b);
    }
  }

  /** t reads like s: same visible text, same final state, and @ still only in the ground state. */
  ghost predicate ReadsLike(q: State, t: string, s: string) {
    Emit(q, t) == Emit(q, s) && Run(q, t) == Run(q, s) && AtOnlyInGround(q, t)
  }

  lemma ReadsLikeConcat(q: State, a: string, t: string, s: string)
    requires AtOnlyInGround(q, a) && ReadsLike(Run(q, a), t, s)
    ensures ReadsLike(q, a + t, a + s)
  {
    EmitConcat(q, a, t);
    EmitConcat(q, a, s);
    AtConcat(q, a, t);
  }

  lemma {:induction false} KeptHasAtInGround(s: string)
    requires AllKept(s)
    ensures AtOnlyInGround(Ground, s)
  {
    if s != [] { KeptHasAtInGround(s[1..]); }
  }

  lemma MarksVanish(st: Style, word: string, t: string, s: string)
    requires Erasable(st.open) && Erasable(st.close) && AllKept(word) && ReadsLike(Ground, t, s)
    ensures ReadsLike(Ground, (st.open + word + st.close) + t, word + s)
  {
    KeptIsGround(word);
    KeptHasAtInGround(word);
    ReadsLikeConcat(Ground, word, t, s);
    EmitConcat(Ground, st.open + word, st.close);
    EmitConcat(Ground, st.open, word);
    AtConcat(Ground, st.open + word, st.close);
    AtConcat(Ground, st.open, word);
    var w := st.open + word + st.close;
    EmitConcat(Ground, w, t);
    AtConcat(Ground, w, t);
    EmitConcat(Ground, word, s);
    EmitConcat(Ground, word, t);
    assert Strip(w) == word;
  }

  /** What highlightMentions looks for: an @ and a handle. */
  ghost predicate IsNeedle(needle: string) {
    needle != [] && needle[0] == '@' && forall k :: 0 <= k < |needle| ==> needle[k] == '@' || HandleChar(needle[k])
  }

  lemma MatchIsKept(out: string, lower: string, i: nat, needle: string)
    requires IsNeedle(needle) && lower == Lower(out) && OccursAt(lower, needle, i)
    ensures AllKept(out[i..i + |needle|]) && out[i] == '@'
  {
    assert LowerChar(out[i]) == lower[i..i + |needle|][0];
    var word := out[i..i + |needle|];
    forall k | 0 <= k < |word| ensures Kept(word[k]) {
      assert LowerChar(word[k]) == lower[i..i + |needle|][k] == needle[k];
    }
  }

  /** Wherever lower has the needle, out has kept characters and an @ first. */
  ghost predicate NeedlesKept(out: string, lower: string, needle: string) {
    && |out| == |lower| && needle != []
    && forall i: nat :: OccursAt(lower, needle, i) ==> AllKept(out[i..i + |needle|]) && out[i] == '@'
  }

  lemma LowerNeedlesKept(out: string, needle: string)
    requires IsNeedle(needle)
    ensures NeedlesKept(out, Lower(out), needle)
  {
    forall i: nat | OccursAt(Lower(out), needle, i) ensures AllKept(out[i..i + |needle|]) && out[i] == '@' {
      MatchIsKept(out, Lower(out), i, needle);
    }
  }

  /** An @ inside text that keeps them in the ground state begins, and its word ends, in ground. */
  lemma WordIsInGround(q: State, before: string, word: string, after: string)
    requires AtOnlyInGround(q, before + (word + after)) && AllKept(word) && word != [] && word[0] == '@'
    ensures AtOnlyInGround(q, before) && Run(q, before) == Ground && AtOnlyInGround(Ground, after)
  {
    AtConcat(q, before, word + after);
    assert (word + after)[0] == '@';
    AtConcat(Ground, word, after);
    KeptIsGround(word);
  }

  lemma WordReadsLike(q: State, before: string, word: string, after: string, st: Style, rest: string)
    requires AtOnlyInGround(q, before) && Run(q, before) == Ground && AllKept(word)
    requires Erasable(st.open) && Erasable(st.close) && ReadsLike(Ground, rest, after)
    ensures ReadsLike(q, before + (st.open + word + st.close) + rest, before + (word + after))
  {
    MarksVanish(st, word, rest, after);
    ReadsLikeConcat(q, before, (st.open + word + st.close) + rest, word + after);
    Assoc(before, st.open + word + st.close, rest);
  }

  lemma SplitAt(s: string, a: nat, b: nat, c: nat)
    requires a <= b <= c <= |s|
    ensures s[a..] == s[a..b] + (s[b..c] + s[c..])
  {
  }

  lemma AfterMatchInGround(q: State, out: string, idx: nat, i: nat, end: nat)
    requires idx <= i < end <= |out| && AllKept(out[i..end]) && out[i] == '@' && AtOnlyInGround(q, out[idx..])
    ensures AtOnlyInGround(q, out[idx..i]) && Run(q, out[idx..i]) == Ground && AtOnlyInGround(Ground, out[end..])
  {
    SplitAt(out, idx, i, end);
    WordIsInGround(q, out[idx..i], out[i..end], out[end..]);
  }

  lemma MarkedReadsLike(q: State, out: string, idx: nat, i: nat, end: nat, st: Style, rest: string)
    requires idx <= i <= end <= |out| && AllKept(out[i..end])
    requires AtOnlyInGround(q, out[idx..i]) && Run(q, out[idx..i]) == Ground
    requires Erasable(st.open) && Erasable(st.close) && ReadsLike(Ground, rest, out[end..])
    ensures ReadsLike(q, Marked(out, idx, i, end, st) + rest, out[idx..])
  {
    SplitAt(out, idx, i, end);
    WordReadsLike(q, out[idx..i], out[i..end], out[end..], st, rest);
  }

  /** Each of the positions, one after the other from idx on, has n kept characters and an @ first. */
  ghost predicate KeptWords(out: string, idx: nat, ps: seq<nat>, n: nat)
    decreases |ps|
  {
    ps == [] ||
      (&& idx <= ps[0] < ps[0] + n <= |out| && AllKept(out[ps[0]..ps[0] + n]) && out[ps[0]] == '@'
       && KeptWords(out, ps[0] + n, ps[1..], n))
  }

  lemma {:induction false} LeftmostAreKept(out: string, lower: string, needle: string, idx: nat, ps: seq<nat>)
    requires NeedlesKept(out, lower, needle) && Leftmost(lower, needle, idx, ps)
    ensures KeptWords(out, idx, ps, |needle|)
    decreases |ps|
  {
    if ps != [] {
      LeftmostAreKept(out, lower, needle, ps[0] + |needle|, ps[1..]);
    }
  }

  lemma {:induction false} MarkedAtReadsLike(out: string, idx: nat, ps: seq<nat>, n: nat, st: Style, q: State)
    requires idx <= |out| && KeptWords(out, idx, ps, n) && AtOnlyInGround(q, out[idx..])
    requires Erasable(st.open) && Erasable(st.close)
    ensures ReadsLike(q, MarkedAt(out, idx, ps, n, st), out[idx..])
    decreases |ps|
  {
    if ps != [] {
      AfterMatchInGround(q, out, idx, ps[0], ps[0] + n);
      MarkedAtReadsLike(out, ps[0] + n, ps[1..], n, st, Ground);
      MarkedReadsLike(q, out, idx, ps[0], ps[0] + n, st, MarkedAt(out, ps[0] + n, ps[1..], n, st));
    }
  }

  lemma WrapReadsLike(out: string, lower: string, needle: string, st: Style, idx: nat, q: State)
    requires NeedlesKept(out, lower, needle) && idx <= |out|
    requires Erasable(st.open) && Erasable(st.close) && AtOnlyInGround(q, out[idx..])
    ensures ReadsLike(q, Wrap(out, lower, needle, st, idx), out[idx..])
  {
    var ps := WrapIsMarked(out, lower, needle, st, idx);
    LeftmostAreKept(out, lower, needle, idx, ps);
    MarkedAtReadsLike(out, idx, ps, |needle|, st, q);
  }

  lemma {:induction false} WrapAllReadsLike(body: string, hs: seq<string>, self: string, mention: Style, accent: Style)
    requires AllKept(body)
    requires forall j, k :: 0 <= j < |hs| && 0 <= k < |hs[j]| ==> HandleChar(hs[j][k])
    requires Erasable(mention.open) && Erasable(mention.close) && Erasable(accent.open) && Erasable(accent.close)
    ensures ReadsLike(Ground, WrapAll(body, hs, self, mention, accent), body)
  {
    if hs == [] {
      KeptHasAtInGround(body);
    } else {
      var n := |hs| - 1;
      WrapAllReadsLike(body, hs[..n], self, mention, accent);
      var out := WrapAll(body, hs[..n], self, mention, accent);
      assert out[0..] == out;
      LowerNeedlesKept(out, "@" + hs[n]);
      WrapReadsLike(out, Lower(out), "@" + hs[n], if Lower(hs[n]) == Lower(self) then mention else accent, 0, Ground);
    }
  }

  /**
   Whatever the styles write, erasing control sequences from the highlighted body gives the
   body back, also when one mentioned handle is a prefix of another.
   */
  lemma HighlightPreservesText(body: string, self: string, mention: Style, accent: Style)
    requires AllKept(body)
    requires Erasable(mention.open) && Erasable(mention.close) && Erasable(accent.open) && Erasable(accent.close)
    ensures Strip(WrapAll(body, Mentioned(body), self, mention, accent)) == body
  {
    ParseMentionsExact(body);
    var hs := Mentioned(body);
    forall j, k | 0 <= j < |hs| && 0 <= k < |hs[j]| ensures HandleChar(hs[j][k]) {
      assert hs[j] in hs;
      var p: nat :| MentionAt(Lower(body), p, hs[j]);
      assert Lower(body)[p + 1..p + 1 + |hs[j]|][k] == Lower(body)[p + 1 + k];
    }
    WrapAllReadsLike(body, hs, self, mention, accent);
    KeptIsGround(body);
  }
}
