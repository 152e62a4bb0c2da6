/** internal/domain/types.go: SanitizeUserText and its three skip helpers. */
module Sanitizer {
  import opened Prelude

  const ESC: char := '\U{1b}'
  const BEL: char := '\U{7}'
  const C1_CSI: char := '\U{9b}'

  /** Unicode category Cc: the C0 controls, DEL and the C1 controls. */
  predicate IsControl(r: char) { r < ' ' || '\U{7f}' <= r <= '\U{9f}' }

  predicate Kept(r: char) { r == '\n' || r == '\t' || !IsControl(r) }

  predicate Trimmed(r: char) { r == '\n' || r == '\t' || r == ' ' }

  // ----- the one-rune-at-a-time automaton (ECMA-48 sections 5.4 and 5.6) -----

  datatype State = Ground | Escape | Csi | Str | StrEscape | Charset

  function Next(q: State, r: char): State {
    match q
    case Ground => if r == ESC then Escape else if r == C1_CSI then Csi else Ground
    case Escape =>
      if r == '[' then Csi
      else if r == ']' || r == 'P' || r == '^' || r == '_' then Str
      else if r == '(' || r == ')' then Charset
      else Ground
    case Csi => if '@' <= r <= '~' then Ground else Csi
    case Str => if r == BEL then Ground else if r == ESC then StrEscape else Str
    case StrEscape => if r == BEL || r == '\\' then Ground else if r == ESC then StrEscape else Str
    case Charset => Ground
  }

  /** The state after reading s from q. */
  function Run(q: State, s: string): State
    decreases s
  {
    if s == [] then q else Run(Next(q, s[0]), s[1..])
  }

  /** What the automaton writes while reading s from q. */
  function Emit(q: State, s: string): string
    decreases s
  {
    if s == [] then []
    else (if q.Ground? && Kept(s[0]) then [s[0]] else []) + Emit(Next(q, s[0]), s[1..])
  }

  function Strip(s: string): string { Emit(Ground, s) }

  /** strings.TrimRight(s, "\n\t "). */
  function TrimRight(s: string): string {
    if s != [] && Trimmed(s[|s| - 1]) then TrimRight(s[..|s| - 1]) else s
  }

  function Sanitize(s: string): string { TrimRight(Strip(s)) }

  lemma EmitStep(q: State, s: string, i: nat)
    requires i < |s|
    ensures Emit(q, s[i..]) == (if q.Ground? && Kept(s[i]) then [s[i]] else []) + Emit(Next(q, s[i]), s[i + 1..])
  {
    assert s[i..][1..] == s[i + 1..];
  }

  /** Outside the ground state nothing is written. */
  lemma QuietStep(q: State, s: string, i: nat)
    requires i < |s| && !q.Ground?
    ensures Emit(q, s[i..]) == Emit(Next(q, s[i]), s[i + 1..])
  {
    EmitStep(q, s, i);
  }

  // ----- the index-jumping scanner -----

  method SkipControlSequence(runes: string, start: nat) returns (r: nat)
    requires 0 < start <= |runes|
    ensures start - 1 <= r < |runes|
    ensures Emit(Csi, runes[start..]) == Emit(Ground, runes[r + 1..])
  {
    var i := start;
    while i < |runes|
      invariant start <= i <= |runes|
      invariant Emit(Csi, runes[start..]) == Emit(Csi, runes[i..])
    {
      QuietStep(Csi, runes, i);
      if '@' <= runes[i] <= '~' { return i; }
      i := i + 1;
    }
    return |runes| - 1;
  }

  /** After an ESC, the two string states read all but a closing backslash alike. */
  lemma AfterEscInString(runes: string, i: nat)
    requires i <= |runes|
    ensures if i < |runes| && runes[i] == '\\' then Emit(StrEscape, runes[i..]) == Emit(Ground, runes[i + 1..])
            else Emit(StrEscape, runes[i..]) == Emit(Str, runes[i..])
  {
    if i < |runes| {
      QuietStep(StrEscape, runes, i);
      QuietStep(Str, runes, i);
    }
  }

  method SkipStringControl(runes: string, start: nat) returns (r: nat)
    requires 0 < start <= |runes|
    ensures start - 1 <= r < |runes|
    ensures Emit(Str, runes[start..]) == Emit(Ground, runes[r + 1..])
  {
    var i := start;
    while i < |runes|
      invariant start <= i <= |runes|
      invariant Emit(Str, runes[start..]) == Emit(Str, runes[i..])
    {
      QuietStep(Str, runes, i);
      if runes[i] == BEL { return i; }
      AfterEscInString(runes, i + 1);
      if runes[i] == ESC && i + 1 < |runes| && runes[i + 1] == '\\' { return i + 1; }
      i := i + 1;
    }
    return |runes| - 1;
  }

  /** The control-sequence case runs the same loop as skipControlSequence. */
  method SkipEscape(runes: string, at: nat) returns (r: nat)
    requires at < |runes|
    ensures at <= r < |runes|
    ensures Emit(Escape, runes[at + 1..]) == Emit(Ground, runes[r + 1..])
  {
    if at + 1 >= |runes| { return at; }
    var i := at + 1;
    QuietStep(Escape, runes, i);
    if runes[i] == '[' {
      r := SkipControlSequence(runes, i + 1);
    } else if runes[i] == ']' || runes[i] == 'P' || runes[i] == '^' || runes[i] == '_' {
      r := SkipStringControl(runes, i + 1);
    } else if runes[i] == '(' || runes[i] == ')' {
      if i + 1 < |runes| {
        QuietStep(Charset, runes, i + 1);
        return i + 1;
      }
      return i;
    } else {
      return i;
    }
  }

  lemma Assoc(a: string, b: string, c: string)
    ensures a + (b + c) == (a + b) + c && a + [] == a
  {
  }

  method SanitizeUserText(s: string) returns (out: string)
    ensures out == Sanitize(s) && out <= Strip(s)
    ensures forall i :: |out| <= i < |Strip(s)| ==> Strip(s)[i] == '\n' || Strip(s)[i] == '\t' || Strip(s)[i] == ' '
    ensures out != [] ==> out[|out| - 1] != '\n' && out[|out| - 1] != '\t' && out[|out| - 1] != ' '
  {
    out := [];
    var i := 0;
    while i < |s|
      invariant 0 <= i <= |s|
      invariant out + Strip(s[i..]) == Strip(s)
    {
      var r := s[i];
      EmitStep(Ground, s, i);
      Assoc(out, if Kept(r) then [r] else [], Emit(Next(Ground, r), s[i + 1..]));
      if r == ESC {
        i := SkipEscape(s, i);
      } else if r == C1_CSI {
        i := SkipControlSequence(s, i + 1);
      } else if '\U{80}' <= r <= '\U{9f}' {
      } else if r == '\n' || r == '\t' || !IsControl(r) {
        out := out + [r];
      }
      i := i + 1;
    }
    assert out + [] == out;
    TrimsBlanks(out);
    out := TrimRight(out);
  }

  /** Trailing newlines, tabs and blanks go, and nothing else. */
  lemma {:induction false} TrimsBlanks(s: string)
    ensures var t := TrimRight(s);
            && t <= s && (forall i :: |t| <= i < |s| ==> s[i] == '\n' || s[i] == '\t' || s[i] == ' ')
            && (t != [] ==> t[|t| - 1] != '\n' && t[|t| - 1] != '\t' && t[|t| - 1] != ' ')
  {
    if s != [] && Trimmed(s[|s| - 1]) { TrimsBlanks(s[..|s| - 1]); }
  }

  // ----- what the automaton guarantees -----

  lemma {:induction false} EmitConcat(q: State, a: string, b: string)
    ensures Emit(q, a + b) == Emit(q, a) + Emit(Run(q, a), b)
    ensures Run(q, a + b) == Run(Run(q, a), b)
    decreases a
  {
    if a == [] {
      assert a + b == b;
    } else {
      var q1, out := Next(q, a[0]), if q.Ground? && Kept(a[0]) then [a[0]] else [];
      assert (a + b)[1..] == a[1..] + b;
      EmitConcat(q1, a[1..], b);
      Assoc(out, Emit(q1, a[1..]), Emit(Run(q, a), b));
    }
  }

  /** Stripping a piece at a time is exact if and only if each piece leaves no sequence open. */
  lemma StripComposes(a: string)
    ensures Run(Ground, a) == Ground <==> forall b: string :: Strip(a + b) == Strip(a) + Strip(b)
  {
    forall b: string ensures Strip(a + b) == Strip(a) + Emit(Run(Ground, a), b) {
      EmitConcat(Ground, a, b);
    }
    if Run(Ground, a) != Ground {
      var b := "0";
      assert Strip(a + b) == Strip(a) + Emit(Run(Ground, a), b);
      assert Strip(b) == "0" && Emit(Run(Ground, a), b) == "";
    }
  }

  ghost predicate AllKept(s: string) { forall i :: 0 <= i < |s| ==> Kept(s[i]) }

  /** Text that the sanitizer has nothing to do on. */
  ghost predicate Clean(s: string) {
    AllKept(s) && (s == [] || !Trimmed(s[|s| - 1]))
  }

  lemma {:induction false} EmitKept(q: State, s: string)
    ensures AllKept(Emit(q, s)) && IsSubseq(Emit(q, s), s)
    decreases s
  {
    if s != [] {
      EmitKept(Next(q, s[0]), s[1..]);
      var rest := Emit(Next(q, s[0]), s[1..]);
      if q.Ground? && Kept(s[0]) {
        assert ([s[0]] + rest)[1..] == rest;
      } else {
        assert [] + rest == rest;
      }
    }
  }

  lemma {:induction false} KeptIsGround(s: string)
    requires AllKept(s)
    ensures Strip(s) == s && Run(Ground, s) == Ground
  {
    if s != [] {
      KeptIsGround(s[1..]);
      assert s == [s[0]] + s[1..];
    }
  }

  lemma {:induction false} TrimRightFacts(s: string, zs: string)
    requires AllKept(s) && IsSubseq(s, zs)
    ensures Clean(TrimRight(s)) && IsSubseq(TrimRight(s), zs)
  {
    if s != [] && Trimmed(s[|s| - 1]) {
      SubseqPrefix(s, zs);
      TrimRightFacts(s[..|s| - 1], zs);
    }
  }

  lemma {:induction false} SubseqPrefix(xs: string, zs: string)
    requires xs != [] && IsSubseq(xs, zs)
    ensures IsSubseq(xs[..|xs| - 1], zs)
  {
    if |xs| > 1 {
      if IsSubseq(xs, zs[1..]) {
        SubseqPrefix(xs, zs[1..]);
      } else {
        SubseqPrefix(xs[1..], zs[1..]);
        assert xs[..|xs| - 1][1..] == xs[1..][..|xs| - 2];
      }
    }
  }

  /** The result is a clean subsequence of the input. */
  lemma SanitizeIsClean(s: string)
    ensures Clean(Sanitize(s)) && IsSubseq(Sanitize(s), s)
  {
    EmitKept(Ground, s);
    TrimRightFacts(Strip(s), s);
  }

  /** Clean text, and only clean text, is a fixed point; so sanitizing twice is sanitizing once. */
  lemma SanitizeFixedPoints(s: string)
    ensures Sanitize(s) == s <==> Clean(s)
    ensures Sanitize(Sanitize(s)) == Sanitize(s)
  {
    SanitizeIsClean(s);
    if Clean(s) { KeptIsGround(s); }
    KeptIsGround(Sanitize(s));
  }
}
