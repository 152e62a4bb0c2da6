/**
 What SanitizeUserText leaves of a text, told by the escape sequences that the text is made of, without the automaton.
 */
module EscapeLaws {
  import opened Sanitizer

  /** The pieces of a text. bell tells whether a control string ends with BEL or with ESC and a backslash. */
  datatype Piece =
    | Rune(r: char)
    | ControlSequence(short: bool, params: string, final: char)
    | ControlString(intro: char, body: string, bell: bool)
    | CharsetChoice(side: char, r: char)
    | TwoRunes(r: char)

  function TextOf(p: Piece): string {
    match p
    case Rune(r) => [r]
    case ControlSequence(short, params, final) => (if short then "\U{9b}" else "\U{1b}[") + params + [final]
    case ControlString(intro, body, bell) => ['\U{1b}', intro] + body + (if bell then "\U{7}" else "\U{1b}\\")
    case CharsetChoice(side, r) => ['\U{1b}', side, r]
    case TwoRunes(r) => ['\U{1b}', r]
  }

  predicate NoFinal(s: string) { forall i :: 0 <= i < |s| ==> !('\U{40}' <= s[i] <= '\U{7e}') }

  /** Neither a BEL nor an ESC with a backslash. */
  predicate NoEnd(s: string) {
    && (forall i :: 0 <= i < |s| ==> s[i] != '\U{7}')
    && (forall i :: 0 <= i < |s| - 1 ==> !(s[i] == '\U{1b}' && s[i + 1] == '\\'))
  }

  predicate StringIntro(r: char) { r == ']' || r == 'P' || r == '^' || r == '_' }

  predicate Proper(p: Piece) {
    match p
    case Rune(r) => r != '\U{1b}' && r != '\U{9b}'
    case ControlSequence(_, params, final) => NoFinal(params) && '\U{40}' <= final <= '\U{7e}'
    case ControlString(intro, body, _) => StringIntro(intro) && NoEnd(body)
    case CharsetChoice(side, _) => side == '(' || side == ')'
    case TwoRunes(r) => r != '[' && !StringIntro(r) && r != '(' && r != ')'
  }

  /** The start of a sequence that the text does not finish, or nothing. */
  predicate Unfinished(s: string) {
    || s == "" || s == "\U{1b}" || s == "\U{1b}(" || s == "\U{1b})"
    || (s[0] == '\U{9b}' && NoFinal(s[1..]))
    || (|s| >= 2 && s[0] == '\U{1b}' && s[1] == '[' && NoFinal(s[2..]))
    || (|s| >= 2 && s[0] == '\U{1b}' && StringIntro(s[1]) && NoEnd(s[2..]))
  }

  /** All that is seen of a piece: a rune that is newline, tab or no control character. */
  function Visible(p: Piece): string {
    if p.Rune? && (p.r == '\n' || p.r == '\t' || !(p.r < '\U{20}' || '\U{7f}' <= p.r <= '\U{9f}')) then [p.r] else []
  }

  function TextOfAll(ps: seq<Piece>): string { if ps == [] then [] else TextOf(ps[0]) + TextOfAll(ps[1..]) }
  function VisibleOfAll(ps: seq<Piece>): string { if ps == [] then [] else Visible(ps[0]) + VisibleOfAll(ps[1..]) }
  predicate AllProper(ps: seq<Piece>) { forall i :: 0 <= i < |ps| ==> Proper(ps[i]) }

  // ----- one piece -----

  /** Reading s from q writes nothing and ends in q'. */
  ghost predicate Quiet(q: State, s: string, q': State) { Emit(q, s) == [] && Sanitizer.Run(q, s) == q' }

  lemma QuietConcat(q: State, s: string, q1: State, t: string, q2: State)
    requires Quiet(q, s, q1) && Quiet(q1, t, q2)
    ensures Quiet(q, s + t, q2)
  {
    EmitConcat(q, s, t);
  }

  lemma QuietOne(q: State, r: char)
    ensures Emit(q, [r]) == (if q.Ground? && Kept(r) then [r] else []) && Sanitizer.Run(q, [r]) == Next(q, r)
  {
    assert [r][1..] == [];
    assert (if q.Ground? && Kept(r) then [r] else []) + [] == if q.Ground? && Kept(r) then [r] else [];
  }

  lemma {:induction false} ParamsAreQuiet(s: string)
    requires NoFinal(s)
    ensures Quiet(Csi, s, Csi)
  {
    if s != [] { ParamsAreQuiet(s[1..]); }
  }

  lemma {:induction false} BodyIsQuiet(q: State, s: string)
    requires NoEnd(s) && (q == Str || (q == StrEscape && (s == [] || s[0] != '\\')))
    ensures Quiet(q, s, Sanitizer.Run(q, s)) && (Sanitizer.Run(q, s) == Str || Sanitizer.Run(q, s) == StrEscape)
    decreases s
  {
    if s != [] { BodyIsQuiet(Next(q, s[0]), s[1..]); }
  }

  lemma EndIsQuiet(q: State, bell: bool)
    requires q == Str || q == StrEscape
    ensures Quiet(q, if bell then "\U{7}" else "\U{1b}\\", Ground)
  {
    if bell {
      QuietOne(q, '\U{7}');
    } else {
      QuietOne(q, '\U{1b}');
      QuietOne(StrEscape, '\\');
      QuietConcat(q, "\U{1b}", StrEscape, "\\", Ground);
      assert "\U{1b}" + "\\" == "\U{1b}\\";
    }
  }

  /** ESC and the rune after it. */
  lemma EscIsQuiet(r: char)
    ensures Quiet(Ground, ['\U{1b}', r], Next(Escape, r)) && Quiet(Ground, "\U{1b}", Escape)
  {
    QuietOne(Ground, '\U{1b}');
    QuietOne(Escape, r);
    QuietConcat(Ground, "\U{1b}", Escape, [r], Next(Escape, r));
    assert "\U{1b}" + [r] == ['\U{1b}', r];
  }

  lemma SequenceStarts(short: bool, params: string)
    requires NoFinal(params)
    ensures Quiet(Ground, (if short then "\U{9b}" else "\U{1b}[") + params, Csi)
  {
    EscIsQuiet('[');
    QuietOne(Ground, '\U{9b}');
    ParamsAreQuiet(params);
    QuietConcat(Ground, if short then "\U{9b}" else "\U{1b}[", Csi, params, Csi);
  }

  lemma StringStarts(intro: char, body: string)
    requires StringIntro(intro) && NoEnd(body)
    ensures Quiet(Ground, ['\U{1b}', intro] + body, Sanitizer.Run(Str, body))
    ensures Sanitizer.Run(Str, body) == Str || Sanitizer.Run(Str, body) == StrEscape
  {
    EscIsQuiet(intro);
    BodyIsQuiet(Str, body);
    QuietConcat(Ground, ['\U{1b}', intro], Str, body, Sanitizer.Run(Str, body));
  }

  /** A piece leaves what is seen of it, and no sequence open. */
  lemma PieceStrips(p: Piece)
    requires Proper(p)
    ensures Strip(TextOf(p)) == Visible(p) && Sanitizer.Run(Ground, TextOf(p)) == Ground
  {
    match p
    case Rune(r) => QuietOne(Ground, r);
    case ControlSequence(short, params, final) =>
      SequenceStarts(short, params);
      QuietOne(Csi, final);
      QuietConcat(Ground, (if short then "\U{9b}" else "\U{1b}[") + params, Csi, [final], Ground);
    case ControlString(intro, body, bell) =>
      var q := Sanitizer.Run(Str, body);
      StringStarts(intro, body);
      EndIsQuiet(q, bell);
      QuietConcat(Ground, ['\U{1b}', intro] + body, q, if bell then "\U{7}" else "\U{1b}\\", Ground);
    case CharsetChoice(side, r) =>
      EscIsQuiet(side);
      QuietOne(Charset, r);
      QuietConcat(Ground, ['\U{1b}', side], Charset, [r], Ground);
      assert ['\U{1b}', side] + [r] == TextOf(p);
    case TwoRunes(r) => EscIsQuiet(r);
  }

  lemma UnfinishedIsQuiet(s: string)
    requires Unfinished(s)
    ensures Strip(s) == []
  {
    if s == "" {
    } else if s == "\U{1b}" {
      QuietOne(Ground, '\U{1b}');
    } else if s == "\U{1b}(" || s == "\U{1b})" {
      EscIsQuiet(s[1]);
    } else if s[0] == '\U{9b}' && NoFinal(s[1..]) {
      SequenceStarts(true, s[1..]);
      assert "\U{9b}" + s[1..] == s;
    } else if s[1] == '[' && NoFinal(s[2..]) {
      SequenceStarts(false, s[2..]);
      assert "\U{1b}[" + s[2..] == s;
    } else {
      StringStarts(s[1], s[2..]);
      assert ['\U{1b}', s[1]] + s[2..] == s;
    }
  }

  // ----- a whole text -----

  /** Of any text, however it is cut into pieces, stripping leaves what is seen of the pieces. */
  lemma {:induction false} PiecesStrip(ps: seq<Piece>, rest: string)
    requires AllProper(ps) && Unfinished(rest)
    ensures Strip(TextOfAll(ps) + rest) == VisibleOfAll(ps)
  {
    if ps == [] {
      assert [] + rest == rest;
      UnfinishedIsQuiet(rest);
    } else {
      var first, others := TextOf(ps[0]), TextOfAll(ps[1..]);
      PiecesStrip(ps[1..], rest);
      PieceStrips(ps[0]);
      EmitConcat(Ground, first, others + rest);
      Assoc(first, others, rest);
    }
  }

  /** The first final, if there is one. */
  lemma {:induction false} FirstFinal(s: string) returns (n: nat)
    ensures n <= |s| && NoFinal(s[..n]) && (n < |s| ==> '\U{40}' <= s[n] <= '\U{7e}')
  {
    if s == [] || '\U{40}' <= s[0] <= '\U{7e}' {
      n := 0;
    } else {
      n := FirstFinal(s[1..]);
      n := n + 1;
      assert s[..n] == [s[0]] + s[1..][..n - 1];
    }
  }

  /** The first end of a control string, if there is one. */
  lemma {:induction false} FirstEnd(s: string) returns (n: nat)
    ensures n <= |s| && NoEnd(s[..n])
    ensures n < |s| ==> s[n] == '\U{7}' || (n + 1 < |s| && s[n] == '\U{1b}' && s[n + 1] == '\\')
  {
    if s == [] || s[0] == '\U{7}' || (|s| > 1 && s[0] == '\U{1b}' && s[1] == '\\') {
      n := 0;
    } else {
      n := FirstEnd(s[1..]);
      n := n + 1;
      assert s[..n] == [s[0]] + s[1..][..n - 1];
    }
  }

  lemma FirstSequence(s: string, short: bool) returns (p: Piece)
    requires var head := if short then "\U{9b}" else "\U{1b}["; head <= s && !NoFinal(s[|head|..])
    ensures Proper(p) && TextOf(p) != [] && TextOf(p) <= s
  {
    var head := if short then "\U{9b}" else "\U{1b}[";
    var t := s[|head|..];
    var n := FirstFinal(t);
    assert t[..|t|] == t;
    p := ControlSequence(short, t[..n], t[n]);
    assert s[..|head| + n + 1] == head + t[..n] + [t[n]];
  }

  lemma FirstString(s: string) returns (p: Piece)
    requires |s| >= 2 && s[0] == '\U{1b}' && StringIntro(s[1]) && !NoEnd(s[2..])
    ensures Proper(p) && TextOf(p) != [] && TextOf(p) <= s
  {
    var t := s[2..];
    var n := FirstEnd(t);
    assert t[..|t|] == t;
    var bell := t[n] == '\U{7}';
    p := ControlString(s[1], t[..n], bell);
    assert s[..n + 2 + (if bell then 1 else 2)]
        == ['\U{1b}', s[1]] + t[..n] + (if bell then "\U{7}" else "\U{1b}\\");
  }

  /** The first piece of a text that is not the start of an unfinished one. */
  lemma FirstPiece(s: string) returns (p: Piece)
    requires !Unfinished(s)
    ensures Proper(p) && TextOf(p) != [] && TextOf(p) <= s
  {
    if s[0] == '\U{9b}' {
      p := FirstSequence(s, true);
    } else if s[0] != '\U{1b}' {
      p := Rune(s[0]);
    } else if s[1] == '[' {
      p := FirstSequence(s, false);
    } else if StringIntro(s[1]) {
      p := FirstString(s);
    } else if s[1] == '(' || s[1] == ')' {
      p := CharsetChoice(s[1], s[2]);
    } else {
      p := TwoRunes(s[1]);
    }
  }

  lemma TextOfCons(p: Piece, ps: seq<Piece>, rest: string)
    ensures TextOfAll([p] + ps) + rest == TextOf(p) + (TextOfAll(ps) + rest)
    ensures Proper(p) && AllProper(ps) ==> AllProper([p] + ps)
  {
    assert ([p] + ps)[1..] == ps;
    Assoc(TextOf(p), TextOfAll(ps), rest);
  }

  lemma {:induction false} Splits(s: string) returns (ps: seq<Piece>, rest: string)
    ensures AllProper(ps) && Unfinished(rest) && TextOfAll(ps) + rest == s
    decreases |s|
  {
    if Unfinished(s) {
      ps, rest := [], s;
      assert TextOfAll([]) + s == s;
    } else {
      var p := FirstPiece(s);
      var others;
      others, rest := Splits(s[|TextOf(p)|..]);
      TextOfCons(p, others, rest);
      ps := [p] + others;
    }
  }

  /** Newline, tab and blank. */
  predicate Blank(r: char) { r == '\n' || r == '\t' || r == ' ' }

  /**
   Any text is a run of whole escape sequences and single runes, and perhaps the start of a sequence. The sanitized
   text is what is seen of them, up to its last rune that is no blank.
   */
  lemma SanitizeExact(s: string) returns (ps: seq<Piece>, rest: string)
    ensures AllProper(ps) && Unfinished(rest) && TextOfAll(ps) + rest == s
    ensures Sanitize(s) <= VisibleOfAll(ps)
    ensures forall i :: |Sanitize(s)| <= i < |VisibleOfAll(ps)| ==> Blank(VisibleOfAll(ps)[i])
    ensures Sanitize(s) != [] ==> !Blank(Sanitize(s)[|Sanitize(s)| - 1])
  {
    ps, rest := Splits(s);
    PiecesStrip(ps, rest);
    TrimsBlanks(Strip(s));
  }
}
