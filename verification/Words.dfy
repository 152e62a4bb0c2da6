/** What a term of the search index is (the tokenizer of messages_fts, on ASCII letters and digits). */
module WordLaws {
  import opened Mentions
  import opened Database

  predicate LetterOrDigit(c: char) { 'a' <= c <= 'z' || 'A' <= c <= 'Z' || '0' <= c <= '9' }

  /** The text from i to j is a word: letters and digits only, and neither neighbour is one. */
  ghost predicate WordAt(s: string, i: nat, j: nat) {
    && i < j <= |s| && (forall k :: i <= k < j ==> LetterOrDigit(s[k]))
    && (i > 0 ==> !LetterOrDigit(s[i - 1])) && (j < |s| ==> !LetterOrDigit(s[j]))
  }

  ghost predicate WordIs(s: string, i: nat, j: nat, t: string) { WordAt(s, i, j) && Lower(s[i..j]) == t }

  ghost predicate HasWordFrom(s: string, from: nat, t: string) {
    exists i: nat, j: nat :: from <= i && WordIs(s, i, j, t)
  }

  /** t is a word of s, without case. */
  ghost predicate HasWord(s: string, t: string) { exists i: nat, j: nat :: WordIs(s, i, j, t) }

  /** The text from start to i is all letters and digits, and nothing before start goes on into it. */
  ghost predicate Reading(s: string, start: nat, i: nat) {
    && start <= i <= |s| && (forall k :: start <= k < i ==> LetterOrDigit(s[k]))
    && (start > 0 ==> !LetterOrDigit(s[start - 1]))
  }

  lemma SameWord(s: string, start: nat, i: nat, a: nat, b: nat)
    requires Reading(s, start, i) && (i < |s| ==> !LetterOrDigit(s[i])) && start <= a <= i && WordAt(s, a, b)
    ensures a == start && b == i
  {
  }

  /** At the end of what was read, the words from start on are what was read, if anything, and those after it. */
  lemma WordsSplit(s: string, start: nat, i: nat, t: string)
    requires Reading(s, start, i) && (i < |s| ==> !LetterOrDigit(s[i]))
    ensures HasWordFrom(s, start, t) <==> (start < i && Lower(s[start..i]) == t) || HasWordFrom(s, i + 1, t)
  {
    if a: nat, b: nat :| start <= a && WordIs(s, a, b, t) {
      if a <= i {
        SameWord(s, start, i, a, b);
      } else {
        assert i + 1 <= a && WordIs(s, a, b, t);
      }
    }
    if start < i && Lower(s[start..i]) == t { assert start <= start && WordIs(s, start, i, t); }
    if a: nat, b: nat :| i + 1 <= a && WordIs(s, a, b, t) { assert start <= a && WordIs(s, a, b, t); }
  }

  lemma LowerSnoc(s: string, start: nat, i: nat)
    requires start <= i < |s|
    ensures Lower(s[start..i + 1]) == Lower(s[start..i]) + [LowerChar(s[i])]
    ensures s[i..][1..] == s[i + 1..] && s[i..][0] == s[i]
  {
  }

  lemma NoWordFromEnd(s: string, from: nat, t: string)
    requires from >= |s|
    ensures !HasWordFrom(s, from, t)
  {
  }

  lemma {:induction false} TermsFromExact(s: string, start: nat, i: nat, t: string)
    requires Reading(s, start, i)
    ensures t in TermsFrom(s[i..], Lower(s[start..i])) <==> HasWordFrom(s, start, t)
    decreases |s| - i
  {
    if i < |s| {
      LowerSnoc(s, start, i);
      if LetterOrDigit(s[i]) {
        TermsFromExact(s, start, i + 1, t);
      } else {
        WordsSplit(s, start, i, t);
        TermsFromExact(s, i + 1, i + 1, t);
        assert Lower(s[i + 1..i + 1]) == [];
      }
    } else {
      WordsSplit(s, start, i, t);
      NoWordFromEnd(s, i + 1, t);
    }
  }

  /** The terms of a text are exactly its words, without case. */
  lemma TermsAreWords(body: string, t: string)
    ensures t in Terms(body) <==> HasWord(body, t)
  {
    TermsFromExact(body, 0, 0, t);
    assert body[0..] == body && Lower(body[0..0]) == [];
    if HasWord(body, t) {
      var i: nat, j: nat :| WordIs(body, i, j, t);
      assert 0 <= i && WordIs(body, i, j, t);
    }
  }

  /** What a query asks of a text. */
  ghost predicate Asks(body: string, q: Query) {
    match q
    case Term(t) => HasWord(body, t)
    case And(l, r) => Asks(body, l) && Asks(body, r)
    case Or(l, r) => Asks(body, l) || Asks(body, r)
    case Not(l, r) => Asks(body, l) && !Asks(body, r)
  }

  lemma {:induction false} ReadsIsAsks(body: string, q: Query)
    ensures Reads(body, q) == Asks(body, q)
    decreases q
  {
    match q
    case Term(t) => TermsAreWords(body, t);
    case And(l, r) => ReadsIsAsks(body, l); ReadsIsAsks(body, r);
    case Or(l, r) => ReadsIsAsks(body, l); ReadsIsAsks(body, r);
    case Not(l, r) => ReadsIsAsks(body, l); ReadsIsAsks(body, r);
  }
}
