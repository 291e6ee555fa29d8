/**
 * The parts of java.lang.String and java.util.regex that the ASC parser relies on,
 * stated directly on sequences of characters: `trim`, `startsWith`, `contains`,
 * the character classes `\d`, `\s` and `.`, and `split("\\s+")`.
 */
module JavaText {

  /** Java's regex class `\s`: space, tab, line feed, vertical tab, form feed, carriage return. */
  predicate IsSpace(c: char)
  {
    c == ' ' || c == '\t' || c == '\n' || c == 11 as char || c == 12 as char || c == '\r'
  }

  /** Java's regex class `\d` (ASCII digits only, the default without UNICODE_CHARACTER_CLASS). */
  predicate IsDigit(c: char)
  {
    '0' <= c <= '9'
  }

  predicate AllDigits(s: string)
  {
    forall k :: 0 <= k < |s| ==> IsDigit(s[k])
  }

  predicate AllSpaces(s: string)
  {
    forall k :: 0 <= k < |s| ==> IsSpace(s[k])
  }

  predicate NoSpaces(s: string)
  {
    forall k :: 0 <= k < |s| ==> !IsSpace(s[k])
  }

  /** The characters Java's `.` does not match when DOTALL is off. */
  predicate IsLineTerminator(c: char)
  {
    c == '\n' || c == '\r' || c == 0x85 as char || c == 0x2028 as char || c == 0x2029 as char
  }

  /** What `.*` matches as the tail of `String.matches`: any text free of line terminators. */
  predicate NoLineTerminator(s: string)
  {
    forall k :: 0 <= k < |s| ==> !IsLineTerminator(s[k])
  }

  /** `s.startsWith(prefix)`. */
  predicate StartsWith(s: string, prefix: string)
  {
    prefix <= s
  }

  /** `s.endsWith(suffix)`. */
  predicate EndsWith(s: string, suffix: string)
  {
    |suffix| <= |s| && s[|s| - |suffix|..] == suffix
  }

  /** `sub` occurs in `s` starting at position `i`. */
  predicate OccursAt(s: string, sub: string, i: int)
  {
    0 <= i <= |s| - |sub| && s[i..i + |sub|] == sub
  }

  /** `s.contains(sub)`: `sub` occurs at some position of `s`. */
  predicate Contains(s: string, sub: string)
  {
    exists i | 0 <= i <= |s| - |sub| :: OccursAt(s, sub, i)
  }

  /** The middle piece of a prefix of `s` occurs in `s` right after the first piece. */
  lemma OccursInPrefix(s: string, a: string, b: string, c: string)
    requires StartsWith(s, a + b + c)
    ensures OccursAt(s, b, |a|)
  {
    assert s[|a|..|a| + |b|] == (a + b + c)[|a|..|a| + |b|];
  }

  /** A suffix of `s` occurs at the end of `s`. */
  lemma OccursAsSuffix(s: string, suffix: string)
    requires EndsWith(s, suffix)
    ensures OccursAt(s, suffix, |s| - |suffix|)
  {
  }

  /** The first position at or after `st` holding a character above U+0020 (or the end). */
  function SkipBlanks(s: string, st: nat): (r: nat)
    requires st <= |s|
    ensures st <= r <= |s|
    ensures forall k :: st <= k < r ==> s[k] <= ' '
    ensures r < |s| ==> s[r] > ' '
    decreases |s| - st
  {
    if st < |s| && s[st] <= ' ' then SkipBlanks(s, st + 1) else st
  }

  /** The end of `s[st..len]` once its trailing characters at or below U+0020 are cut off. */
  function CutBlanks(s: string, st: nat, len: nat): (r: nat)
    requires st <= len <= |s|
    ensures st <= r <= len
    ensures forall k :: r <= k < len ==> s[k] <= ' '
    ensures r > st ==> s[r - 1] > ' '
    decreases len
  {
    if st < len && s[len - 1] <= ' ' then CutBlanks(s, st, len - 1) else len
  }

  /**
   * `s.trim()`: the infix of `s` left once the leading and the trailing characters
   * at or below U+0020 are cut off.
   */
  function Trim(s: string): string
  {
    var st := SkipBlanks(s, 0);
    s[st..CutBlanks(s, st, |s|)]
  }

  /** Every character of `s` is at or below U+0020: the characters `trim` cuts off. */
  predicate AllBlank(s: string)
  {
    forall k :: 0 <= k < |s| ==> s[k] <= ' '
  }

  /**
   * `r` is the infix `s[i..j]`, everything before `i` and from `j` on is at or
   * below U+0020, and `r` neither starts nor ends with such a character.
   */
  predicate IsTrimOf(s: string, r: string, i: int, j: int)
  {
    && 0 <= i <= j <= |s| && r == s[i..j]
    && AllBlank(s[..i]) && AllBlank(s[j..])
    && (r == [] || (r[0] > ' ' && r[|r| - 1] > ' '))
  }

  /**
   * The trim of `s` is `s` with the run of characters at or below U+0020 cut
   * from each end: it occurs in `s`, starts and ends above U+0020, and is empty
   * exactly when every character of `s` is at or below U+0020.
   */
  lemma TrimSpec(s: string)
    ensures var r := Trim(s);
      && (exists i, j :: IsTrimOf(s, r, i, j))
      && (r == [] || (r[0] > ' ' && r[|r| - 1] > ' '))
      && Contains(s, r)
      && (r == [] <==> forall k :: 0 <= k < |s| ==> s[k] <= ' ')
  {
    var st := SkipBlanks(s, 0);
    var len := CutBlanks(s, st, |s|);
    assert OccursAt(s, s[st..len], st);
    assert IsTrimOf(s, Trim(s), st, len);
  }

  /** Cutting the blank runs off both ends has only one outcome: the trim. */
  lemma TrimUnique(s: string, r: string, i: int, j: int)
    requires IsTrimOf(s, r, i, j)
    ensures r == Trim(s)
  {
    var st := SkipBlanks(s, 0);
    var len := CutBlanks(s, st, |s|);
    forall k | 0 <= k < i ensures s[k] <= ' ' {
      assert s[..i][k] == s[k];
    }
    forall k | j <= k < |s| ensures s[k] <= ' ' {
      assert s[j..][k - j] == s[k];
    }
    if r == [] {
      TrimSpec(s);
    } else {
      assert s[i] == r[0];
      assert st == i;
      assert s[j - 1] == r[|r| - 1];
      assert len == j;
    }
  }

  /** A string that is already trimmed is its own trim. */
  lemma TrimOfTrimmed(s: string)
    requires s == [] || (s[0] > ' ' && s[|s| - 1] > ' ')
    ensures Trim(s) == s
  {
    if s != [] {
      assert SkipBlanks(s, 0) == 0;
      assert CutBlanks(s, 0, |s|) == |s|;
    }
  }

  /** Trimming twice is trimming once. */
  lemma TrimIdempotent(s: string)
    ensures Trim(Trim(s)) == Trim(s)
  {
    TrimOfTrimmed(Trim(s));
  }

  /** The first position at or after `i` that does not hold a `\s` character (or the end). */
  function SkipSpaces(s: string, i: nat): (j: nat)
    requires i <= |s|
    ensures i <= j <= |s|
    ensures forall k :: i <= k < j ==> IsSpace(s[k])
    ensures j < |s| ==> !IsSpace(s[j])
    decreases |s| - i
  {
    if i < |s| && IsSpace(s[i]) then SkipSpaces(s, i + 1) else i
  }

  /** The length of the run of non-space characters `s` starts with. */
  function WordLength(s: string): (n: nat)
    ensures n <= |s|
    ensures forall k :: 0 <= k < n ==> !IsSpace(s[k])
    ensures n < |s| ==> IsSpace(s[n])
  {
    if s == [] || IsSpace(s[0]) then 0 else 1 + WordLength(s[1..])
  }

  /**
   * The maximal runs of non-`\s` characters of `s`, in order. For every string
   * that does not start with whitespace this is what Java's `s.split("\\s+")`
   * returns: a whitespace run never yields an empty piece between two tokens
   * and trailing empty pieces are discarded.
   */
  function Tokens(s: string): (ts: seq<string>)
    ensures forall i :: 0 <= i < |ts| ==> IsWord(ts[i])
    decreases |s|
  {
    if s == [] then []
    else if IsSpace(s[0]) then Tokens(s[1..])
    else
      var n := WordLength(s);
      [s[..n]] + Tokens(s[n..])
  }

  /** Leading whitespace contributes no token. */
  lemma {:induction false} TokensAfterSpaces(sp: string, s: string)
    requires AllSpaces(sp)
    ensures Tokens(sp + s) == Tokens(s)
    decreases |sp|
  {
    if sp != [] {
      assert IsSpace(sp[0]);
      assert (sp + s)[0] == sp[0];
      assert (sp + s)[1..] == sp[1..] + s;
      assert Tokens(sp + s) == Tokens(sp[1..] + s);
      TokensAfterSpaces(sp[1..], s);
    } else {
      assert sp + s == s;
    }
  }

  /** A word followed by whitespace (or by nothing) is read as exactly that word. */
  lemma {:induction false} WordLengthOfWord(w: string, s: string)
    requires NoSpaces(w)
    requires s == [] || IsSpace(s[0])
    ensures WordLength(w + s) == |w|
    decreases |w|
  {
    if w != [] {
      assert (w + s)[1..] == w[1..] + s;
      WordLengthOfWord(w[1..], s);
    } else {
      assert w + s == s;
    }
  }

  /** A token: non-empty and free of whitespace. */
  predicate IsWord(w: string)
  {
    w != [] && NoSpaces(w)
  }

  /** A non-empty word, then whitespace, then the rest: the word is the first token. */
  lemma TokensOfWord(w: string, sp: string, rest: string)
    requires w != [] && NoSpaces(w)
    requires AllSpaces(sp)
    requires sp != [] || rest == []
    ensures Tokens(w + sp + rest) == [w] + Tokens(rest)
  {
    var s := w + sp + rest;
    assert s == w + (sp + rest);
    WordLengthOfWord(w, sp + rest);
    assert s[..|w|] == w;
    assert s[|w|..] == sp + rest;
    TokensAfterSpaces(sp, rest);
  }

  /** The words joined by single spaces, as a device export writes its columns. */
  function JoinWords(ws: seq<string>): string
  {
    if ws == [] then []
    else if |ws| == 1 then ws[0]
    else ws[0] + " " + JoinWords(ws[1..])
  }

  /** Splitting words joined by single spaces gives the words back. */
  lemma {:induction false} TokensOfJoinWords(ws: seq<string>)
    requires forall i :: 0 <= i < |ws| ==> IsWord(ws[i])
    ensures Tokens(JoinWords(ws)) == ws
  {
    if ws == [] {
    } else if |ws| == 1 {
      TokensOfWord(ws[0], [], []);
      assert ws[0] + [] + [] == ws[0];
    } else {
      TokensOfJoinWords(ws[1..]);
      TokensOfWord(ws[0], " ", JoinWords(ws[1..]));
    }
  }

  /** Joining two non-empty lists of words is joining each and putting a space between. */
  lemma {:induction false} JoinWordsAppend(a: seq<string>, b: seq<string>)
    requires a != [] && b != []
    ensures JoinWords(a + b) == JoinWords(a) + " " + JoinWords(b)
    decreases |a|
  {
    assert (a + b)[0] == a[0];
    if |a| == 1 {
      assert (a + b)[1..] == b;
    } else {
      assert (a + b)[1..] == a[1..] + b;
      JoinWordsAppend(a[1..], b);
    }
  }

  /** A string starting with `m` non-space characters starts with a token of at least that length. */
  lemma {:induction false} WordLengthAtLeast(s: string, m: nat)
    requires m <= |s|
    requires forall k :: 0 <= k < m ==> !IsSpace(s[k])
    ensures WordLength(s) >= m
    decreases m
  {
    if m > 0 {
      WordLengthAtLeast(s[1..], m - 1);
    }
  }
}
