/** Python string operations the response pipeline uses: `pat in s`,
    `s.replace(pat, rep)`, `s.strip()` and `s.title()`, over `seq<char>`. */
module PyText {

  /** Python's `pat in s` on two strings: `pat` occurs at some offset of `s`. */
  predicate Contains(s: string, pat: string) {
    exists i | 0 <= i <= |s| :: pat <= s[i..]
  }

  lemma ContainsCons(c: char, s: string, pat: string)
    ensures Contains([c] + s, pat) <==> pat <= [c] + s || Contains(s, pat)
  {
    var t := [c] + s;
    assert t[0..] == t;
    if Contains(t, pat) && !(pat <= t) {
      var i :| 0 <= i <= |t| && pat <= t[i..];
      assert i != 0;
      assert pat <= s[i - 1..];
    }
    if Contains(s, pat) {
      var i :| 0 <= i <= |s| && pat <= s[i..];
      assert t[i + 1..] == s[i..];
      assert pat <= t[i + 1..];
    }
  }

  /** A prefix of a prefix is a prefix. */
  lemma PrefixOfSlice(pat: string, s: string, k: nat, j: nat)
    requires k <= j <= |s|
    ensures pat <= s[k..j] ==> pat <= s[k..]
  {
  }

  /** What a string lacks, every slice of it lacks too. */
  lemma SliceLacks(s: string, pat: string, i: nat, j: nat)
    requires i <= j <= |s| && !Contains(s, pat)
    ensures !Contains(s[i..j], pat)
  {
    forall k | 0 <= k <= j - i
      ensures !(pat <= s[i..j][k..])
    {
      assert s[i..j][k..] == s[i + k..j];
      assert !(pat <= s[i + k..]);
      PrefixOfSlice(pat, s, i + k, j);
    }
  }

  /** A prefix without `pat`'s first character neither adds nor hides an
      occurrence of `pat`. */
  lemma ContainsAfterPrefix(s: string, t: string, pat: string)
    requires pat != [] && pat[0] !in s
    ensures Contains(s + t, pat) <==> Contains(t, pat)
  {
    if Contains(s + t, pat) {
      var i :| 0 <= i <= |s + t| && pat <= (s + t)[i..];
      assert (s + t)[i..] == t[i - |s|..];
    }
    if Contains(t, pat) {
      var j :| 0 <= j <= |t| && pat <= t[j..];
      assert (s + t)[|s| + j..] == t[j..];
    }
  }

  // ---------------------------------------------------------------------------
  // str.replace

  /** Python's `s.replace(pat, rep)` for a non-empty `pat`: scans left to
      right and replaces every non-overlapping occurrence. */
  function ReplaceAll(s: string, pat: string, rep: string): string
    requires pat != []
    decreases |s|
  {
    if s == [] then []
    else if pat <= s then rep + ReplaceAll(s[|pat|..], pat, rep)
    else [s[0]] + ReplaceAll(s[1..], pat, rep)
  }

  /** Replacing a pattern that does not occur changes nothing. */
  lemma {:induction false} ReplaceAbsent(s: string, pat: string, rep: string)
    requires pat != [] && !Contains(s, pat)
    ensures ReplaceAll(s, pat, rep) == s
  {
    if s != [] {
      ContainsCons(s[0], s[1..], pat);
      assert [s[0]] + s[1..] == s;
      ReplaceAbsent(s[1..], pat, rep);
    }
  }

  /** A prefix free of the pattern's first character is copied unchanged. */
  lemma {:induction false} ReplaceSkipsPrefix(s: string, t: string, pat: string, rep: string)
    requires pat != [] && pat[0] !in s
    ensures ReplaceAll(s + t, pat, rep) == s + ReplaceAll(t, pat, rep)
  {
    if s != [] {
      assert (s + t)[0] == s[0] != pat[0];
      assert !(pat <= s + t);
      assert (s + t)[1..] == s[1..] + t;
      assert pat[0] !in s[1..];
      ReplaceSkipsPrefix(s[1..], t, pat, rep);
      assert [s[0]] + s[1..] == s;
    } else {
      assert s + t == t;
    }
  }

  /** Replacing one character by another works position by position, the
      way `key.replace('_', ' ')` turns snake_case into words. */
  lemma {:induction false} ReplaceCharAt(s: string, a: char, b: char)
    ensures |ReplaceAll(s, [a], [b])| == |s|
    ensures forall i | 0 <= i < |s| :: ReplaceAll(s, [a], [b])[i] == if s[i] == a then b else s[i]
  {
    if s != [] {
      ReplaceCharAt(s[1..], a, b);
    }
  }

  // ---------------------------------------------------------------------------
  // Removing ``` from a string

  const Fence := "```"

  lemma {:induction false} RemovalKeepsHead(u: string)
    requires u != [] && u[0] != '`'
    ensures ReplaceAll(u, Fence, "") == [u[0]] + ReplaceAll(u[1..], Fence, "")
  {
  }

  /** After removal, a string that did not start with two backticks does
      not start with two backticks either. */
  lemma {:induction false} RemovalNoDoubleLead(t: string)
    requires !("``" <= t)
    ensures !("``" <= ReplaceAll(t, Fence, ""))
  {
    if t != [] {
      assert !(Fence <= t);
      if t[0] == '`' && |t| > 1 {
        assert t[1] != '`';
        RemovalKeepsHead(t[1..]);
      }
    }
  }

  /** `s.replace("```", "")` leaves no "```" behind: the leftmost scan never
      lets two remainders join into a new fence. */
  lemma {:induction false} RemovalLeavesNoFence(s: string)
    ensures !Contains(ReplaceAll(s, Fence, ""), Fence)
  {
    if s == [] {
      assert !(Fence <= []);
    } else if Fence <= s {
      RemovalLeavesNoFence(s[3..]);
      assert ReplaceAll(s, Fence, "") == ReplaceAll(s[3..], Fence, "");
    } else {
      var tail := ReplaceAll(s[1..], Fence, "");
      RemovalLeavesNoFence(s[1..]);
      ContainsCons(s[0], tail, Fence);
      if s[0] == '`' {
        assert "``" <= s[1..] ==> Fence <= s;
        RemovalNoDoubleLead(s[1..]);
      }
    }
  }

  // ---------------------------------------------------------------------------
  // str.strip

  /** Python's `str.isspace()` on one character. */
  predicate IsSpace(c: char) {
    || c == ' ' || c == '\t' || c == '\n' || c == '\r' || c == '\U{0B}' || c == '\U{0C}'
    || ('\U{1C}' <= c <= '\U{1F}') || c == '\U{85}' || c == '\U{A0}' || c == '\U{1680}'
    || ('\U{2000}' <= c <= '\U{200A}') || c == '\U{2028}' || c == '\U{2029}'
    || c == '\U{202F}' || c == '\U{205F}' || c == '\U{3000}'
  }

  predicate AllSpace(s: string) {
    forall i | 0 <= i < |s| :: IsSpace(s[i])
  }

  /** Neither end is whitespace: what `strip()` returns. */
  predicate Stripped(s: string) {
    s == [] || (!IsSpace(s[0]) && !IsSpace(s[|s| - 1]))
  }

  /** How many whitespace characters `s` starts with. */
  function LeadingSpace(s: string): (n: nat)
    ensures n <= |s| && AllSpace(s[..n]) && (n < |s| ==> !IsSpace(s[n]))
  {
    if s != [] && IsSpace(s[0]) then
      var m := LeadingSpace(s[1..]);
      assert s[..m + 1] == [s[0]] + s[1..][..m];
      m + 1
    else 0
  }

  /** How many whitespace characters `s` ends with. */
  function TrailingSpace(s: string): (n: nat)
    ensures n <= |s| && AllSpace(s[|s| - n..]) && (n < |s| ==> !IsSpace(s[|s| - n - 1]))
  {
    if s != [] && IsSpace(s[|s| - 1]) then
      var init := s[..|s| - 1];
      var m := TrailingSpace(init);
      assert s[|s| - (m + 1)..] == init[|init| - m..] + [s[|s| - 1]];
      m + 1
    else 0
  }

  /** Python's `s.strip()`: the result is the slice of `s` left after
      removing leading and trailing whitespace, and it is stripped. */
  function Strip(s: string): (r: string)
    ensures Stripped(r)
    ensures exists i, j | 0 <= i <= j <= |s| :: r == s[i..j] && AllSpace(s[..i]) && AllSpace(s[j..])
  {
    var i := LeadingSpace(s);
    var rest := s[i..];
    var j := TrailingSpace(rest);
    var r := rest[..|rest| - j];
    assert r == s[i..i + |rest| - j] && s[i + |rest| - j..] == rest[|rest| - j..];
    assert r != [] ==> r[0] == s[i] && r[|r| - 1] == rest[|rest| - j - 1];
    r
  }

  /** Stripping cannot create an occurrence of a pattern. */
  lemma StripLacks(s: string, pat: string)
    requires !Contains(s, pat)
    ensures !Contains(Strip(s), pat)
  {
    var i, j :| 0 <= i <= j <= |s| && Strip(s) == s[i..j];
    SliceLacks(s, pat, i, j);
  }

  /** Stripping a stripped string changes nothing. */
  lemma StripStripped(s: string)
    requires Stripped(s)
    ensures Strip(s) == s
  {
  }

  // ---------------------------------------------------------------------------
  // str.title over ASCII

  predicate IsUpper(c: char) { 'A' <= c <= 'Z' }
  predicate IsLower(c: char) { 'a' <= c <= 'z' }
  predicate IsLetter(c: char) { IsUpper(c) || IsLower(c) }

  function ToUpper(c: char): char {
    if IsLower(c) then (c as int - 32) as char else c
  }

  function ToLower(c: char): char {
    if IsUpper(c) then (c as int + 32) as char else c
  }

  /** The character `title()` puts in place of `c`, given whether the
      character before it was a letter. */
  function TitleChar(c: char, afterLetter: bool): char {
    if !IsLetter(c) then c
    else if afterLetter then ToLower(c)
    else ToUpper(c)
  }

  function TitleFrom(s: string, afterLetter: bool): string
    decreases |s|
  {
    if s == [] then []
    else [TitleChar(s[0], afterLetter)] + TitleFrom(s[1..], IsLetter(s[0]))
  }

  /** Python's `s.title()` restricted to ASCII: a letter is upper-cased at
      the start of a word and lower-cased inside one; anything that is not
      an ASCII letter is kept and ends the word. */
  function Title(s: string): string {
    TitleFrom(s, false)
  }

  lemma {:induction false} TitleFromAt(s: string, afterLetter: bool)
    ensures |TitleFrom(s, afterLetter)| == |s|
    ensures forall i | 0 <= i < |s| ::
      TitleFrom(s, afterLetter)[i] == TitleChar(s[i], if i == 0 then afterLetter else IsLetter(s[i - 1]))
  {
    if s != [] {
      TitleFromAt(s[1..], IsLetter(s[0]));
    }
  }

  /** Position by position: letter `i` of the result is upper case exactly
      when `s[i]` starts a word. */
  lemma TitleAt(s: string)
    ensures |Title(s)| == |s|
    ensures forall i | 0 <= i < |s| ::
      Title(s)[i] == TitleChar(s[i], i > 0 && IsLetter(s[i - 1]))
  {
    TitleFromAt(s, false);
  }

  /** The display name of a snake_case key: `key.replace('_', ' ').title()`. */
  function DisplayName(key: string): (r: string)
    ensures |r| == |key|
    ensures forall i | 0 <= i < |key| ::
      r[i] == if key[i] == '_' then ' ' else TitleChar(key[i], i > 0 && IsLetter(key[i - 1]))
  {
    var spaced := ReplaceAll(key, "_", " ");
    ReplaceCharAt(key, '_', ' ');
    TitleAt(spaced);
    Title(spaced)
  }
}
