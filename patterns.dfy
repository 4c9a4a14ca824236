// The regular expressions of the backend and the frontend, each written out as
// the language it accepts (or, for `replaceAll`, as the rewrite it performs).
// Java's `matches()` anchors the whole input; `.` does not match a line
// terminator; `\s` and `\d` are the ASCII classes unless stated otherwise.
module Patterns {
  import opened JavaStrings

  /** The first index at or after `from` whose character satisfies `p`, or |s|. */
  function FirstWhere(s: string, from: nat, p: char -> bool): (r: nat)
    requires from <= |s|
    decreases |s| - from
    ensures from <= r <= |s|
    ensures r < |s| ==> p(s[r])
    ensures forall i :: from <= i < r ==> !p(s[i])
  {
    if from == |s| || p(s[from]) then from else FirstWhere(s, from + 1, p)
  }

  predicate NoLineTerminator(s: string) { forall i :: 0 <= i < |s| ==> !IsLineTerminator(s[i]) }

  /**
   * `s.matches(".*[X].*")` for a class X that holds no line terminator: some
   * character is in X and `.` can cover all the others.
   */
  predicate MatchesSomewhere(s: string, cls: char -> bool)
  {
    NoLineTerminator(s) && Any(s, cls)
  }

  // ---------------------------------------------------------------------------
  // `replaceAll("<.*?>", "")`

  predicate EndsTag(c: char) { c == '>' || IsLineTerminator(c) }

  /** The first index at or after `from` holding '>' or a line terminator, or |s|. */
  function NextTagEnd(s: string, from: nat): (r: nat)
    requires from <= |s|
    decreases |s| - from
    ensures from <= r <= |s|
    ensures r < |s| ==> EndsTag(s[r])
    ensures forall i :: from <= i < r ==> !EndsTag(s[i])
  {
    if from == |s| || EndsTag(s[from]) then from else NextTagEnd(s, from + 1)
  }

  /**
   * The length of the `<.*?>` match that starts at the front of `s`, or 0 when
   * none does: from a '<', the lazy `.*?` stops at the first '>' and cannot
   * cross a line terminator.
   */
  function TagLength(s: string): (n: nat)
    ensures n == 0 || 2 <= n <= |s|
  {
    if s == [] || s[0] != '<' then 0
    else
      var j := NextTagEnd(s, 1);
      if j < |s| && s[j] == '>' then j + 1 else 0
  }

  /** Left-to-right removal of every `<.*?>` match, resuming after each one. */
  function RemoveTags(s: string): (r: string)
    decreases |s|
    ensures |r| <= |s|
  {
    if s == [] then []
    else
      var n := TagLength(s);
      if n > 0 then RemoveTags(s[n..]) else [s[0]] + RemoveTags(s[1..])
  }

  /** Tag removal only deletes characters. */
  lemma {:induction false} RemoveTagsOnlyDeletes(s: string)
    ensures forall c :: c in RemoveTags(s) ==> c in s
    decreases |s|
  {
    if s != [] {
      var n := TagLength(s);
      if n > 0 {
        RemoveTagsOnlyDeletes(s[n..]);
      } else {
        RemoveTagsOnlyDeletes(s[1..]);
      }
    }
  }

  /** No `<.*?>` match starts anywhere in `s`. */
  predicate TagFree(s: string)
  {
    forall i :: 0 <= i < |s| ==> TagLength(s[i..]) == 0
  }

  /** The first `p` characters of `s` hold neither '>' nor a line terminator, and the next one is not '>'. */
  predicate PlainUpTo(s: string, p: nat)
  {
    p <= |s| && (forall i :: 0 <= i < p ==> !EndsTag(s[i])) && (p == |s| || IsLineTerminator(s[p]))
  }

  lemma PlainShift(s: string, p: nat)
    requires PlainUpTo(s, p) && p > 0
    ensures PlainUpTo(s[1..], p - 1)
  {
    assert forall i :: 0 <= i < p - 1 ==> s[1..][i] == s[i + 1];
  }

  /** A stretch with no '>' and no line terminator passes through tag removal unchanged. */
  lemma {:induction false} RemoveTagsKeepsPlainPrefix(s: string, p: nat)
    requires PlainUpTo(s, p)
    ensures RemoveTags(s) == s[..p] + RemoveTags(s[p..])
    decreases p
  {
    if p > 0 {
      UnfoldKept(s, p);
      PlainShift(s, p);
      RemoveTagsKeepsPlainPrefix(s[1..], p - 1);
      SliceOfTail(s, p);
      ConsSlice(s, p, RemoveTags(s[p..]));
    }
  }

  lemma UnfoldKept(s: string, p: nat)
    requires PlainUpTo(s, p) && p > 0
    ensures RemoveTags(s) == [s[0]] + RemoveTags(s[1..])
  {
    NoTagAtPlainStart(s, p);
  }

  lemma SliceOfTail(s: string, p: nat)
    requires 0 < p <= |s|
    ensures s[1..][..p - 1] == s[1..p] && s[1..][p - 1..] == s[p..]
  {
  }

  lemma ConsSlice(s: string, p: nat, y: string)
    requires 0 < p <= |s|
    ensures [s[0]] + (s[1..p] + y) == s[..p] + y
  {
    assert s[..p] == [s[0]] + s[1..p];
  }

  lemma NoTagAtPlainStart(s: string, p: nat)
    requires PlainUpTo(s, p) && p > 0
    ensures TagLength(s) == 0
  {
    if s[0] == '<' {
      var j := NextTagEnd(s, 1);
      assert j == p;
    }
  }

  /** Putting a character in front of a tag-free text keeps it tag-free if no tag starts there. */
  lemma ConsTagFree(x: char, rest: string)
    requires TagFree(rest) && TagLength([x] + rest) == 0
    ensures TagFree([x] + rest)
  {
    var r := [x] + rest;
    forall i | 0 <= i < |r| ensures TagLength(r[i..]) == 0 {
      if i > 0 {
        assert r[i..] == rest[i - 1..];
      } else {
        assert r[i..] == r;
      }
    }
  }

  /** A kept '<' still starts no tag once the text after it has been rewritten. */
  lemma KeptOpenerStaysUnmatched(s: string)
    requires |s| > 0 && s[0] == '<' && TagLength(s) == 0
    ensures TagLength([s[0]] + RemoveTags(s[1..])) == 0
  {
    var p := NextTagEnd(s, 1);
    PlainAfterOpener(s);
    RemoveTagsKeepsPlainPrefix(s[1..], p - 1);
    SliceOfTail(s, p);
    var tail := RemoveTags(s[p..]);
    ConsSlice(s, p, tail);
    if p < |s| {
      LineTerminatorKept(s[p..]);
      OpenerBlocked(s[..p] + tail, p);
    } else {
      assert s[p..] == [];
      assert s[..p] + tail == s;
    }
  }

  lemma PlainAfterOpener(s: string)
    requires |s| > 0 && s[0] == '<' && TagLength(s) == 0
    ensures PlainUpTo(s[1..], NextTagEnd(s, 1) - 1)
  {
    var p := NextTagEnd(s, 1);
    assert forall i :: 0 <= i < p - 1 ==> s[1..][i] == s[i + 1];
  }

  /** A '<' whose next tag-ending character is a line terminator starts no tag. */
  lemma OpenerBlocked(r: string, p: nat)
    requires 0 < p < |r| && r[0] == '<' && IsLineTerminator(r[p])
    requires forall i :: 1 <= i < p ==> !EndsTag(r[i])
    ensures TagLength(r) == 0
  {
    assert NextTagEnd(r, 1) == p;
  }

  lemma LineTerminatorKept(t: string)
    requires |t| > 0 && IsLineTerminator(t[0])
    ensures |RemoveTags(t)| > 0 && RemoveTags(t)[0] == t[0]
  {
  }

  /** What survives tag removal contains no tag: the rewrite cannot build a new one. */
  lemma {:induction false} RemoveTagsLeavesNoTag(s: string)
    ensures TagFree(RemoveTags(s))
    decreases |s|
  {
    if s == [] {
    } else if TagLength(s) > 0 {
      RemoveTagsLeavesNoTag(s[TagLength(s)..]);
    } else {
      RemoveTagsLeavesNoTag(s[1..]);
      if s[0] == '<' {
        KeptOpenerStaysUnmatched(s);
      }
      ConsTagFree(s[0], RemoveTags(s[1..]));
    }
  }

  // ---------------------------------------------------------------------------
  // `replaceAll("<script.*?>.*?</script>", "")`

  const ScriptOpen: string := "<script"
  const ScriptClose: string := "</script>"

  /**
   * The length of the `<script.*?>.*?</script>` match at the front of `s`, or 0.
   * Neither lazy `.*?` crosses a line terminator; the first '>' after the
   * opening text is taken, then the first closing tag after it.
   */
  function ScriptLength(s: string): (n: nat)
    ensures n == 0 || (|ScriptOpen| + |ScriptClose| < n <= |s| && StartsWith(s, ScriptOpen) && EndsWith(s[..n], ScriptClose))
  {
    if !StartsWith(s, ScriptOpen) then 0
    else
      var m := FirstWhere(s, |ScriptOpen|, IsLineTerminator);
      var j := FirstWhere(s, |ScriptOpen|, c => c == '>');
      if j >= m then 0
      else
        var k := IndexOfFrom(s, ScriptClose, j + 1);
        if k < 0 || k + |ScriptClose| > m then 0
        else
          assert s[..k + |ScriptClose|][k..] == ScriptClose;
          k + |ScriptClose|
  }

  /** Left-to-right removal of every script block, resuming after each one. */
  function RemoveScripts(s: string): (r: string)
    decreases |s|
    ensures |r| <= |s|
  {
    if s == [] then []
    else
      var n := ScriptLength(s);
      if n > 0 then RemoveScripts(s[n..]) else [s[0]] + RemoveScripts(s[1..])
  }

  /** Script removal only deletes characters. */
  lemma {:induction false} RemoveScriptsOnlyDeletes(s: string)
    ensures forall c :: c in RemoveScripts(s) ==> c in s
    decreases |s|
  {
    if s != [] {
      var n := ScriptLength(s);
      if n > 0 {
        RemoveScriptsOnlyDeletes(s[n..]);
      } else {
        RemoveScriptsOnlyDeletes(s[1..]);
      }
    }
  }

  // ---------------------------------------------------------------------------
  // Whole-input formats

  predicate IsEmailLocalChar(c: char) { IsAlphaNum(c) || c == '+' || c == '_' || c == '.' || c == '-' }
  predicate IsEmailDomainChar(c: char) { IsAlphaNum(c) || c == '.' || c == '-' }

  /** The last index holding `c`, or -1. */
  function LastIndexOfChar(s: string, c: char): (r: int)
    ensures -1 <= r < |s|
    ensures r >= 0 ==> s[r] == c && c !in s[r + 1..]
    ensures r < 0 ==> c !in s
  {
    if s == [] then -1
    else if s[|s| - 1] == c then |s| - 1
    else
      var r := LastIndexOfChar(s[..|s| - 1], c);
      assert r >= 0 ==> s[r + 1..] == s[..|s| - 1][r + 1..] + [s[|s| - 1]];
      assert r < 0 ==> s == s[..|s| - 1] + [s[|s| - 1]];
      r
  }

  /**
   * `^[A-Za-z0-9+_.-]+@[A-Za-z0-9.-]+\.[A-Za-z]{2,}$`: no class holds '@', so
   * the '@' is unique; the top-level domain holds only letters, so the dot
   * before it is the last one.
   */
  predicate IsEmail(s: string)
  {
    var at := IndexOfChar(s, '@');
    at > 0 && All(s[..at], IsEmailLocalChar)
    && var domain := s[at + 1..];
    All(domain, IsEmailDomainChar)
    && var dot := LastIndexOfChar(domain, '.');
    dot > 0 && |domain| - dot - 1 >= 2 && All(domain[dot + 1..], IsLetter)
  }

  predicate IsPhoneSeparator(c: char) { c == '-' || c == '.' || IsRegexSpace(c) }

  /** Drops the first character when it satisfies `p` (an optional `x?` in a pattern). */
  function SkipOptional(s: string, p: char -> bool): (r: string)
    ensures r == s || (|s| > 0 && p(s[0]) && r == s[1..])
  {
    if |s| > 0 && p(s[0]) then s[1..] else s
  }

  predicate IsParenOpen(c: char) { c == '(' }
  predicate IsParenClose(c: char) { c == ')' }
  predicate IsPlus(c: char) { c == '+' }

  /**
   * `^[+]?[(]?[0-9]{3}[)]?[-\s.]?[0-9]{3}[-\s.]?[0-9]{4,6}$`. Each optional
   * element can only match a character that the element after it cannot, so
   * taking every optional element that is present decides the match.
   */
  predicate IsPhone(s: string)
  {
    var a := SkipOptional(SkipOptional(s, IsPlus), IsParenOpen);
    |a| >= 3 && All(a[..3], IsDigit)
    && var b := SkipOptional(SkipOptional(a[3..], IsParenClose), IsPhoneSeparator);
    |b| >= 3 && All(b[..3], IsDigit)
    && var c := SkipOptional(b[3..], IsPhoneSeparator);
    4 <= |c| <= 6 && All(c, IsDigit)
  }

  predicate IsWordChar(c: char) { IsAlphaNum(c) || c == '_' }

  /** `^[a-zA-Z0-9_]{3,20}$`. */
  predicate IsUsername(s: string) { 3 <= |s| <= 20 && All(s, IsWordChar) }

  /** `^D-[0-9]{3}-[0-9]{3}$`. */
  predicate IsTrackingId(s: string)
  {
    |s| == 9 && s[0] == 'D' && s[1] == '-' && All(s[2..5], IsDigit) && s[5] == '-' && All(s[6..], IsDigit)
  }

  /** `\d{4}-\d{2}-\d{2}` matched against the whole input. */
  predicate IsDateShape(s: string)
  {
    |s| == 10 && All(s[..4], IsDigit) && s[4] == '-' && All(s[5..7], IsDigit) && s[7] == '-' && All(s[8..], IsDigit)
  }

  /** `^[a-zA-Z\s'-]+$`, for the given meaning of `\s`. */
  predicate IsPersonName(s: string, space: char -> bool)
  {
    |s| > 0 && forall i :: 0 <= i < |s| ==> IsLetter(s[i]) || space(s[i]) || s[i] == '\'' || s[i] == '-'
  }

  /** `^\d{6}$` / `\d{6}` under matches(). */
  predicate IsSixDigits(s: string) { |s| == 6 && All(s, IsDigit) }

  predicate NotAlphaNum(c: char) { !IsAlphaNum(c) }

  /** `trim().replaceAll("[^a-zA-Z0-9]", "")`: the ASCII letters and digits of the trimmed text, in order. */
  function TrimmedAlphaNum(s: string): (r: string)
    ensures All(r, IsAlphaNum)
  {
    RemoveWhere(Trim(s), NotAlphaNum)
  }
}
