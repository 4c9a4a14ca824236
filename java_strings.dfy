// The string operations of the Java and JavaScript standard libraries that the
// application relies on, written out over `seq<char>`. Only the behaviour the
// application can observe is modelled: case mapping covers ASCII letters only,
// and numbers are parsed from ASCII digits only.
module JavaStrings {
  import opened Wrappers

  // ---------------------------------------------------------------------------
  // Character classes

  predicate IsDigit(c: char) { '0' <= c <= '9' }
  predicate IsUpper(c: char) { 'A' <= c <= 'Z' }
  predicate IsLower(c: char) { 'a' <= c <= 'z' }
  predicate IsLetter(c: char) { IsUpper(c) || IsLower(c) }
  predicate IsAlphaNum(c: char) { IsLetter(c) || IsDigit(c) }

  /** Characters removed by Java's `String.trim()`: every code unit up to U+0020. */
  predicate IsTrimSpace(c: char) { c <= ' ' }

  /** Java's `Character.isWhitespace`, used by `String.isBlank()`. */
  predicate IsJavaWhitespace(c: char)
  {
    var n := c as int;
    (9 <= n <= 13) || (28 <= n <= 32) || n == 0x1680 || (0x2000 <= n <= 0x2006)
    || (0x2008 <= n <= 0x200A) || n == 0x2028 || n == 0x2029 || n == 0x205F || n == 0x3000
  }

  /** Regex `\s` in Java: `[ \t\n\x0B\f\r]`. */
  predicate IsRegexSpace(c: char) { c == ' ' || ('\t' <= c <= '\r') }

  /** JavaScript's WhiteSpace and LineTerminator code points, stripped by `String.prototype.trim`. */
  predicate IsJsSpace(c: char)
  {
    var n := c as int;
    (9 <= n <= 13) || n == 32 || n == 0xA0 || n == 0x1680 || (0x2000 <= n <= 0x200A)
    || n == 0x2028 || n == 0x2029 || n == 0x202F || n == 0x205F || n == 0x3000 || n == 0xFEFF
  }

  /** Line terminators, which the regex `.` does not match (Java, without DOTALL). */
  predicate IsLineTerminator(c: char)
  {
    c == '\n' || c == '\r' || c as int == 0x85 || c as int == 0x2028 || c as int == 0x2029
  }

  predicate All(s: string, p: char -> bool) { forall i :: 0 <= i < |s| ==> p(s[i]) }
  predicate Any(s: string, p: char -> bool) { exists i :: 0 <= i < |s| && p(s[i]) }

  /**
   * `String.length()` in Java and JavaScript: the number of UTF-16 code units,
   * so a character outside the Basic Multilingual Plane counts twice.
   */
  function JavaLength(s: string): (r: nat)
    ensures |s| <= r <= 2 * |s|
    ensures (forall i :: 0 <= i < |s| ==> s[i] as int < 0x10000) ==> r == |s|
  {
    if s == [] then 0 else (if s[0] as int >= 0x10000 then 2 else 1) + JavaLength(s[1..])
  }

  // ---------------------------------------------------------------------------
  // Trimming

  function DropLeading(s: string, sp: char -> bool): (r: string)
    ensures |r| <= |s|
    ensures r == [] || !sp(r[0])
  {
    if s == [] || !sp(s[0]) then s else DropLeading(s[1..], sp)
  }

  function DropTrailing(s: string, sp: char -> bool): (r: string)
    ensures |r| <= |s|
    ensures r == [] || !sp(r[|r| - 1])
  {
    if s == [] || !sp(s[|s| - 1]) then s else DropTrailing(s[..|s| - 1], sp)
  }

  /** Dropping leading spaces leaves a suffix, and only spaces are dropped. */
  lemma {:induction false} DropLeadingIsSuffix(s: string, sp: char -> bool)
    ensures var r := DropLeading(s, sp);
      r == s[|s| - |r|..] && forall i :: 0 <= i < |s| - |r| ==> sp(s[i])
  {
    if s != [] && sp(s[0]) {
      DropLeadingIsSuffix(s[1..], sp);
    }
  }

  /** Dropping trailing spaces leaves a prefix, and only spaces are dropped. */
  lemma {:induction false} DropTrailingIsPrefix(s: string, sp: char -> bool)
    ensures var r := DropTrailing(s, sp);
      r == s[..|r|] && forall i :: |r| <= i < |s| ==> sp(s[i])
  {
    if s != [] && sp(s[|s| - 1]) {
      DropTrailingIsPrefix(s[..|s| - 1], sp);
    }
  }

  function TrimBy(s: string, sp: char -> bool): (r: string)
    ensures r == [] || (!sp(r[0]) && !sp(r[|r| - 1]))
    ensures s != [] && !sp(s[0]) ==> r != []
  {
    var d := DropLeading(s, sp);
    DropTrailingIsPrefix(d, sp);
    DropTrailing(d, sp)
  }

  /** Java `String.trim()`. */
  function Trim(s: string): (r: string)
    ensures r == [] || (!IsTrimSpace(r[0]) && !IsTrimSpace(r[|r| - 1]))
    ensures s != [] && !IsTrimSpace(s[0]) ==> r != []
  {
    TrimBy(s, IsTrimSpace)
  }

  /** Trimming leaves alone a string that neither starts nor ends with a space or control character. */
  lemma TrimKeeps(s: string)
    requires s == [] || (!IsTrimSpace(s[0]) && !IsTrimSpace(s[|s| - 1]))
    ensures Trim(s) == s
  {
  }

  /** Trimming twice is trimming once. */
  lemma TrimIdempotent(s: string)
    ensures Trim(Trim(s)) == Trim(s)
  {
    TrimKeeps(Trim(s));
  }

  /** JavaScript `String.prototype.trim()`. */
  function JsTrim(s: string): (r: string)
    ensures r == [] || (!IsJsSpace(r[0]) && !IsJsSpace(r[|r| - 1]))
  {
    TrimBy(s, IsJsSpace)
  }

  /** Trimming only deletes characters. */
  lemma TrimOnlyDeletes(s: string)
    ensures forall c :: c in Trim(s) ==> c in s
  {
    var d := DropLeading(s, IsTrimSpace);
    var r := Trim(s);
    DropLeadingIsSuffix(s, IsTrimSpace);
    DropTrailingIsPrefix(d, IsTrimSpace);
    forall c | c in r ensures c in s {
      var i :| 0 <= i < |r| && r[i] == c;
      assert r[i] == d[i];
      assert d[i] == s[|s| - |d| + i];
    }
  }

  /** Java `s.trim().isEmpty()`. */
  predicate TrimsToEmpty(s: string) { Trim(s) == [] }

  /** Java `String.isBlank()`. */
  predicate IsBlank(s: string) { All(s, IsJavaWhitespace) }

  // ---------------------------------------------------------------------------
  // Searching

  predicate StartsWith(s: string, p: string) { |p| <= |s| && s[..|p|] == p }
  predicate EndsWith(s: string, p: string) { |p| <= |s| && s[|s| - |p|..] == p }

  /** `sub` occurs in `s` starting at index `k`. */
  predicate OccursAt(s: string, sub: string, k: int)
  {
    0 <= k && k + |sub| <= |s| && s[k..k + |sub|] == sub
  }

  /** `s.indexOf(sub, from)`: the first occurrence at or after `from`, else -1. */
  function IndexOfFrom(s: string, sub: string, from: nat): (r: int)
    decreases |s| - from
    ensures -1 <= r <= |s|
    ensures r >= 0 ==> from <= r && OccursAt(s, sub, r)
    ensures r >= 0 ==> forall k :: from <= k < r ==> !OccursAt(s, sub, k)
    ensures r < 0 ==> forall k :: from <= k ==> !OccursAt(s, sub, k)
  {
    if from + |sub| > |s| then -1
    else if s[from..from + |sub|] == sub then from
    else IndexOfFrom(s, sub, from + 1)
  }

  function IndexOf(s: string, sub: string): (r: int)
    ensures -1 <= r <= |s|
    ensures r >= 0 ==> OccursAt(s, sub, r) && r + |sub| <= |s| && s[r..r + |sub|] == sub
    ensures r >= 0 ==> forall k :: 0 <= k < r ==> !OccursAt(s, sub, k)
    ensures r < 0 ==> forall k :: !OccursAt(s, sub, k)
  {
    IndexOfFrom(s, sub, 0)
  }

  predicate Contains(s: string, sub: string) { IndexOf(s, sub) >= 0 }

  /** The first position holding `c` is the index `indexOf` reports. */
  lemma {:induction false} IndexOfCharAt(s: string, c: char, n: int)
    requires 0 <= n < |s| && s[n] == c && forall j :: 0 <= j < n ==> s[j] != c
    ensures IndexOfChar(s, c) == n
    decreases n
  {
    assert c in s;
    if n > 0 {
      IndexOfCharAt(s[1..], c, n - 1);
    }
  }

  /** A one-character text occurs exactly where that character stands. */
  lemma OccursAtChar(s: string, c: char)
    ensures forall k :: OccursAt(s, [c], k) <==> 0 <= k < |s| && s[k] == c
  {
    forall k | 0 <= k < |s|
      ensures s[k..k + 1] == [s[k]]
    {
    }
  }

  function IndexOfChar(s: string, c: char): (r: int)
    ensures -1 <= r < |s|
    ensures r >= 0 ==> s[r] == c && c !in s[..r]
    ensures r < 0 ==> c !in s
  {
    if c !in s then -1
    else if s[0] == c then 0
    else 1 + IndexOfChar(s[1..], c)
  }

  /** A text contains whatever stands inside it. */
  lemma Infix(a: string, sub: string, b: string)
    ensures Contains(a + sub + b, sub)
  {
    var s := a + sub + b;
    assert s[|a|..|a| + |sub|] == sub;
    assert OccursAt(s, sub, |a|);
  }

  /**
   * When a message's only 'f' sits between `a` and `rest` and `a` does not
   * end in "not ", "not found" does not occur.
   */
  lemma NotFoundPivot(e: string, a: string, rest: string)
    requires e == a + "f" + rest && 'f' !in a && 'f' !in rest
    requires |a| >= 4 && a[|a| - 4] != 'n'
    ensures !Contains(e, "not found")
  {
    assert e[|a| - 4] == a[|a| - 4];
    if |a| + 5 <= |e| {
      assert e[|a| - 4..|a| + 5][0] == e[|a| - 4];
    }
    PivotAbsent(a, 'f', rest, "not found", 4);
  }

  /** A text contains the word it starts with. */
  lemma StartsWithWord(e: string, w: string, b: string)
    requires e == w + b
    ensures Contains(e, w)
  {
    Infix([], w, b);
    assert [] + w + b == e;
  }

  /** A text contains the word it ends with. */
  lemma EndsWithWord(e: string, a: string, w: string)
    requires e == a + w
    ensures Contains(e, w)
  {
    Infix(a, w, []);
    assert a + w + [] == e;
  }

  /** A text lacking one of the characters of `sub` does not contain `sub`. */
  lemma CharAbsent(s: string, sub: string, c: char)
    requires c in sub && c !in s
    ensures !Contains(s, sub)
  {
    forall k
      ensures !OccursAt(s, sub, k)
    {
      if 0 <= k && k + |sub| <= |s| {
        var i :| 0 <= i < |sub| && sub[i] == c;
        assert s[k..k + |sub|][i] == s[k + i];
      }
    }
  }

  /**
   * When `c` stands only once in `a + [c] + b` and `sub` holds `c` at index
   * `j`, the only candidate occurrence of `sub` is the one that puts its `c`
   * there; if that one fails, `sub` does not occur at all.
   */
  lemma PivotAbsent(a: string, c: char, b: string, sub: string, j: nat)
    requires j < |sub| && sub[j] == c && c !in a && c !in b
    requires !OccursAt(a + [c] + b, sub, |a| - j)
    ensures !Contains(a + [c] + b, sub)
  {
    var s := a + [c] + b;
    forall k
      ensures !OccursAt(s, sub, k)
    {
      if 0 <= k && k + |sub| <= |s| {
        assert s[k..k + |sub|][j] == s[k + j];
        if k + j < |a| {
          assert s[k + j] == a[k + j];
        } else if k + j > |a| {
          assert s[k + j] == b[k + j - |a| - 1];
        }
      }
    }
  }

  // ---------------------------------------------------------------------------
  // Case (ASCII letters only)

  function UpperChar(c: char): char { if IsLower(c) then (c as int - 32) as char else c }
  function LowerChar(c: char): char { if IsUpper(c) then (c as int + 32) as char else c }

  function ToUpper(s: string): (r: string)
    ensures |r| == |s| && forall i :: 0 <= i < |s| ==> r[i] == UpperChar(s[i])
  {
    if s == [] then [] else [UpperChar(s[0])] + ToUpper(s[1..])
  }

  function ToLower(s: string): (r: string)
    ensures |r| == |s| && forall i :: 0 <= i < |s| ==> r[i] == LowerChar(s[i])
  {
    if s == [] then [] else [LowerChar(s[0])] + ToLower(s[1..])
  }

  /** Lower-casing twice is lower-casing once. */
  lemma {:induction false} LowerIdempotent(s: string)
    ensures ToLower(ToLower(s)) == ToLower(s)
  {
    assert forall i :: 0 <= i < |s| ==> LowerChar(LowerChar(s[i])) == LowerChar(s[i]);
  }

  /** Java `String.equalsIgnoreCase` on a non-null argument. */
  predicate EqualsIgnoreCase(a: string, b: string) { ToUpper(a) == ToUpper(b) }

  // ---------------------------------------------------------------------------
  // Rewriting

  /** Removes every character satisfying `drop` (a `replaceAll` of a character class with ""). */
  function RemoveWhere(s: string, drop: char -> bool): (r: string)
    ensures |r| <= |s|
    ensures forall i :: 0 <= i < |r| ==> !drop(r[i])
    ensures forall c :: c in r ==> c in s
    ensures forall i :: 0 <= i < |s| && !drop(s[i]) ==> s[i] in r
  {
    if s == [] then []
    else (if drop(s[0]) then [] else [s[0]]) + RemoveWhere(s[1..], drop)
  }

  /** Java `String.replace(c, rep)` for a one-character target: every `c` becomes `rep`. */
  function ReplaceChar(s: string, c: char, rep: string): (r: string)
    ensures c !in rep ==> c !in r
    ensures forall x :: x in r ==> x in s || x in rep
  {
    if s == [] then []
    else (if s[0] == c then rep else [s[0]]) + ReplaceChar(s[1..], c, rep)
  }

  /** Replacement distributes over concatenation. */
  lemma {:induction false} ReplaceCharAppend(a: string, b: string, c: char, rep: string)
    ensures ReplaceChar(a + b, c, rep) == ReplaceChar(a, c, rep) + ReplaceChar(b, c, rep)
    decreases |a|
  {
    if a == [] {
      assert a + b == b;
    } else {
      ReplaceCharAppend(a[1..], b, c, rep);
      assert (a + b)[1..] == a[1..] + b;
      assert (a + b)[0] == a[0];
    }
  }

  /** On a one-character text, replacement is a single test. */
  lemma ReplaceCharSingle(x: char, c: char, rep: string)
    ensures ReplaceChar([x], c, rep) == if x == c then rep else [x]
  {
    assert [x][1..] == [];
  }

  /** Replacing a character that does not occur changes nothing. */
  lemma {:induction false} ReplaceCharAbsent(s: string, c: char, rep: string)
    requires c !in s
    ensures ReplaceChar(s, c, rep) == s
    decreases |s|
  {
    if s != [] {
      ReplaceCharAbsent(s[1..], c, rep);
    }
  }

  function Join(parts: seq<string>, sep: string): string
  {
    if parts == [] then []
    else if |parts| == 1 then parts[0]
    else parts[0] + sep + Join(parts[1..], sep)
  }

  /** Joining one more part adds the separator and the part at the end. */
  lemma {:induction false} JoinSnoc(parts: seq<string>, x: string, sep: string)
    ensures Join(parts + [x], sep) == if parts == [] then x else Join(parts, sep) + sep + x
    decreases |parts|
  {
    if |parts| == 1 {
      assert parts + [x] == [parts[0], x];
      assert [parts[0], x][1..] == [x];
    } else if |parts| > 1 {
      assert (parts + [x])[1..] == parts[1..] + [x];
      JoinSnoc(parts[1..], x, sep);
    }
  }

  // ---------------------------------------------------------------------------
  // Splitting

  /** Every piece between occurrences of `sep` (JavaScript `String.prototype.split`). */
  function SplitAll(s: string, sep: string): (r: seq<string>)
    requires |sep| > 0
    decreases |s|
    ensures |r| >= 1
  {
    var i := IndexOf(s, sep);
    if i < 0 then [s] else [s[..i]] + SplitAll(s[i + |sep|..], sep)
  }

  function DropTrailingEmpty(parts: seq<string>): (r: seq<string>)
    ensures |r| <= |parts| && r == parts[..|r|]
    ensures r == [] || r[|r| - 1] != []
    ensures forall i :: |r| <= i < |parts| ==> parts[i] == []
  {
    if parts == [] || parts[|parts| - 1] != [] then parts
    else DropTrailingEmpty(parts[..|parts| - 1])
  }

  /**
   * Java `String.split(sep)` for a literal separator: with no occurrence the
   * input itself is the only piece (even when empty); otherwise trailing empty
   * pieces are dropped.
   */
  function JavaSplit(s: string, sep: string): (r: seq<string>)
    requires |sep| > 0
  {
    if !Contains(s, sep) then [s] else DropTrailingEmpty(SplitAll(s, sep))
  }

  /** A text without the separator character does not contain it. */
  lemma NoSeparator(x: string, c: char)
    requires c !in x
    ensures IndexOf(x, [c]) < 0
  {
    OccursAtChar(x, c);
  }

  /** The first separator of `x + [c] + rest` is the one after `x` when `x` has none. */
  lemma FirstSeparator(x: string, rest: string, c: char)
    requires c !in x
    ensures IndexOf(x + [c] + rest, [c]) == |x|
  {
    var s := x + [c] + rest;
    OccursAtChar(s, c);
    assert s[|x|] == c;
    assert forall k :: 0 <= k < |x| ==> s[k] == x[k] && s[k] != c;
  }

  /** Splitting a join of pieces free of the separator character gives the pieces back. */
  lemma {:induction false} SplitJoin(xs: seq<string>, c: char)
    requires xs != [] && forall i :: 0 <= i < |xs| ==> c !in xs[i]
    ensures SplitAll(Join(xs, [c]), [c]) == xs
    ensures |xs| >= 2 <==> Contains(Join(xs, [c]), [c])
    decreases |xs|
  {
    if |xs| == 1 {
      NoSeparator(xs[0], c);
    } else {
      var rest := Join(xs[1..], [c]);
      assert Join(xs, [c]) == xs[0] + [c] + rest;
      FirstSeparator(xs[0], rest, c);
      SplitJoin(xs[1..], c);
      var s := xs[0] + [c] + rest;
      assert s[..|xs[0]|] == xs[0];
      assert s[|xs[0]| + 1..] == rest;
    }
  }

  /** Java's split undoes a join when no piece holds the separator and the last piece is not empty. */
  lemma JavaSplitJoin(xs: seq<string>, c: char)
    requires xs != [] && xs[|xs| - 1] != [] && forall i :: 0 <= i < |xs| ==> c !in xs[i]
    ensures JavaSplit(Join(xs, [c]), [c]) == xs
  {
    SplitJoin(xs, c);
  }

  /** An API path "/api/<area>/<section>/<x>" splits at '/' into its five pieces. */
  lemma ApiPathPieces(area: string, section: string, x: string)
    requires '/' !in area && '/' !in section && '/' !in x && x != []
    ensures JavaSplit("/api/" + area + "/" + section + "/" + x, "/") == ["", "api", area, section, x]
  {
    var x4: seq<string> := [x];
    var x3 := [section] + x4;
    var x2 := [area] + x3;
    var x1 := ["api"] + x2;
    var xs := [""] + x1;
    assert x3[1..] == x4 && x2[1..] == x3 && x1[1..] == x2 && xs[1..] == x1;
    assert Join(x3, "/") == section + "/" + x;
    assert Join(x2, "/") == area + "/" + section + "/" + x;
    assert Join(x1, "/") == "api/" + area + "/" + section + "/" + x;
    assert Join(xs, "/") == "/api/" + area + "/" + section + "/" + x;
    JavaSplitJoin(xs, '/');
  }

  /** JavaScript `s.substr(start, length)` for a non-negative start and length. */
  function JsSubstr(s: string, start: nat, length: nat): (r: string)
    ensures |r| <= length
    ensures start <= |s| ==> r == s[start..if start + length <= |s| then start + length else |s|]
    ensures start >= |s| ==> r == []
  {
    if start >= |s| then [] else if start + length >= |s| then s[start..] else s[start..start + length]
  }

  /** Java `String.split(sep, 2)`: the text before the first separator and everything after it. */
  function SplitFirst(s: string, sep: string): (r: seq<string>)
    ensures 1 <= |r| <= 2
    ensures |r| == 1 <==> IndexOf(s, sep) < 0
  {
    var i := IndexOf(s, sep);
    if i < 0 then [s] else [s[..i], s[i + |sep|..]]
  }

  // ---------------------------------------------------------------------------
  // Numbers

  const LongMin: int := -0x8000_0000_0000_0000
  const LongMax: int := 0x7FFF_FFFF_FFFF_FFFF
  const IntMin: int := -0x8000_0000
  const IntMax: int := 0x7FFF_FFFF

  function DigitValue(c: char): nat requires IsDigit(c) { c as int - '0' as int }

  /** The value of a string of decimal digits, most significant first. */
  function DigitsValue(s: string): nat
    requires All(s, IsDigit)
  {
    if s == [] then 0 else DigitsValue(s[..|s| - 1]) * 10 + DigitValue(s[|s| - 1])
  }

  /** Optional sign, then one or more ASCII digits; the value, or None. */
  function ParseInteger(s: string): (r: Option<int>)
    ensures r.Some? ==> |s| > 0
  {
    if s == [] then None
    else
      var neg := s[0] == '-';
      var body := if s[0] == '-' || s[0] == '+' then s[1..] else s;
      if body == [] || !All(body, IsDigit) then None
      else Some(if neg then 0 - DigitsValue(body) as int else DigitsValue(body) as int)
  }

  /** Java `Long.parseLong`: None stands for NumberFormatException. */
  function ParseLong(s: string): (r: Option<int>)
    ensures r.Some? ==> LongMin <= r.value <= LongMax
  {
    var v := ParseInteger(s);
    if v.Some? && LongMin <= v.value <= LongMax then v else None
  }

  /** Java `Integer.parseInt`: None stands for NumberFormatException. */
  function ParseInt(s: string): (r: Option<int>)
    ensures r.Some? ==> IntMin <= r.value <= IntMax
  {
    var v := ParseInteger(s);
    if v.Some? && IntMin <= v.value <= IntMax then v else None
  }

  /** Decimal rendering of an integer (Java string concatenation of an int or long). */
  function IntToString(n: int): (r: string)
    ensures |r| >= 1
    ensures n >= 0 ==> r == NatToString(n)
    ensures n < 0 ==> r == "-" + NatToString(-n)
  {
    if n >= 0 then NatToString(n) else "-" + NatToString(-n)
  }

  /** Decimal rendering of a natural number (Java `String.valueOf` on a non-negative int). */
  function NatToString(n: nat): (r: string)
    ensures |r| >= 1 && All(r, IsDigit)
    ensures DigitsValue(r) == n
  {
    if n < 10 then [('0' as int + n) as char]
    else
      var r := NatToString(n / 10) + [('0' as int + n % 10) as char];
      assert r[..|r| - 1] == NatToString(n / 10);
      r
  }

  function Pow10(k: nat): (r: nat)
    ensures r >= 1
  {
    if k == 0 then 1 else 10 * Pow10(k - 1)
  }

  /** A number with k + 1 decimal digits is rendered with k + 1 characters. */
  lemma {:induction false} NatToStringLength(n: nat, k: nat)
    requires Pow10(k) <= n < Pow10(k + 1)
    ensures |NatToString(n)| == k + 1
    decreases k
  {
    if k > 0 {
      assert Pow10(k) == 10 * Pow10(k - 1);
      assert Pow10(k + 1) == 10 * Pow10(k);
      NatToStringLength(n / 10, k - 1);
    }
  }

  /** A rendered natural number parses back to itself. */
  lemma ParseNatToString(n: nat)
    ensures ParseInteger(NatToString(n)) == Some(n)
    ensures n <= LongMax ==> ParseLong(NatToString(n)) == Some(n)
  {
    var r := NatToString(n);
    assert IsDigit(r[0]);
  }
}
