// The JSON helpers each controller carries a private copy of. `parseJson`:
// trim, strip one pair of braces, cut into parts, and put each part's
// key:value pair into a map; ManagementController cuts only at commas outside
// quotes, AdminController and DriverController at every comma. `escapeJson`:
// the chained replacements that make a text safe inside a JSON string.
module JsonHelpers {
  import opened Wrappers
  import opened JavaStrings

  /** A response as `respondJson` sends it: the status code and the JSON body. */
  datatype Reply = Reply(status: int, body: string)

  /** The body of an error reply, with the message put in as it is. */
  function ErrorBody(errorMsg: string): string
  {
    "{\"error\":\"" + errorMsg + "\"}"
  }

  /** The text after trimming and dropping one leading '{' and one trailing '}'. */
  function Unbraced(s: string): string
  {
    var t := Trim(s);
    var u := if StartsWith(t, "{") then t[1..] else t;
    if EndsWith(u, "}") then u[..|u| - 1] else u
  }

  /** Trimmed, with every double quote removed. */
  function Clean(x: string): (r: string)
    ensures '"' !in r
  {
    ReplaceChar(Trim(x), '"', "")
  }

  /** The pair a part contributes: split at its first ':', which must not be at index 0. */
  function Pair(p: string): (r: Option<(string, string)>)
    ensures r.Some? <==> IndexOfChar(p, ':') > 0
  {
    var idx := IndexOfChar(p, ':');
    if idx <= 0 then None else Some((Clean(p[..idx]), Clean(p[idx + 1..])))
  }

  /** The pair of each part, in order. */
  function Pairs(parts: seq<string>): (r: seq<Option<(string, string)>>)
    ensures |r| == |parts| && forall i :: 0 <= i < |parts| ==> r[i] == Pair(parts[i])
  {
    seq(|parts|, i requires 0 <= i < |parts| => Pair(parts[i]))
  }

  /** The map filled from the pairs in order, later keys overwriting earlier ones. */
  function Fields(pairs: seq<Option<(string, string)>>): map<string, string>
    decreases |pairs|
  {
    if pairs == [] then map[]
    else
      var before := Fields(pairs[..|pairs| - 1]);
      match pairs[|pairs| - 1]
      case None => before
      case Some((k, v)) => before[k := v]
  }

  /** Every entry comes from one of the pairs. */
  lemma {:induction false} FieldsComeFromPairs(pairs: seq<Option<(string, string)>>)
    ensures forall k :: k in Fields(pairs) ==> exists i :: 0 <= i < |pairs| && pairs[i] == Some((k, Fields(pairs)[k]))
    decreases |pairs|
  {
    if pairs != [] {
      var init := pairs[..|pairs| - 1];
      FieldsComeFromPairs(init);
      assert forall i :: 0 <= i < |init| ==> init[i] == pairs[i];
    }
  }

  /** The loop over the parts, putting each key:value pair into the map. */
  method FillFields(parts: seq<string>) returns (m: map<string, string>)
    ensures m == Fields(Pairs(parts))
  {
    m := map[];
    ghost var pairs := Pairs(parts);
    for j := 0 to |parts|
      invariant m == Fields(pairs[..j])
    {
      assert pairs[..j + 1][..j] == pairs[..j];
      var pair := ReadPair(parts[j]);
      if pair.Some? {
        m := m[pair.value.0 := pair.value.1];
      }
    }
    assert pairs[..|parts|] == pairs;
  }

  /** One iteration's body: the first ':' and the cleaned text on either side. */
  method ReadPair(p: string) returns (pair: Option<(string, string)>)
    ensures pair == Pair(p)
  {
    var idx := IndexOfChar(p, ':');
    if idx <= 0 {
      return None;
    }
    var k := ReplaceChar(Trim(p[..idx]), '"', "");
    var v := ReplaceChar(Trim(p[idx + 1..]), '"', "");
    return Some((k, v));
  }

  /** A quoted text without inner quotes is cleaned back to its inside. */
  lemma CleanQuoted(x: string)
    requires '"' !in x
    ensures Clean("\"" + x + "\"") == x
  {
    var q := "\"";
    TrimKeeps(q + x + q);
    ReplaceCharAppend(q + x, q, '"', "");
    ReplaceCharAppend(q, x, '"', "");
    ReplaceCharAbsent(x, '"', "");
    ReplaceCharSingle('"', '"', "");
  }

  /** Trimming and brace-stripping give back what was wrapped in braces. */
  lemma UnbracedKeeps(body: string)
    ensures Unbraced("{" + body + "}") == body
  {
    var t := "{" + body + "}";
    TrimKeeps(t);
    assert t[..1] == "{" && t[1..] == body + "}";
    var u := body + "}";
    assert u[|u| - 1..] == "}" && u[..|u| - 1] == body;
  }

  /** A quoted key without ':' and a quoted value: the pair is split at the colon between them. */
  lemma PairOfQuoted(k: string, v: string)
    requires '"' !in k && ':' !in k && '"' !in v
    ensures Pair("\"" + k + "\":\"" + v + "\"") == Some((k, v))
  {
    var body := "\"" + k + "\":\"" + v + "\"";
    assert forall j :: 0 <= j < |k| + 2 ==> body[j] != ':' by {
      forall j | 0 <= j < |k| + 2
        ensures body[j] != ':'
      {
        if 1 <= j <= |k| {
          assert body[j] == k[j - 1];
        }
      }
    }
    IndexOfCharAt(body, ':', |k| + 2);
    assert body[..|k| + 2] == "\"" + k + "\"";
    assert body[|k| + 3..] == "\"" + v + "\"";
    CleanQuoted(k);
    CleanQuoted(v);
  }

  /** The last pair that sets a key decides its value. */
  lemma {:induction false} LastPairWins(pairs: seq<Option<(string, string)>>, i: int, k: string, v: string)
    requires 0 <= i < |pairs| && pairs[i] == Some((k, v))
    requires forall j :: i < j < |pairs| ==> pairs[j].None? || pairs[j].value.0 != k
    ensures k in Fields(pairs) && Fields(pairs)[k] == v
    decreases |pairs|
  {
    if i < |pairs| - 1 {
      var init := pairs[..|pairs| - 1];
      assert init[i] == pairs[i];
      assert forall j :: i < j < |init| ==> init[j] == pairs[j];
      LastPairWins(init, i, k, v);
    }
  }

  /** The body split at every comma, as `s.split(",")` does. */
  function CommaSplitJson(s: Option<string>): (r: map<string, string>)
    ensures s.None? ==> r == map[]
  {
    if s.None? then map[] else Fields(Pairs(JavaSplit(Unbraced(s.value), ",")))
  }

  /** One quoted pair without commas, colons or quotes inside reads back as itself. */
  lemma CommaSplitSinglePair(k: string, v: string)
    requires '"' !in k && ':' !in k && ',' !in k
    requires '"' !in v && ',' !in v
    ensures CommaSplitJson(Some("{\"" + k + "\":\"" + v + "\"}")) == map[k := v]
  {
    WrappedQuoted(k, v);
    QuotedPairNoComma(k, v);
    NoSeparator("\"" + k + "\":\"" + v + "\"", ',');
    PairOfQuoted(k, v);
    OneField(k, v);
  }

  /** Trimming and brace-stripping a braced quoted pair give the pair back. */
  lemma WrappedQuoted(k: string, v: string)
    ensures Unbraced("{\"" + k + "\":\"" + v + "\"}") == "\"" + k + "\":\"" + v + "\""
  {
    var body := "\"" + k + "\":\"" + v + "\"";
    calc {
      Unbraced("{\"" + k + "\":\"" + v + "\"}");
      { assert "{\"" + k + "\":\"" + v + "\"}" == "{" + body + "}"; }
      Unbraced("{" + body + "}");
      { UnbracedKeeps(body); }
      body;
    }
  }

  /** One pair fills a one-entry map. */
  lemma OneField(k: string, v: string)
    ensures Fields([Some((k, v))]) == map[k := v]
  {
    assert [Some((k, v))][..0] == [];
  }

  lemma QuotedPairNoComma(k: string, v: string)
    requires ',' !in k && ',' !in v
    ensures ',' !in "\"" + k + "\":\"" + v + "\""
  {
    var body := "\"" + k + "\":\"" + v + "\"";
    forall i | 0 <= i < |body|
      ensures body[i] != ','
    {
      if 1 <= i <= |k| {
        assert body[i] == k[i - 1];
      } else if |k| + 4 <= i < |k| + 4 + |v| {
        assert body[i] == v[i - |k| - 4];
      }
    }
  }

  /** The comma-splitting `parseJson`. */
  method ParseJsonAtCommas(s: Option<string>) returns (m: map<string, string>)
    ensures m == CommaSplitJson(s)
  {
    if s.None? {
      return map[];
    }
    var text := Unbraced(s.value);
    m := FillFields(JavaSplit(text, ","));
  }

  /** A quoted text whose only quote is the opening one is cleaned to what follows it. */
  lemma CleanOpenQuote(x: string)
    requires '"' !in x && (x == [] || !IsTrimSpace(x[|x| - 1]))
    ensures Clean("\"" + x) == x
  {
    var q := "\"";
    TrimKeeps(q + x);
    ReplaceCharAppend(q, x, '"', "");
    ReplaceCharAbsent(x, '"', "");
    ReplaceCharSingle('"', '"', "");
  }

  lemma SplitTwo(first: string, second: string)
    requires ',' !in first && ',' !in second && second != []
    ensures JavaSplit(first + "," + second, ",") == [first, second]
  {
    assert Join([first, second], [',']) == first + "," + second;
    JavaSplitJoin([first, second], ',');
  }

  /** A quoted key, a colon and an opening quote before the value: split at that colon. */
  lemma PairOfOpenQuoted(k: string, a: string)
    requires '"' !in k && ':' !in k
    requires '"' !in a && (a == [] || !IsTrimSpace(a[|a| - 1]))
    ensures Pair("\"" + k + "\":\"" + a) == Some((k, a))
  {
    var first := "\"" + k + "\":\"" + a;
    assert forall j :: 0 <= j < |k| + 2 ==> first[j] != ':' by {
      forall j | 0 <= j < |k| + 2
        ensures first[j] != ':'
      {
        if 1 <= j <= |k| {
          assert first[j] == k[j - 1];
        }
      }
    }
    IndexOfCharAt(first, ':', |k| + 2);
    assert first[..|k| + 2] == "\"" + k + "\"";
    assert first[|k| + 3..] == "\"" + a;
    CleanQuoted(k);
    CleanOpenQuote(a);
  }

  /**
   * Splitting at every comma cuts a quoted value at its first comma: the key
   * keeps only the text before it, and the rest, having no ':', is dropped.
   */
  lemma CommaInValueIsCut(k: string, a: string, b: string)
    requires '"' !in k && ':' !in k && ',' !in k
    requires '"' !in a && ',' !in a && (a == [] || !IsTrimSpace(a[|a| - 1]))
    requires '"' !in b && ':' !in b && ',' !in b
    ensures CommaSplitJson(Some("{\"" + k + "\":\"" + a + "," + b + "\"}")) == map[k := a]
  {
    var first := "\"" + k + "\":\"" + a;
    var second := b + "\"";
    var body := first + "," + second;
    assert "{" + body + "}" == "{\"" + k + "\":\"" + a + "," + b + "\"}";
    UnbracedKeeps(body);
    SplitTwo(first, second);
    PairOfOpenQuoted(k, a);
    assert ':' !in second;
    TwoPartFields(first, second, k, a);
  }

  lemma TwoPartFields(first: string, second: string, k: string, a: string)
    requires Pair(first) == Some((k, a)) && Pair(second).None?
    ensures Fields(Pairs([first, second])) == map[k := a]
  {
    var one: seq<Option<(string, string)>> := [Some((k, a))];
    var two := one + [None];
    assert Pairs([first, second]) == two;
    assert Fields(one) == map[k := a] by {
      assert one[..0] == [];
    }
    assert two[..1] == one && two[1] == None;
  }


  // ---------------------------------------------------------------------------
  // escapeJson

  /** The replacements in their order: backslash first, then quote, newline, return and tab. */
  function EscapeChain(s: string): string
  {
    ReplaceChar(ReplaceChar(ReplaceChar(ReplaceChar(ReplaceChar(s, '\\', "\\\\"), '"', "\\\""), '\n', "\\n"), '\r', "\\r"), '\t', "\\t")
  }

  /** `escapeJson`: null becomes the empty text. */
  function EscapeJson(str: Option<string>): (r: string)
    ensures str.None? ==> r == []
    ensures '\n' !in r && '\r' !in r && '\t' !in r
  {
    if str.None? then [] else EscapeChain(str.value)
  }

  /** The five characters the chain replaces. */
  predicate Escapable(c: char) { c == '\\' || c == '"' || c == '\n' || c == '\r' || c == '\t' }

  predicate NothingToEscape(s: string) { forall i :: 0 <= i < |s| ==> !Escapable(s[i]) }

  lemma NothingToEscapeAppend(a: string, b: string)
    requires NothingToEscape(a) && NothingToEscape(b)
    ensures NothingToEscape(a + b)
  {
  }

  /** A text with none of the five characters the chain replaces is left as it is. */
  lemma EscapePlain(s: string)
    requires NothingToEscape(s)
    ensures EscapeJson(Some(s)) == s
  {
    ReplaceCharAbsent(s, '\\', "\\\\");
    ReplaceCharAbsent(s, '"', "\\\"");
    ReplaceCharAbsent(s, '\n', "\\n");
    ReplaceCharAbsent(s, '\r', "\\r");
    ReplaceCharAbsent(s, '\t', "\\t");
  }

  /** A text in two plain pieces is left as it is by the escaping. */
  lemma PlainPair(a: string, b: string, e: string)
    requires e == a + b && NothingToEscape(a) && NothingToEscape(b)
    ensures EscapeJson(Some(e)) == e
  {
    NothingToEscapeAppend(a, b);
    EscapePlain(e);
  }

  /** What each character becomes. */
  function EscapeChar(c: char): string
  {
    if c == '\\' then "\\\\"
    else if c == '"' then "\\\""
    else if c == '\n' then "\\n"
    else if c == '\r' then "\\r"
    else if c == '\t' then "\\t"
    else [c]
  }

  function EscapeEach(s: string): string
    decreases |s|
  {
    if s == [] then [] else EscapeChar(s[0]) + EscapeEach(s[1..])
  }

  lemma ChainAppend(a: string, b: string)
    ensures EscapeChain(a + b) == EscapeChain(a) + EscapeChain(b)
  {
    ReplaceCharAppend(a, b, '\\', "\\\\");
    var a1 := ReplaceChar(a, '\\', "\\\\");
    var b1 := ReplaceChar(b, '\\', "\\\\");
    ReplaceCharAppend(a1, b1, '"', "\\\"");
    var a2 := ReplaceChar(a1, '"', "\\\"");
    var b2 := ReplaceChar(b1, '"', "\\\"");
    ReplaceCharAppend(a2, b2, '\n', "\\n");
    var a3 := ReplaceChar(a2, '\n', "\\n");
    var b3 := ReplaceChar(b2, '\n', "\\n");
    ReplaceCharAppend(a3, b3, '\r', "\\r");
    var a4 := ReplaceChar(a3, '\r', "\\r");
    var b4 := ReplaceChar(b3, '\r', "\\r");
    ReplaceCharAppend(a4, b4, '\t', "\\t");
  }

  /** Replacements after the first leave an escape they produced alone. */
  lemma ChainAfter(x: string, from: nat)
    requires 1 <= from <= 5
    requires from <= 1 ==> '"' !in x
    requires from <= 2 ==> '\n' !in x
    requires from <= 3 ==> '\r' !in x
    requires from <= 4 ==> '\t' !in x
    ensures from == 1 ==> ReplaceChar(ReplaceChar(ReplaceChar(ReplaceChar(x, '"', "\\\""), '\n', "\\n"), '\r', "\\r"), '\t', "\\t") == x
    ensures from == 2 ==> ReplaceChar(ReplaceChar(ReplaceChar(x, '\n', "\\n"), '\r', "\\r"), '\t', "\\t") == x
    ensures from == 3 ==> ReplaceChar(ReplaceChar(x, '\r', "\\r"), '\t', "\\t") == x
    ensures from == 4 ==> ReplaceChar(x, '\t', "\\t") == x
  {
    if from <= 1 { ReplaceCharAbsent(x, '"', "\\\""); }
    if from <= 2 { ReplaceCharAbsent(x, '\n', "\\n"); }
    if from <= 3 { ReplaceCharAbsent(x, '\r', "\\r"); }
    if from <= 4 { ReplaceCharAbsent(x, '\t', "\\t"); }
  }

  lemma ChainSingle(c: char)
    ensures EscapeChain([c]) == EscapeChar(c)
  {
    ReplaceCharSingle(c, '\\', "\\\\");
    if c == '\\' {
      ChainAfter("\\\\", 1);
    } else {
      ReplaceCharSingle(c, '"', "\\\"");
      if c == '"' {
        ChainAfter("\\\"", 2);
      } else {
        ReplaceCharSingle(c, '\n', "\\n");
        if c == '\n' {
          ChainAfter("\\n", 3);
        } else {
          ReplaceCharSingle(c, '\r', "\\r");
          if c == '\r' {
            ChainAfter("\\r", 4);
          } else {
            ReplaceCharSingle(c, '\t', "\\t");
          }
        }
      }
    }
  }

  /** The chained replacements act character by character, as if in one pass. */
  lemma {:induction false} EscapeIsPerCharacter(s: string)
    ensures EscapeJson(Some(s)) == EscapeEach(s)
    decreases |s|
  {
    if s == [] {
    } else {
      EscapeIsPerCharacter(s[1..]);
      assert s == [s[0]] + s[1..];
      ChainAppend([s[0]], s[1..]);
      ChainSingle(s[0]);
    }
  }

  /** A JSON string body decoded: the five escapes are undone; a raw quote or control character is malformed. */
  function Unescape(s: string): Option<string>
    decreases |s|
  {
    if s == [] then Some([])
    else if s[0] == '\\' then
      if |s| < 2 then None
      else
        var d := Escaped(s[1]);
        var rest := Unescape(s[2..]);
        if d.None? || rest.None? then None else Some([d.value] + rest.value)
    else if s[0] == '"' || s[0] < ' ' then None
    else
      var rest := Unescape(s[1..]);
      if rest.None? then None else Some([s[0]] + rest.value)
  }

  function Escaped(c: char): Option<char>
  {
    if c == '\\' then Some('\\')
    else if c == '"' then Some('"')
    else if c == 'n' then Some('\n')
    else if c == 'r' then Some('\r')
    else if c == 't' then Some('\t')
    else None
  }

  /** The control characters other than newline, return and tab, which the escaper leaves raw. */
  predicate OtherControl(c: char) { c < ' ' && c != '\n' && c != '\r' && c != '\t' }

  lemma DecodeOne(c: char, t: string)
    requires !OtherControl(c)
    ensures Unescape(EscapeChar(c) + t) == if Unescape(t).None? then None else Some([c] + Unescape(t).value)
  {
    var e := EscapeChar(c) + t;
    if |EscapeChar(c)| == 2 {
      assert e[0] == '\\' && e[2..] == t;
    } else {
      assert e[0] == c && e[1..] == t;
    }
  }

  /**
   * Decoding the escaped text gives the original back, for every text
   * without other control characters.
   */
  lemma {:induction false} EscapeRoundTrip(s: string)
    requires forall i :: 0 <= i < |s| ==> !OtherControl(s[i])
    ensures Unescape(EscapeJson(Some(s))) == Some(s)
    decreases |s|
  {
    EscapeIsPerCharacter(s);
    if s != [] {
      EscapeRoundTrip(s[1..]);
      EscapeIsPerCharacter(s[1..]);
      DecodeOne(s[0], EscapeEach(s[1..]));
      assert [s[0]] + s[1..] == s;
    }
  }

  /** Another control character passes through raw, so the result is not a valid JSON string body. */
  lemma OtherControlStaysRaw()
    ensures EscapeJson(Some([8 as char])) == [8 as char]
    ensures Unescape(EscapeJson(Some([8 as char]))).None?
  {
    ChainSingle(8 as char);
  }
}
