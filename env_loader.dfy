// The `.env` loader (util/EnvLoader.java): the file is read line by line into
// a map, and lookups consult that map before the process environment. Finding
// the file is a parameter (None when no directory up the tree has one), as is
// an IOException raised after some lines were read; the process environment
// is a function from names to optional values.
module EnvLoader {
  import opened Wrappers
  import opened JavaStrings
  import opened ResultModel

  const NotFound: string := ".env file not found in current or parent directories"
  const LoadFailed: string := "Failed to load .env: "
  /** What `substring(1, 0)` throws on a value that is a lone double quote. */
  const SubstringFailure: string := "StringIndexOutOfBoundsException"

  /** The line is skipped: blank, a comment, or no '=' after its first character. */
  predicate Skipped(raw: string)
  {
    var line := Trim(raw);
    line == [] || line[0] == '#' || IndexOfChar(line, '=') <= 0
  }

  /** The trimmed text before the first '=' of a line that is not skipped. */
  function Key(raw: string): string
    requires !Skipped(raw)
  {
    var line := Trim(raw);
    Trim(line[..IndexOfChar(line, '=')])
  }

  /** The trimmed text after the first '=' of a line that is not skipped. */
  function RawValue(raw: string): string
    requires !Skipped(raw)
  {
    var line := Trim(raw);
    Trim(line[IndexOfChar(line, '=') + 1..])
  }

  /** `val.startsWith("\"") && val.endsWith("\"")`. */
  predicate Quoted(val: string)
  {
    val != [] && val[0] == '"' && val[|val| - 1] == '"'
  }

  /** One pair of surrounding quotes is dropped; a lone quote makes `substring(1, 0)` throw. */
  function Unquote(val: string): (r: Outcome<string>)
    ensures r.Threw? <==> val == "\""
    ensures !Quoted(val) ==> r == Returned(val)
    ensures Quoted(val) && r.Returned? ==> "\"" + r.value + "\"" == val
  {
    if Quoted(val) then
      if |val| < 2 then Threw(SubstringFailure) else Returned(val[1..|val| - 1])
    else Returned(val)
  }

  /** One line of the file: skipped, or a key and its value, or the exception `Unquote` throws. */
  function ParseLine(raw: string): (r: Outcome<Option<(string, string)>>)
    ensures r == Returned(None) <==> Skipped(raw)
    ensures r.Threw? <==> !Skipped(raw) && RawValue(raw) == "\""
  {
    if Skipped(raw) then Returned(None)
    else
      match Unquote(RawValue(raw))
      case Threw(e) => Threw(e)
      case Returned(v) => Returned(Some((Key(raw), v)))
  }

  /** What one line contributes to the map. */
  type Entry = Outcome<Option<(string, string)>>

  /** Each line parsed on its own. */
  function Parsed(lines: seq<string>): (r: seq<Entry>)
    ensures |r| == |lines| && forall i :: 0 <= i < |lines| ==> r[i] == ParseLine(lines[i])
  {
    seq(|lines|, i requires 0 <= i < |lines| => ParseLine(lines[i]))
  }

  /** The entry sets `key`. */
  predicate Sets(e: Entry, key: string)
  {
    e.Returned? && e.value.Some? && e.value.value.0 == key
  }

  /**
   * The map after putting the entries into `env` in order, and whether one
   * threw; a throw stops the loop with the entries put so far.
   */
  function Feed(env: map<string, string>, entries: seq<Entry>): (Outcome<()>, map<string, string>)
  {
    if entries == [] then (Returned(()), env)
    else
      var (o, m) := Feed(env, entries[..|entries| - 1]);
      if o.Threw? then (o, m)
      else
        match entries[|entries| - 1]
        case Threw(e) => (Threw(e), m)
        case Returned(None) => (o, m)
        case Returned(Some((k, v))) => (o, m[k := v])
  }

  /**
   * `loadDotEnv`: a missing file only records the load error; otherwise the
   * lines are fed in, and an IOException records its message while keeping
   * what was read. An exception from a line propagates.
   */
  function Load(env: map<string, string>, loadError: Option<string>, file: Option<seq<string>>,
                readError: Option<string>): (Outcome<()>, map<string, string>, Option<string>)
  {
    if file.None? then (Returned(()), env, Some(NotFound))
    else
      var (o, m) := Feed(env, Parsed(file.value));
      if o.Threw? then (o, m, loadError)
      else if readError.Some? then (o, m, Some(LoadFailed + readError.value))
      else (o, m, loadError)
  }

  const Prefix: string := "Environment variable '"

  /** `get`: the `.env` map first, then the process environment, else an error naming the key. */
  function GetValue(env: map<string, string>, loadError: Option<string>, systemEnv: string -> Option<string>,
                    key: string): (r: Result<string, string>)
    ensures key in env ==> r == Ok(env[key])
    ensures key !in env && systemEnv(key).Some? ==> r == Ok(systemEnv(key).value)
    ensures r.Err? <==> key !in env && systemEnv(key).None?
  {
    if key in env then Ok(env[key])
    else if systemEnv(key).Some? then Ok(systemEnv(key).value)
    else if loadError.Some? then Err(Prefix + key + "' not found (" + loadError.value + ")")
    else Err(Prefix + key + "' not found")
  }

  // ---------------------------------------------------------------------------
  // Properties

  /** A line made of a plain key, '=' and a value that does not start or end with a space splits there. */
  lemma SplitsAtEquals(key: string, rest: string)
    requires key != [] && Trim(key) == key && '=' !in key && key[0] != '#'
    requires rest != [] && !IsTrimSpace(rest[0]) && !IsTrimSpace(rest[|rest| - 1])
    ensures !Skipped(key + "=" + rest) && Key(key + "=" + rest) == key && RawValue(key + "=" + rest) == rest
  {
    var line := key + "=" + rest;
    assert key[0] != ' ' by { assert Trim(key)[0] == key[0]; }
    TrimKeeps(line);
    assert IndexOfChar(line, '=') == |key| by {
      assert line[|key|] == '=';
      assert line[..|key|] == key;
    }
    assert !Skipped(line);
    assert line[..|key|] == key;
    assert line[|key| + 1..] == rest;
    TrimKeeps(rest);
  }

  /**
   * A line `key="value"` gives back exactly that key and value, whatever the
   * value holds (an '=' or a quote included), for a key that is non-empty,
   * trimmed, free of '=' and not a comment.
   */
  lemma QuotedPairRoundTrip(key: string, value: string)
    requires key != [] && Trim(key) == key && '=' !in key && key[0] != '#'
    ensures ParseLine(key + "=" + ("\"" + value + "\"")) == Returned(Some((key, value)))
  {
    var quoted := "\"" + value + "\"";
    SplitsAtEquals(key, quoted);
    assert quoted[1..|quoted| - 1] == value;
    assert Unquote(quoted) == Returned(value);
  }

  /** A value that is one double quote makes the line throw. */
  lemma LoneQuoteThrows(key: string)
    requires key != [] && Trim(key) == key && '=' !in key && key[0] != '#'
    ensures ParseLine(key + "=" + "\"") == Threw(SubstringFailure)
  {
    SplitsAtEquals(key, "\"");
  }

  /** A feed that finishes without throwing finished every shorter prefix without throwing too. */
  lemma FeedPrefixReturned(env: map<string, string>, entries: seq<Entry>)
    requires entries != [] && Feed(env, entries).0.Returned?
    ensures Feed(env, entries[..|entries| - 1]).0.Returned?
  {
  }

  /** Once a line throws, the lines after it are never read. */
  lemma {:induction false} ThrowStops(env: map<string, string>, entries: seq<Entry>, n: nat)
    requires n <= |entries| && Feed(env, entries[..n]).0.Threw?
    ensures Feed(env, entries) == Feed(env, entries[..n])
    decreases |entries| - n
  {
    if n < |entries| {
      assert entries[..|entries| - 1][..n] == entries[..n];
      ThrowStops(env, entries[..|entries| - 1], n);
    } else {
      assert entries[..n] == entries;
    }
  }

  /** Later duplicate keys overwrite: the last line that sets a key decides its value. */
  lemma {:induction false} LastAssignmentWins(env: map<string, string>, entries: seq<Entry>, j: nat, key: string, value: string)
    requires Feed(env, entries).0.Returned?
    requires j < |entries| && entries[j] == Returned(Some((key, value)))
    requires forall i :: j < i < |entries| ==> !Sets(entries[i], key)
    ensures key in Feed(env, entries).1 && Feed(env, entries).1[key] == value
  {
    var init := entries[..|entries| - 1];
    FeedPrefixReturned(env, entries);
    if j < |entries| - 1 {
      assert init[j] == entries[j];
      assert forall i :: j < i < |init| ==> init[i] == entries[i];
      LastAssignmentWins(env, init, j, key, value);
      assert !Sets(entries[|entries| - 1], key);
    }
  }

  /** A key no line sets keeps whatever the map held before. */
  lemma {:induction false} UnassignedKeyKept(env: map<string, string>, entries: seq<Entry>, key: string)
    requires forall i :: 0 <= i < |entries| ==> !Sets(entries[i], key)
    ensures (key in Feed(env, entries).1 <==> key in env)
    ensures key in env ==> Feed(env, entries).1[key] == env[key]
  {
    if entries != [] {
      var init := entries[..|entries| - 1];
      assert forall i :: 0 <= i < |init| ==> init[i] == entries[i];
      UnassignedKeyKept(env, init, key);
      assert !Sets(entries[|entries| - 1], key);
    }
  }

  /** The lookup error names the key and, when loading failed, the load error. */
  lemma GetErrorMentionsLoadError(env: map<string, string>, loadError: Option<string>,
                                  systemEnv: string -> Option<string>, key: string)
    requires key !in env && systemEnv(key).None?
    ensures var r := GetValue(env, loadError, systemEnv, key);
      r.Err?
      && StartsWith(r.error, Prefix + key + "' not found")
      && (loadError.Some? <==> EndsWith(r.error, ")"))
      && (loadError.Some? ==> EndsWith(r.error, " (" + loadError.value + ")"))
  {
    var head := Prefix + key + "' not found";
    if loadError.Some? {
      var tail := " (" + loadError.value + ")";
      assert Prefix + key + "' not found (" + loadError.value + ")" == head + tail;
      assert (head + tail)[..|head|] == head;
      assert (head + tail)[|head + tail| - |tail|..] == tail;
    } else {
      assert head[..|head|] == head;
      assert head[|head| - 1] == 'd';
    }
  }

  /** The statements of the read loop's body for one line, up to the `put`. */
  method ReadEntry(raw: string) returns (entry: Entry)
    ensures entry == ParseLine(raw)
  {
    var line := Trim(raw);
    if line == [] || line[0] == '#' {
      return Returned(None);
    }
    var idx := IndexOfChar(line, '=');
    if idx <= 0 {
      return Returned(None);
    }
    var key := Trim(line[..idx]);
    var val := Trim(line[idx + 1..]);
    assert !Skipped(raw) && key == Key(raw) && val == RawValue(raw);
    if val != [] && val[0] == '"' && val[|val| - 1] == '"' {
      if |val| < 2 {
        return Threw(SubstringFailure);
      }
      val := val[1..|val| - 1];
    }
    return Returned(Some((key, val)));
  }

  /** The loaded variables and the load error, as the class's static state. */
  class EnvLoader {
    var env: map<string, string>
    var loadError: Option<string>

    constructor()
      ensures env == map[] && loadError == None
    {
      env := map[];
      loadError := None;
    }

    /**
     * `loadDotEnv`. The body of the read loop is `ReadEntry`; the loop puts
     * what each line gives, and stops at the first line that throws.
     */
    method LoadDotEnv(file: Option<seq<string>>, readError: Option<string>) returns (r: Outcome<()>)
      modifies this
      ensures (r, env, loadError) == Load(old(env), old(loadError), file, readError)
    {
      if file.None? {
        loadError := Some(NotFound);
        return Returned(());
      }
      var lines := file.value;
      ghost var parsed := Parsed(lines);
      var i := 0;
      while i < |lines|
        invariant 0 <= i <= |lines|
        invariant Feed(old(env), parsed[..i]) == (Returned(()), env)
        invariant loadError == old(loadError)
      {
        assert parsed[..i + 1][..i] == parsed[..i];
        var entry := ReadEntry(lines[i]);
        match entry {
          case Threw(e) =>
            ThrowStops(old(env), parsed, i + 1);
            return Threw(e);
          case Returned(None) =>
          case Returned(Some((key, val))) =>
            env := env[key := val];
        }
        i := i + 1;
      }
      assert parsed[..|lines|] == parsed;
      if readError.Some? {
        loadError := Some(LoadFailed + readError.value);
      }
      return Returned(());
    }

    method Get(key: string, systemEnv: string -> Option<string>) returns (r: Result<string, string>)
      ensures r == GetValue(env, loadError, systemEnv, key)
    {
      if key in env {
        return Ok(env[key]);
      }
      var v := systemEnv(key);
      if v.Some? {
        return Ok(v.value);
      }
      if loadError.Some? {
        return Err(Prefix + key + "' not found (" + loadError.value + ")");
      }
      return Err(Prefix + key + "' not found");
    }
  }
}
