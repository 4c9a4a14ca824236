// The route-assignment endpoint of controllers/ManagementController.java and
// its helpers: the quote-aware body parser, the package-id list, the stop
// numbering and the session-token lookup. The session
// lookup, the database connection and the users/facilities tables are
// parameters; HTTP plumbing and the audit entries are not modelled.
module ManagementController {
  import opened Wrappers
  import opened JavaStrings
  import opened ResultModel
  import SessionManager
  import SmInputSanitizer
  import opened JsonHelpers

  // ---------------------------------------------------------------------------
  // parseJson: split on commas outside double quotes, then key:value pairs

  /** The scanner after a prefix: the finished parts, the part being built, and whether a quote is open. */
  datatype Scan = Scan(parts: seq<string>, current: string, inQuotes: bool)

  const Start: Scan := Scan([], [], false)

  /** One character of the loop: a quote toggles and is kept, a comma outside quotes ends a part. */
  function ScanChar(st: Scan, c: char): Scan
  {
    if c == '"' then st.(current := st.current + [c], inQuotes := !st.inQuotes)
    else if c == ',' && !st.inQuotes then Scan(st.parts + [st.current], [], st.inQuotes)
    else st.(current := st.current + [c])
  }

  function ScanFrom(st: Scan, s: string): Scan
    decreases |s|
  {
    if s == [] then st else ScanChar(ScanFrom(st, s[..|s| - 1]), s[|s| - 1])
  }

  /** The parts the loop produces; a last part is kept only when it is non-empty. */
  function Parts(s: string): seq<string>
  {
    var st := ScanFrom(Start, s);
    if st.current != [] then st.parts + [st.current] else st.parts
  }

  /** No key or value of the parsed map holds a double quote, and each comes from one part. */
  lemma ParsedFieldsAreClean(s: Option<string>)
    ensures forall k :: k in ParseJsonValue(s) ==> '"' !in k && '"' !in ParseJsonValue(s)[k]
    ensures s.Some? ==> var parts := Parts(Unbraced(s.value));
      forall k :: k in ParseJsonValue(s) ==>
        exists i :: 0 <= i < |parts| && Pair(parts[i]) == Some((k, ParseJsonValue(s)[k]))
  {
    if s.Some? {
      var pairs := Pairs(Parts(Unbraced(s.value)));
      FieldsComeFromPairs(pairs);
      forall k | k in Fields(pairs)
        ensures '"' !in k && '"' !in Fields(pairs)[k]
      {
        var i :| 0 <= i < |pairs| && pairs[i] == Some((k, Fields(pairs)[k]));
      }
    }
  }

  /** `parseJson`: a null body gives the empty map. */
  function ParseJsonValue(s: Option<string>): (r: map<string, string>)
    ensures s.None? ==> r == map[]
  {
    if s.None? then map[] else Fields(Pairs(Parts(Unbraced(s.value))))
  }

  /** `parseJson`: both loops, on the trimmed and unbraced body. */
  method ParseJson(s: Option<string>) returns (m: map<string, string>)
    ensures m == ParseJsonValue(s)
  {
    if s.None? {
      return map[];
    }
    var text := Unbraced(s.value);
    var parts := SplitParts(text);
    m := FillFields(parts);
  }

  /** The character loop toggling `inQuotes` and cutting at commas outside quotes. */
  method SplitParts(text: string) returns (parts: seq<string>)
    ensures parts == Parts(text)
  {
    parts := [];
    var current: string := [];
    var inQuotes := false;
    var i := 0;
    while i < |text|
      invariant 0 <= i <= |text|
      invariant Scan(parts, current, inQuotes) == ScanFrom(Start, text[..i])
    {
      var c := text[i];
      assert text[..i + 1][..i] == text[..i];
      if c == '"' {
        inQuotes := !inQuotes;
        current := current + [c];
      } else if c == ',' && !inQuotes {
        parts := parts + [current];
        current := [];
      } else {
        current := current + [c];
      }
      i := i + 1;
    }
    assert text[..i] == text;
    if |current| > 0 {
      parts := parts + [current];
    }
  }

  // Properties of parseJson

  lemma {:induction false} JoinSnoc(xs: seq<string>, a: string, sep: string)
    ensures Join(xs + [a], sep) == if xs == [] then a else Join(xs, sep) + sep + a
    decreases |xs|
  {
    if |xs| >= 2 {
      JoinSnoc(xs[1..], a, sep);
      assert (xs + [a])[1..] == xs[1..] + [a];
    } else if |xs| == 1 {
      assert (xs + [a])[1..] == [a];
    }
  }

  /** Extending the last part by one character extends the joined text by that character. */
  lemma ExtendLast(xs: seq<string>, a: string, c: char, sep: string)
    ensures Join(xs + [a + [c]], sep) == Join(xs + [a], sep) + [c]
  {
    JoinSnoc(xs, a + [c], sep);
    JoinSnoc(xs, a, sep);
  }

  /** The parts and the pending part, joined with commas, give back the scanned text: only separators are removed. */
  lemma {:induction false} ScanKeepsText(s: string)
    ensures var st := ScanFrom(Start, s); Join(st.parts + [st.current], ",") == s
    decreases |s|
  {
    if s != [] {
      var p := s[..|s| - 1];
      var c := s[|s| - 1];
      ScanKeepsText(p);
      var st := ScanFrom(Start, p);
      assert p + [c] == s;
      if c == ',' && !st.inQuotes {
        JoinSnoc(st.parts + [st.current], [], ",");
      } else {
        ExtendLast(st.parts, st.current, c, ",");
      }
    }
  }

  lemma {:induction false} ScanFromAppend(st: Scan, a: string, b: string)
    ensures ScanFrom(st, a + b) == ScanFrom(ScanFrom(st, a), b)
    decreases |b|
  {
    if b == [] {
      assert a + b == a;
    } else {
      ScanFromAppend(st, a, b[..|b| - 1]);
      assert (a + b)[..|a + b| - 1] == a + b[..|b| - 1];
    }
  }

  /** Text without quotes, read inside a quote or without commas, only extends the pending part. */
  lemma {:induction false} PlainText(st: Scan, v: string)
    requires '"' !in v && (st.inQuotes || ',' !in v)
    ensures ScanFrom(st, v) == st.(current := st.current + v)
    decreases |v|
  {
    if v == [] {
      assert st.current + v == st.current;
    } else {
      var p := v[..|v| - 1];
      PlainText(st, p);
      assert st.current + p + [v[|v| - 1]] == st.current + v;
    }
  }

  lemma QuoteToggles(st: Scan)
    ensures ScanFrom(st, "\"") == st.(current := st.current + "\"", inQuotes := !st.inQuotes)
  {
    assert "\""[..0] == [];
  }

  /** A quoted key, a colon and a quoted value, in any text without quotes: one part, nothing pending. */
  lemma QuotedPairIsOnePart(k: string, v: string)
    requires '"' !in k && '"' !in v
    ensures Parts("\"" + k + "\":\"" + v + "\"") == ["\"" + k + "\":\"" + v + "\""]
  {
    var q := "\"";
    var a1 := q;
    var a2 := a1 + k;
    var a3 := a2 + q;
    var a4 := a3 + ":";
    var a5 := a4 + q;
    var a6 := a5 + v;
    var a7 := a6 + q;
    assert a7 == "\"" + k + "\":\"" + v + "\"";
    assert ScanFrom(Start, a1) == Scan([], a1, true) by {
      QuoteToggles(Start);
    }
    assert ScanFrom(Start, a2) == Scan([], a2, true) by {
      ScanFromAppend(Start, a1, k);
      PlainText(Scan([], a1, true), k);
    }
    assert ScanFrom(Start, a3) == Scan([], a3, false) by {
      ScanFromAppend(Start, a2, q);
      QuoteToggles(Scan([], a2, true));
    }
    assert ScanFrom(Start, a4) == Scan([], a4, false) by {
      ScanFromAppend(Start, a3, ":");
      PlainText(Scan([], a3, false), ":");
    }
    assert ScanFrom(Start, a5) == Scan([], a5, true) by {
      ScanFromAppend(Start, a4, q);
      QuoteToggles(Scan([], a4, false));
    }
    assert ScanFrom(Start, a6) == Scan([], a6, true) by {
      ScanFromAppend(Start, a5, v);
      PlainText(Scan([], a5, true), v);
    }
    assert ScanFrom(Start, a7) == Scan([], a7, false) by {
      ScanFromAppend(Start, a6, q);
      QuoteToggles(Scan([], a6, true));
    }
  }

  /**
   * A body of one quoted key and one quoted value parses to exactly that pair,
   * whatever commas or colons the value holds: the comma-separated package
   * list sent by the management page arrives as a single value.
   */
  lemma QuotedPairRoundTrip(k: string, v: string)
    requires '"' !in k && ':' !in k && '"' !in v
    ensures ParseJsonValue(Some("{\"" + k + "\":\"" + v + "\"}")) == map[k := v]
  {
    WrappedQuoted(k, v);
    QuotedPairIsOnePart(k, v);
    PairOfQuoted(k, v);
    OneField(k, v);
  }

  /**
   * The same body read by this controller's quote-aware parser and by the
   * comma-splitting parser of the admin and driver controllers: a quoted value
   * with a comma survives here and is cut at the comma there.
   */
  lemma QuotedCommaSurvivesOnlyHere(k: string, a: string, b: string)
    requires '"' !in k && ':' !in k && ',' !in k
    requires '"' !in a && ',' !in a && (a == [] || !IsTrimSpace(a[|a| - 1]))
    requires '"' !in b && ':' !in b && ',' !in b
    ensures var t := "{\"" + k + "\":\"" + a + "," + b + "\"}";
      ParseJsonValue(Some(t)) == map[k := a + "," + b] && CommaSplitJson(Some(t)) == map[k := a]
  {
    assert "{\"" + k + "\":\"" + a + "," + b + "\"}" == "{\"" + k + "\":\"" + (a + "," + b) + "\"}";
    QuotedPairRoundTrip(k, a + "," + b);
    CommaInValueIsCut(k, a, b);
  }

  // ---------------------------------------------------------------------------
  // The package-id list

  /** One piece of the list: `Long.parseLong(idStr.trim())`. */
  function PieceId(piece: string): Option<int>
  {
    ParseLong(Trim(piece))
  }

  /** Each piece, trimmed, parsed as a long; one bad piece fails the whole list. */
  function ParseIds(pieces: seq<string>): Option<seq<int>>
    decreases |pieces|
  {
    if pieces == [] then Some([])
    else
      match ParseIds(pieces[..|pieces| - 1])
      case None => None
      case Some(ids) =>
        match PieceId(pieces[|pieces| - 1])
        case None => None
        case Some(id) => Some(ids + [id])
  }

  /** The list parses exactly when every piece does, and then holds each piece's number in order. */
  lemma {:induction false} ParseIdsMeaning(pieces: seq<string>)
    decreases |pieces|
    ensures ParseIds(pieces).Some? <==> forall i :: 0 <= i < |pieces| ==> PieceId(pieces[i]).Some?
    ensures ParseIds(pieces).Some? ==>
      |ParseIds(pieces).value| == |pieces| && forall i :: 0 <= i < |pieces| ==> ParseIds(pieces).value[i] == PieceId(pieces[i]).value
  {
    if pieces != [] {
      var init, last := pieces[..|pieces| - 1], pieces[|pieces| - 1];
      ParseIdsMeaning(init);
      assert forall i :: 0 <= i < |init| ==> init[i] == pieces[i];
      if ParseIds(init).None? {
        var k :| 0 <= k < |init| && PieceId(init[k]).None?;
        assert PieceId(pieces[k]).None?;
      } else if PieceId(last).None? {
        assert PieceId(pieces[|pieces| - 1]).None?;
      } else {
        assert pieces == init + [last];
        AppendedIds(ParseIds(init).value, PieceId(last).value, init, last);
      }
    }
  }

  lemma AppendedIds(ids: seq<int>, id: int, init: seq<string>, last: string)
    requires |ids| == |init| && PieceId(last) == Some(id)
    requires forall i :: 0 <= i < |init| ==> PieceId(init[i]).Some? && ids[i] == PieceId(init[i]).value
    ensures var pieces := init + [last];
      forall i :: 0 <= i < |pieces| ==> PieceId(pieces[i]).Some? && (ids + [id])[i] == PieceId(pieces[i]).value
  {
  }

  /** A null or blank value is the empty list; otherwise the comma-split pieces are parsed. */
  function PackageIdList(str: Option<string>): Option<seq<int>>
  {
    if str.None? || Trim(str.value) == [] then Some([]) else ParseIds(JavaSplit(str.value, ","))
  }

  /** The loop over `packageIdsStr.split(",")`; None stands for the NumberFormatException. */
  method PackageIds(str: Option<string>) returns (r: Option<seq<int>>)
    ensures r == PackageIdList(str)
  {
    var ids: seq<int> := [];
    if str.Some? && Trim(str.value) != [] {
      var pieces := JavaSplit(str.value, ",");
      for i := 0 to |pieces|
        invariant ParseIds(pieces[..i]) == Some(ids)
      {
        ParseIdsStep(pieces, i);
        var id := PieceId(pieces[i]);
        if id.None? {
          NoPrefixNoWhole(pieces, i + 1);
          return None;
        }
        ids := ids + [id.value];
      }
      assert pieces[..|pieces|] == pieces;
    }
    return Some(ids);
  }

  /** One more piece: its id is appended, or the list fails. */
  lemma ParseIdsStep(pieces: seq<string>, i: int)
    requires 0 <= i < |pieces|
    ensures var before := ParseIds(pieces[..i]);
      var id := PieceId(pieces[i]);
      ParseIds(pieces[..i + 1]) == if before.None? || id.None? then None else Some(before.value + [id.value])
  {
    assert pieces[..i + 1][..i] == pieces[..i];
    assert pieces[..i + 1][i] == pieces[i];
  }

  lemma NoPrefixNoWhole(pieces: seq<string>, n: int)
    requires 0 <= n <= |pieces| && ParseIds(pieces[..n]).None?
    ensures ParseIds(pieces).None?
  {
    ParseIdsMeaning(pieces[..n]);
    ParseIdsMeaning(pieces);
    var i :| 0 <= i < n && PieceId(pieces[..n][i]).None?;
    assert pieces[..n][i] == pieces[i];
  }

  /** The decimal renderings of a list of ids (what `Array.join(',')` writes for each). */
  function Rendered(ids: seq<nat>): (r: seq<string>)
    ensures |r| == |ids|
  {
    seq(|ids|, i requires 0 <= i < |ids| => NatToString(ids[i]))
  }

  /**
   * The comma-joined decimal ids that the management page sends parse back to
   * the same list: splitting, trimming and `Long.parseLong` undo the join.
   */
  lemma PackageIdsRoundTrip(ids: seq<nat>)
    requires ids != [] && forall i :: 0 <= i < |ids| ==> ids[i] <= LongMax
    ensures PackageIdList(Some(Join(Rendered(ids), ","))) == Some(ids)
  {
    var xs := Rendered(ids);
    var joined := Join(xs, ",");
    forall i | 0 <= i < |xs|
      ensures ',' !in xs[i] && xs[i] != [] && ParseLong(Trim(xs[i])) == Some(ids[i])
    {
      assert All(xs[i], IsDigit);
      TrimKeeps(xs[i]);
      ParseNatToString(ids[i]);
    }
    assert Trim(joined) != [] by {
      assert joined[0] == xs[0][0] by {
        if |xs| >= 2 {
          assert joined == xs[0] + "," + Join(xs[1..], ",");
        }
      }
      assert !IsTrimSpace(joined[0]);
    }
    assert JavaSplit(joined, ",") == xs by {
      JavaSplitJoin(xs, ',');
    }
    ParseIdsMeaning(xs);
    var r := ParseIds(xs);
    assert r.Some?;
    assert r.value == ids;
  }

  // ---------------------------------------------------------------------------
  // Stops

  datatype Stop = Stop(routeId: int, packageId: int, stopSequence: int)

  /** The route_packages rows: one per id, in list order, numbered from 1. */
  function Stops(routeId: int, packageIds: seq<int>): (r: seq<Stop>)
    decreases |packageIds|
  {
    if packageIds == [] then []
    else Stops(routeId, packageIds[..|packageIds| - 1]) + [Stop(routeId, packageIds[|packageIds| - 1], |packageIds|)]
  }

  /** Every stop belongs to the route, carries the id at its position, and is numbered by position from 1. */
  lemma {:induction false} StopsAreNumbered(routeId: int, packageIds: seq<int>)
    ensures |Stops(routeId, packageIds)| == |packageIds|
    ensures forall i :: 0 <= i < |packageIds| ==>
              Stops(routeId, packageIds)[i] == Stop(routeId, packageIds[i], i + 1)
    decreases |packageIds|
  {
    if packageIds != [] {
      var init := packageIds[..|packageIds| - 1];
      StopsAreNumbered(routeId, init);
      assert forall i :: 0 <= i < |init| ==> init[i] == packageIds[i];
    }
  }

  /** The loop over the package list that writes one stop row per id. */
  method StopRows(routeId: int, packageIds: seq<int>) returns (rows: seq<Stop>)
    ensures rows == Stops(routeId, packageIds)
  {
    rows := [];
    for i := 0 to |packageIds|
      invariant rows == Stops(routeId, packageIds[..i])
    {
      assert packageIds[..i + 1][..i] == packageIds[..i];
      rows := rows + [Stop(routeId, packageIds[i], i + 1)];
    }
    assert packageIds[..|packageIds|] == packageIds;
  }

  // ---------------------------------------------------------------------------
  // extractToken

  /** The token a cookie carries when its trimmed text, split at the first '=', is named exactly SESSION. */
  function CookieToken(cookie: string): Option<string>
  {
    var parts := SplitFirst(Trim(cookie), "=");
    if |parts| == 2 && parts[0] == "SESSION" then Some(parts[1]) else None
  }

  function CookieTokens(cookies: seq<string>): (r: seq<Option<string>>)
    ensures |r| == |cookies| && forall i :: 0 <= i < |cookies| ==> r[i] == CookieToken(cookies[i])
  {
    seq(|cookies|, i requires 0 <= i < |cookies| => CookieToken(cookies[i]))
  }

  /** The first token present, scanning from the front. */
  function FirstToken(tokens: seq<Option<string>>): (r: Option<string>)
    decreases |tokens|
    ensures r.None? <==> forall i :: 0 <= i < |tokens| ==> tokens[i].None?
    ensures r.Some? ==> exists i :: 0 <= i < |tokens| && tokens[i] == r
                                    && forall j :: 0 <= j < i ==> tokens[j].None?
  {
    if tokens == [] then None
    else if tokens[0].Some? then tokens[0]
    else
      var r := FirstToken(tokens[1..]);
      assert forall i :: 1 <= i < |tokens| ==> tokens[1..][i - 1] == tokens[i];
      r
  }

  /** `extractToken`: a "Bearer " Authorization header first, then the first SESSION cookie. */
  function Token(authHeader: Option<string>, cookieHeader: Option<string>): Option<string>
  {
    if authHeader.Some? && StartsWith(authHeader.value, "Bearer ") then Some(authHeader.value[7..])
    else if cookieHeader.None? then None
    else FirstToken(CookieTokens(JavaSplit(cookieHeader.value, ";")))
  }

  /** `extractToken`, with its loop over the cookies and early return. */
  method ExtractToken(authHeader: Option<string>, cookieHeader: Option<string>) returns (token: Option<string>)
    ensures token == Token(authHeader, cookieHeader)
  {
    if authHeader.Some? && StartsWith(authHeader.value, "Bearer ") {
      return Some(authHeader.value[7..]);
    }
    if cookieHeader.Some? {
      token := CookieLoop(JavaSplit(cookieHeader.value, ";"));
      return;
    }
    return None;
  }

  /** The loop over the cookies, returning at the first SESSION cookie. */
  method CookieLoop(cookies: seq<string>) returns (token: Option<string>)
    ensures token == FirstToken(CookieTokens(cookies))
  {
    ghost var tokens := CookieTokens(cookies);
    var i := 0;
    while i < |cookies|
      invariant 0 <= i <= |cookies|
      invariant FirstToken(tokens) == FirstToken(tokens[i..])
    {
      assert tokens[i..][1..] == tokens[i + 1..];
      var t := ReadCookie(cookies[i]);
      if t.Some? {
        return t;
      }
      i := i + 1;
    }
    return None;
  }

  /** One iteration's body: the trimmed cookie split once at '='. */
  method ReadCookie(cookie: string) returns (t: Option<string>)
    ensures t == CookieToken(cookie)
  {
    var parts := SplitFirst(Trim(cookie), "=");
    if |parts| == 2 && parts[0] == "SESSION" {
      return Some(parts[1]);
    }
    return None;
  }

  /** A "Bearer " header wins over any cookie, and the token is the rest of the header. */
  lemma BearerWins(auth: string, cookieHeader: Option<string>, t: string)
    requires auth == "Bearer " + t
    ensures Token(Some(auth), cookieHeader) == Some(t)
  {
    assert auth[..7] == "Bearer ";
    assert auth[7..] == t;
  }

  /**
   * A Cookie header holding only SESSION=<t> yields t, whatever '=' it holds,
   * when t has no ';' and no trailing blank.
   */
  lemma SessionCookieRoundTrip(t: string)
    requires ';' !in t && (t == [] || !IsTrimSpace(t[|t| - 1]))
    ensures Token(None, Some("SESSION=" + t)) == Some(t)
  {
    var c := "SESSION=" + t;
    assert ';' !in c by {
      forall i | 0 <= i < |c|
        ensures c[i] != ';'
      {
        if i >= 8 {
          assert c[i] == t[i - 8];
        }
      }
    }
    NoSemicolon(c);
    assert JavaSplit(c, ";") == [c];
    SessionCookieToken(t);
    assert CookieTokens([c]) == [Some(t)];
  }

  /** A SESSION cookie's token is everything after its first '='. */
  lemma SessionCookieToken(t: string)
    requires t == [] || !IsTrimSpace(t[|t| - 1])
    ensures CookieToken("SESSION=" + t) == Some(t)
  {
    var c := "SESSION=" + t;
    assert c == "SESSION" + ['='] + t;
    FirstSeparator("SESSION", t, '=');
    assert c[..7] == "SESSION" && c[8..] == t;
    assert SplitFirst(c, "=") == ["SESSION", t];
    TrimKeeps(c);
  }

  lemma NoSemicolon(x: string)
    requires ';' !in x
    ensures !Contains(x, ";")
  {
    OccursAtChar(x, ';');
  }

  // ---------------------------------------------------------------------------
  // handleAssignRoute

  const Unauthorized: Reply := Reply(401, "{\"error\":\"Unauthorized - Please log in\"}")
  const ManagerRequired: Reply := Reply(403, "{\"error\":\"Forbidden - Manager access required\"}")
  const MissingFields: Reply :=
    Reply(400, "{\"error\":\"driverId, facilityId, routeName, routeDate, and estimatedDurationMinutes are required\"}")
  const BadNumber: Reply := Reply(400, "{\"error\":\"Invalid number format\"}")
  const BadPackageIds: Reply := Reply(400, "{\"error\":\"Invalid package ID format\"}")
  const BadInput: Reply := Reply(400, "{\"error\":\"Invalid input format\"}")
  const ServerError: Reply := Reply(500, "{\"error\":\"Server error. Please try again later.\"}")
  const BadDriver: Reply := Reply(400, "{\"error\":\"Invalid driver ID\"}")
  const BadFacility: Reply := Reply(400, "{\"error\":\"Invalid facility ID\"}")
  const RouteNotCreated: Reply := Reply(500, "{\"error\":\"Failed to create route\"}")

  /** Only the exact roles manager and admin may assign routes. */
  predicate MayAssign(role: Option<string>)
  {
    role == Some("manager") || role == Some("admin")
  }

  /** The checked and sanitised request. */
  datatype Plan = Plan(driverId: int, facilityId: int, routeName: string, routeDate: string,
                       duration: int, vehicleId: string, packageIds: seq<int>)

  function Lookup(fields: map<string, string>, key: string): Option<string>
  {
    if key in fields then Some(fields[key]) else None
  }

  /** The five fields without which the request is refused. */
  predicate HasRequired(fields: map<string, string>)
  {
    "driverId" in fields && "facilityId" in fields && "routeName" in fields && "routeDate" in fields
    && "estimatedDurationMinutes" in fields
  }

  /** The session check: none at all is 401, a role other than manager or admin 403. */
  function Authorize(session: Result<SessionManager.Session, string>): (r: Option<Reply>)
    ensures r.None? <==> session.Ok? && MayAssign(session.value.role)
  {
    if session.Err? then Some(Unauthorized)
    else if !MayAssign(session.value.role) then Some(ManagerRequired)
    else None
  }

  /** The driver id, facility id, duration and package ids read from the body's fields. */
  datatype Numbers = Numbers(driverId: int, facilityId: int, duration: int, packageIds: seq<int>)

  function ReadNumbers(fields: map<string, string>): (r: Result<Numbers, Reply>)
    ensures r.Err? ==> r.error in {MissingFields, BadNumber, BadPackageIds}
  {
    if !HasRequired(fields) then Err(MissingFields)
    else
      var driverId := ParseLong(fields["driverId"]);
      var facilityId := ParseLong(fields["facilityId"]);
      var duration := ParseInt(fields["estimatedDurationMinutes"]);
      if driverId.None? || facilityId.None? || duration.None? then Err(BadNumber)
      else
        match PackageIdList(Lookup(fields, "packageIds"))
        case None => Err(BadPackageIds)
        case Some(packageIds) => Ok(Numbers(driverId.value, facilityId.value, duration.value, packageIds))
  }

  /** The route name, date and vehicle id through the sanitiser; an absent vehicle id is "". */
  function ReadTexts(fields: map<string, string>): (r: Result<(string, string, string), Reply>)
    requires HasRequired(fields)
    ensures r.Err? ==> r.error == BadInput
  {
    var name := SmInputSanitizer.SanitizeString(Some(fields["routeName"]));
    var date := SmInputSanitizer.SanitizeString(Some(fields["routeDate"]));
    var vehicle := if "vehicleId" in fields then SmInputSanitizer.SanitizeString(Some(fields["vehicleId"])) else Ok([]);
    if name.Err? || date.Err? || vehicle.Err? then Err(BadInput)
    else Ok((name.value, date.value, vehicle.value))
  }

  /** The checks before the database is reached, in the source's order; a refusal carries its reply. */
  function CheckRequest(session: Result<SessionManager.Session, string>, body: string): (r: Result<Plan, Reply>)
    ensures r.Err? ==> r.error.status in {400, 401, 403}
  {
    match Authorize(session)
    case Some(reply) => Err(reply)
    case None =>
      var fields := ParseJsonValue(Some(body));
      match ReadNumbers(fields)
      case Err(reply) => Err(reply)
      case Ok(n) =>
        match ReadTexts(fields)
        case Err(reply) => Err(reply)
        case Ok((name, date, vehicle)) =>
          Ok(Plan(n.driverId, n.facilityId, name, date, n.duration, vehicle, n.packageIds))
  }

  /** The tables the endpoint reads: each user's role, and the facility ids. */
  datatype Tables = Tables(roles: map<int, string>, facilities: set<int>)

  datatype Route = Route(name: string, facilityId: int, date: string, durationMinutes: int, totalStops: int, status: string)

  /** What a committed assignment writes: the route, its assignment, the packages sent out and the stops. */
  datatype Written = Written(routeId: int, route: Route, driverId: int, vehicleId: Option<string>,
                             outForDelivery: seq<int>, stops: seq<Stop>)

  function SuccessBody(routeId: int, driverId: int, count: nat): string
  {
    "{\"success\":true,\"message\":\"Route assigned successfully\",\"routeId\":" + IntToString(routeId)
    + ",\"driverId\":" + IntToString(driverId) + ",\"packageCount\":" + NatToString(count) + "}"
  }

  /**
   * `handleAssignRoute` from the session check on. `connection` is the
   * outcome of opening the database, `lookupFails` stands for an SQL error
   * in the first statements (the transaction is rolled back), and
   * `generatedKey` is the key the route insert returns, if any.
   */
  function AssignRoute(session: Result<SessionManager.Session, string>, body: string, connection: Result<(), string>,
                       lookupFails: bool, tables: Tables, generatedKey: Option<int>): (Reply, Option<Written>)
  {
    match CheckRequest(session, body)
    case Err(reply) => (reply, None)
    case Ok(plan) =>
      if connection.Err? || lookupFails then (ServerError, None)
      else if !(plan.driverId in tables.roles && tables.roles[plan.driverId] == "driver") then (BadDriver, None)
      else if plan.facilityId !in tables.facilities then (BadFacility, None)
      else if generatedKey.None? then (RouteNotCreated, None)
      else
        var routeId := generatedKey.value;
        var n := |plan.packageIds|;
        var route := Route(plan.routeName, plan.facilityId, plan.routeDate, plan.duration, n, "planned");
        var vehicle := if plan.vehicleId == [] then None else Some(plan.vehicleId);
        (Reply(201, SuccessBody(routeId, plan.driverId, n)),
         Some(Written(routeId, route, plan.driverId, vehicle, plan.packageIds, Stops(routeId, plan.packageIds))))
  }

  // Properties of handleAssignRoute

  /**
   * The refusals come in order (no session 401, wrong role 403, a missing
   * field 400), and a refused request writes nothing.
   */
  lemma RefusalOrder(session: Result<SessionManager.Session, string>, body: string, connection: Result<(), string>,
                     lookupFails: bool, tables: Tables, generatedKey: Option<int>)
    ensures var (reply, written) := AssignRoute(session, body, connection, lookupFails, tables, generatedKey);
      (session.Err? ==> reply == Unauthorized && written.None?)
      && (session.Ok? && !MayAssign(session.value.role) ==> reply == ManagerRequired && written.None?)
      && (session.Ok? && MayAssign(session.value.role)
          && !HasRequired(ParseJsonValue(Some(body)))
          ==> reply == MissingFields && written.None?)
      && (written.Some? <==> reply.status == 201)
  {
    CheckRefusals(session, body);
    WrittenIffCreated(session, body, connection, lookupFails, tables, generatedKey);
  }

  /** The checks before the database refuse in order: no session, then the role, then a missing field. */
  lemma CheckRefusals(session: Result<SessionManager.Session, string>, body: string)
    ensures session.Err? ==> CheckRequest(session, body) == Err(Unauthorized)
    ensures session.Ok? && !MayAssign(session.value.role) ==> CheckRequest(session, body) == Err(ManagerRequired)
    ensures session.Ok? && MayAssign(session.value.role) && !HasRequired(ParseJsonValue(Some(body)))
            ==> CheckRequest(session, body) == Err(MissingFields)
  {
    if session.Ok? && MayAssign(session.value.role) && !HasRequired(ParseJsonValue(Some(body))) {
      assert ReadNumbers(ParseJsonValue(Some(body))) == Err(MissingFields);
    }
  }

  /** Something is written exactly when the reply is 201. */
  lemma WrittenIffCreated(session: Result<SessionManager.Session, string>, body: string, connection: Result<(), string>,
                          lookupFails: bool, tables: Tables, generatedKey: Option<int>)
    ensures var (reply, written) := AssignRoute(session, body, connection, lookupFails, tables, generatedKey);
      written.Some? <==> reply.status == 201
  {
    var c := CheckRequest(session, body);
    if c.Err? {
      assert c.error.status in {400, 401, 403};
      assert AssignRoute(session, body, connection, lookupFails, tables, generatedKey) == (c.error, None);
    } else if connection.Err? || lookupFails {
      assert ServerError.status == 500;
    } else if !(c.value.driverId in tables.roles && tables.roles[c.value.driverId] == "driver") {
      assert BadDriver.status == 400;
    } else if c.value.facilityId !in tables.facilities {
      assert BadFacility.status == 400;
    } else if generatedKey.None? {
      assert RouteNotCreated.status == 500;
    }
  }

  /**
   * With the role and the required numbers in order, a non-blank package list
   * holding one piece that is not a long is refused before anything is written.
   */
  lemma BadPackageIdWritesNothing(session: Result<SessionManager.Session, string>, body: string,
                                  connection: Result<(), string>, lookupFails: bool, tables: Tables,
                                  generatedKey: Option<int>, i: int)
    requires session.Ok? && MayAssign(session.value.role)
    requires var fields := ParseJsonValue(Some(body));
      HasRequired(fields) && ParseLong(fields["driverId"]).Some? && ParseLong(fields["facilityId"]).Some?
      && ParseInt(fields["estimatedDurationMinutes"]).Some?
      && "packageIds" in fields && Trim(fields["packageIds"]) != []
      && 0 <= i < |JavaSplit(fields["packageIds"], ",")|
      && ParseLong(Trim(JavaSplit(fields["packageIds"], ",")[i])).None?
    ensures AssignRoute(session, body, connection, lookupFails, tables, generatedKey) == (BadPackageIds, None)
  {
    var fields := ParseJsonValue(Some(body));
    var pieces := JavaSplit(fields["packageIds"], ",");
    assert PieceId(pieces[i]).None?;
    ParseIdsMeaning(pieces);
    assert PackageIdList(Lookup(fields, "packageIds")).None?;
    assert ReadNumbers(fields) == Err(BadPackageIds);
  }

  /**
   * A committed assignment: the session's role is manager or admin, the
   * driver holds the driver role, the facility exists, total_stops is the
   * number of package ids, and stop i carries the i-th id with sequence i + 1.
   */
  lemma CommittedRoute(session: Result<SessionManager.Session, string>, body: string, connection: Result<(), string>,
                       lookupFails: bool, tables: Tables, generatedKey: Option<int>)
    requires AssignRoute(session, body, connection, lookupFails, tables, generatedKey).1.Some?
    ensures session.Ok? && MayAssign(session.value.role) && connection.Ok?
      && CheckRequest(session, body).Ok? && generatedKey.Some?
    ensures var w := AssignRoute(session, body, connection, lookupFails, tables, generatedKey).1.value;
      var plan := CheckRequest(session, body).value;
      w.driverId in tables.roles && tables.roles[w.driverId] == "driver" && w.route.facilityId in tables.facilities
      && w.routeId == generatedKey.value && w.route.status == "planned"
      && w.outForDelivery == plan.packageIds
      && w.route.totalStops == |w.stops| == |plan.packageIds|
      && (forall i :: 0 <= i < |w.stops| ==> w.stops[i] == Stop(w.routeId, plan.packageIds[i], i + 1))
  {
    CommittedWrite(session, body, connection, lookupFails, tables, generatedKey);
    var plan := CheckRequest(session, body).value;
    assert Authorize(session).None?;
    StopsAreNumbered(generatedKey.value, plan.packageIds);
  }

  /** A write happens only past every check, and it is the plan's route with its stops. */
  lemma CommittedWrite(session: Result<SessionManager.Session, string>, body: string, connection: Result<(), string>,
                       lookupFails: bool, tables: Tables, generatedKey: Option<int>)
    requires AssignRoute(session, body, connection, lookupFails, tables, generatedKey).1.Some?
    ensures CheckRequest(session, body).Ok? && connection.Ok? && generatedKey.Some?
    ensures var plan := CheckRequest(session, body).value;
      plan.driverId in tables.roles && tables.roles[plan.driverId] == "driver" && plan.facilityId in tables.facilities
      && AssignRoute(session, body, connection, lookupFails, tables, generatedKey).1.value
         == Written(generatedKey.value,
                    Route(plan.routeName, plan.facilityId, plan.routeDate, plan.duration, |plan.packageIds|, "planned"),
                    plan.driverId, if plan.vehicleId == [] then None else Some(plan.vehicleId),
                    plan.packageIds, Stops(generatedKey.value, plan.packageIds))
  {
  }
}
