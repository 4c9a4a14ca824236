// The four clearance/classification levels (security/SecurityLevel.java).
// Their order is the declaration order; `fromString` is total and falls back
// to the lowest level.
module SecurityLevels {
  import opened Wrappers
  import opened JavaStrings

  datatype Level = Unclassified | Confidential | Secret | TopSecret

  /** The enum constants in declaration order (`SecurityLevel.values()`). */
  const Declared: seq<Level> := [Unclassified, Confidential, Secret, TopSecret]

  /** `ordinal()`: the position of the constant in the declaration. */
  function Ordinal(l: Level): (r: nat)
    ensures r < |Declared| && Declared[r] == l
  {
    match l
    case Unclassified => 0
    case Confidential => 1
    case Secret => 2
    case TopSecret => 3
  }

  /** `name()`: the constant's identifier. */
  function Name(l: Level): (r: string)
    ensures |r| > 0 && All(r, IsNameChar)
  {
    match l
    case Unclassified => "UNCLASSIFIED"
    case Confidential => "CONFIDENTIAL"
    case Secret => "SECRET"
    case TopSecret => "TOP_SECRET"
  }

  lemma NameInjective(a: Level, b: Level)
    ensures Name(a) == Name(b) <==> a == b
  {
  }

  predicate IsNameChar(c: char) { IsUpper(c) || c == '_' }

  lemma NamesListed()
    ensures forall l :: Name(l) in ["UNCLASSIFIED", "CONFIDENTIAL", "SECRET", "TOP_SECRET"]
  {
  }

  /** `a` is at or above `b` in the declared order. */
  predicate AtOrAbove(a: Level, b: Level)
  {
    exists i, j :: 0 <= j <= i < |Declared| && Declared[i] == a && Declared[j] == b
  }

  /** `valueOf(trim().toUpperCase())` succeeds only on an exact constant name. */
  function ValueOf(s: string): (r: Option<Level>)
    ensures r.Some? ==> Name(r.value) == s
    ensures r.None? ==> forall l :: Name(l) != s
  {
    if s == "UNCLASSIFIED" then Some(Unclassified)
    else if s == "CONFIDENTIAL" then Some(Confidential)
    else if s == "SECRET" then Some(Secret)
    else if s == "TOP_SECRET" then Some(TopSecret)
    else
      NamesListed();
      None
  }

  /**
   * `SecurityLevel.fromString`: null and every unrecognised name give
   * UNCLASSIFIED; otherwise the name is matched after trimming and upper-casing.
   */
  function FromString(s: Option<string>): (r: Level)
    ensures s.None? ==> r == Unclassified
    ensures s.Some? && r != Unclassified ==> Name(r) == ToUpper(Trim(s.value))
    ensures s.Some? && (forall l :: Name(l) != ToUpper(Trim(s.value))) ==> r == Unclassified
  {
    match s
    case None => Unclassified
    case Some(t) => ValueOf(ToUpper(Trim(t))).GetOr(Unclassified)
  }

  // ---------------------------------------------------------------------------
  // Properties

  /** The declared order is a total order, and `ordinal()` decides it. */
  lemma OrdinalDecidesOrder(a: Level, b: Level)
    ensures AtOrAbove(a, b) <==> Ordinal(a) >= Ordinal(b)
    ensures Ordinal(a) == Ordinal(b) <==> a == b
  {
    if Ordinal(a) >= Ordinal(b) {
      assert Declared[Ordinal(a)] == a && Declared[Ordinal(b)] == b;
    }
  }

  /** The levels rise strictly in declaration order. */
  lemma DeclarationOrder()
    ensures Ordinal(Unclassified) < Ordinal(Confidential) < Ordinal(Secret) < Ordinal(TopSecret)
    ensures forall l :: Ordinal(l) < 4
  {
  }

  function Spaces(n: nat): (r: string)
    ensures |r| == n && forall i :: 0 <= i < n ==> r[i] == ' '
  {
    if n == 0 then [] else [' '] + Spaces(n - 1)
  }

  /** Upper-casing the lower-cased spelling of a name gives the name back. */
  lemma {:induction false} ToUpperOfLower(s: string)
    requires All(s, IsNameChar)
    ensures ToUpper(s) == s && ToUpper(ToLower(s)) == s
  {
    assert forall i :: 0 <= i < |s| ==> UpperChar(LowerChar(s[i])) == s[i];
  }

  /** Trimming removes exactly the surrounding spaces from a text with no blank ends. */
  lemma {:induction false} TrimPadded(t: string, a: nat, b: nat)
    requires |t| > 0 && !IsTrimSpace(t[0]) && !IsTrimSpace(t[|t| - 1])
    ensures Trim(Spaces(a) + t + Spaces(b)) == t
  {
    var s := Spaces(a) + t + Spaces(b);
    var d := DropLeading(s, IsTrimSpace);
    DropLeadingStopsAt(s, a);
    assert d == t + Spaces(b);
    DropTrailingStopsAt(d, |t|);
  }

  lemma {:induction false} DropLeadingStopsAt(s: string, k: nat)
    requires k < |s| && !IsTrimSpace(s[k])
    requires forall i :: 0 <= i < k ==> IsTrimSpace(s[i])
    ensures DropLeading(s, IsTrimSpace) == s[k..]
    decreases k
  {
    if k > 0 {
      DropLeadingStopsAt(s[1..], k - 1);
    }
  }

  lemma {:induction false} DropTrailingStopsAt(s: string, k: nat)
    requires 0 < k <= |s| && !IsTrimSpace(s[k - 1])
    requires forall i :: k <= i < |s| ==> IsTrimSpace(s[i])
    ensures DropTrailing(s, IsTrimSpace) == s[..k]
    decreases |s| - k
  {
    if k < |s| {
      DropTrailingStopsAt(s[..|s| - 1], k);
    }
  }

  /** " secret " and every other padded, lower-cased spelling of a name gives that level. */
  lemma {:induction false} FromStringIgnoresCaseAndPadding(l: Level, a: nat, b: nat)
    ensures FromString(Some(Spaces(a) + ToLower(Name(l)) + Spaces(b))) == l
  {
    var n := Name(l);
    var t := ToLower(n);
    ToUpperOfLower(n);
    assert !IsTrimSpace(t[0]) && !IsTrimSpace(t[|t| - 1]) by {
      assert UpperChar(t[0]) == n[0] && UpperChar(t[|t| - 1]) == n[|n| - 1];
    }
    TrimPadded(t, a, b);
  }

  /** `name()` and `fromString` are inverse. */
  lemma NameRoundTrip(l: Level)
    ensures FromString(Some(Name(l))) == l
  {
    var n := Name(l);
    ToUpperOfLower(n);
    assert !IsTrimSpace(n[0]) && !IsTrimSpace(n[|n| - 1]);
    TrimPadded(n, 0, 0);
    assert Spaces(0) + n + Spaces(0) == n;
    NameInjective(l, ValueOf(n).value);
  }
}
