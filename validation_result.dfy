// The validation accumulator (util/ValidationResult.java): a validity flag and
// the error text, to which each error is appended with "; " between messages.
module Validation {
  import opened JavaStrings

  const Separator: string := "; "

  /** The error text after one more `addError`: the separator only when the text so far is non-empty. */
  function Appended(errors: string, error: string): (r: string)
    ensures |r| >= |errors| + |error|
  {
    if errors == [] then error else errors + Separator + error
  }

  /** The error text left by adding `messages` in order to a fresh result. */
  function ErrorText(messages: seq<string>): string
  {
    if messages == [] then [] else Appended(ErrorText(messages[..|messages| - 1]), messages[|messages| - 1])
  }

  /** The state of a ValidationResult, as a value. */
  datatype State = State(valid: bool, errors: string)

  const Fresh: State := State(true, [])

  /** The state a fresh result is left in after the given errors were added. */
  function Reported(errors: seq<string>): State
  {
    State(errors == [], ErrorText(errors))
  }

  /** What a client can do to a ValidationResult. */
  datatype Call = Add(message: string) | Clear

  function Step(s: State, c: Call): State
  {
    match c
    case Add(m) => State(false, Appended(s.errors, m))
    case Clear => Fresh
  }

  /** The state after the calls, in order, on a fresh result. */
  function Run(calls: seq<Call>): State
  {
    if calls == [] then Fresh else Step(Run(calls[..|calls| - 1]), calls[|calls| - 1])
  }

  /** The messages added since construction or the last reset. */
  function SinceReset(calls: seq<Call>): seq<string>
  {
    if calls == [] then []
    else
      match calls[|calls| - 1]
      case Clear => []
      case Add(m) => SinceReset(calls[..|calls| - 1]) + [m]
  }

  // ---------------------------------------------------------------------------
  // Properties

  /** `addError` keeps the text so far and ends the text with the new message. */
  lemma AppendedExtends(errors: string, error: string)
    ensures var r := Appended(errors, error);
      r[..|errors|] == errors && r[|r| - |error|..] == error
      && (errors != [] ==> r[|errors|..|errors| + 2] == Separator)
  {
  }

  lemma ErrorTextSnoc(messages: seq<string>, m: string)
    ensures ErrorText(messages + [m]) == Appended(ErrorText(messages), m)
  {
    assert (messages + [m])[..|messages|] == messages;
  }

  lemma ReportedSnoc(errors: seq<string>, m: string)
    ensures Reported(errors + [m]) == Step(Reported(errors), Add(m))
  {
    ErrorTextSnoc(errors, m);
  }

  /**
   * Whatever the calls, the result is valid exactly when no error was added
   * since construction or the last reset, and its text is those errors in order.
   */
  lemma {:induction false} RunIsSinceReset(calls: seq<Call>)
    ensures Run(calls) == Reported(SinceReset(calls))
    decreases |calls|
  {
    if calls != [] {
      var init := calls[..|calls| - 1];
      RunIsSinceReset(init);
      match calls[|calls| - 1]
      case Clear =>
      case Add(m) =>
        ErrorTextSnoc(SinceReset(init), m);
    }
  }

  /** A reset restores the fresh state whatever came before. */
  lemma ResetRestoresFresh(calls: seq<Call>)
    ensures Run(calls + [Clear]) == Fresh
  {
    assert (calls + [Clear])[..|calls|] == calls;
  }

  lemma {:induction false} JoinSnoc(parts: seq<string>, m: string, sep: string)
    requires parts != []
    ensures Join(parts + [m], sep) == Join(parts, sep) + sep + m
    decreases |parts|
  {
    if |parts| > 1 {
      assert (parts + [m])[1..] == parts[1..] + [m];
      JoinSnoc(parts[1..], m, sep);
    }
  }

  /** With non-empty messages, the text is the messages joined by "; ". */
  lemma {:induction false} ErrorTextIsJoin(messages: seq<string>)
    requires forall i :: 0 <= i < |messages| ==> messages[i] != []
    ensures ErrorText(messages) == Join(messages, Separator)
    ensures messages != [] ==> ErrorText(messages) != []
    decreases |messages|
  {
    if messages != [] {
      var init := messages[..|messages| - 1];
      ErrorTextIsJoin(init);
      if init != [] {
        JoinSnoc(init, messages[|messages| - 1], Separator);
        assert messages == init + [messages[|messages| - 1]];
      }
    }
  }

  /** An empty message leaves the text empty, so the next message is added without a separator. */
  lemma EmptyMessageAddsNoSeparator(m: string)
    ensures ErrorText(["", m]) == m
  {
    assert ["", m][..1] == [""];
    assert [""][..0] == [];
  }

  /**
   * The mutable result. The ghost field `messages` records the errors added
   * since construction or the last reset; `Consistent` ties the two real
   * fields to it.
   */
  class ValidationResult {
    var valid: bool
    var errors: string
    ghost var messages: seq<string>

    function Snapshot(): State
      reads this
    {
      State(valid, errors)
    }

    ghost predicate Consistent()
      reads this
    {
      Snapshot() == Reported(messages)
    }

    constructor()
      ensures Snapshot() == Fresh
      ensures Consistent() && messages == []
    {
      valid := true;
      errors := [];
      messages := [];
    }

    method AddError(error: string)
      requires Consistent()
      modifies this
      ensures Snapshot() == Step(old(Snapshot()), Add(error))
      ensures Consistent() && messages == old(messages) + [error]
    {
      valid := false;
      if |errors| > 0 {
        errors := errors + Separator;
      }
      errors := errors + error;
      ReportedSnoc(messages, error);
      messages := messages + [error];
    }

    function IsValid(): (r: bool)
      reads this
      ensures r <==> Snapshot().valid
    {
      valid
    }

    function GetErrors(): (r: string)
      reads this
      ensures r == Snapshot().errors
    {
      errors
    }

    /** Always the negation of `isValid`. */
    function HasErrors(): (r: bool)
      reads this
      ensures r == !IsValid()
    {
      !valid
    }

    method Reset()
      modifies this
      ensures Snapshot() == Step(old(Snapshot()), Clear)
      ensures Consistent() && messages == []
    {
      valid := true;
      errors := [];
      messages := [];
    }
  }
}
