/**
 * formatValidationError: the text the signup controller puts in the details
 * of a 400 response. The argument is whatever error value it is given;
 * JSON serialisation is left abstract as a parameter.
 */
module ValidationFormat {
  import AuthValidation

  /** The `issues` property of the error value. */
  datatype IssuesProp =
    | NoIssues                       // missing or falsy
    | IssueArray(messages: seq<string>) // an array; each element's `message`
    | OtherIssues                    // present and truthy, but not an array

  /** The error argument: falsy, or an object with an `issues` property. */
  datatype ErrorArg = Falsy | ErrorObject(issues: IssuesProp)

  /** The fallback text, spelled as the source spells it. */
  const Fallback: string := "Validarion Failed"

  const Separator: string := ", "

  /** `Array.prototype.join(', ')`: the first part leads, the last part ends the text. */
  function Join(parts: seq<string>): (r: string)
    ensures |parts| > 0 ==> parts[0] <= r
    ensures |parts| > 0 ==> |parts[|parts| - 1]| <= |r| && r[|r| - |parts[|parts| - 1]|..] == parts[|parts| - 1]
  {
    if |parts| == 0 then ""
    else if |parts| == 1 then parts[0]
    else parts[0] + Separator + Join(parts[1..])
  }

  /**
   * formatValidationError, with `JSON.stringify` passed in as `stringify`. For
   * an issues array the text starts with the first issue's message and ends
   * with the last one's.
   */
  function FormatValidationError(e: ErrorArg, stringify: ErrorArg -> string): (r: string)
    ensures e.ErrorObject? && e.issues.IssueArray? && |e.issues.messages| > 0 ==>
      e.issues.messages[0] <= r && |e.issues.messages[|e.issues.messages| - 1]| <= |r|
      && r[|r| - |e.issues.messages[|e.issues.messages| - 1]|..] == e.issues.messages[|e.issues.messages| - 1]
  {
    if e.Falsy? || e.issues.NoIssues? then Fallback
    else if e.issues.IssueArray? then Join(e.issues.messages)
    else stringify(e)
  }

  /** Number of places where ", " starts in `s`. */
  function SeparatorCount(s: string): nat {
    if |s| < 2 then 0
    else (if s[0] == ',' && s[1] == ' ' then 1 else 0) + SeparatorCount(s[1..])
  }

  // ---------------------------------------------------------------------------

  /** Without an error, or without issues, the result is the fixed fallback text. */
  lemma FormatFallback(e: ErrorArg, stringify: ErrorArg -> string)
    requires e.Falsy? || e.issues == NoIssues
    ensures FormatValidationError(e, stringify) == "Validarion Failed"
  {
  }

  /** An `issues` value that is not an array is reported as the serialised error object. */
  lemma FormatNonArray(e: ErrorArg, stringify: ErrorArg -> string)
    requires e == ErrorObject(OtherIssues)
    ensures FormatValidationError(e, stringify) == stringify(ErrorObject(OtherIssues))
  {
  }

  /** An empty issues array formats to the empty string; a single issue to its message. */
  lemma FormatShortArrays(m: string, stringify: ErrorArg -> string)
    ensures FormatValidationError(ErrorObject(IssueArray([])), stringify) == ""
    ensures FormatValidationError(ErrorObject(IssueArray([m])), stringify) == m
  {
  }

  /**
   * Joining keeps the messages in their order: the join of two non-empty
   * lists is the first join, a separator, and the second join.
   */
  lemma {:induction false} JoinAppend(a: seq<string>, b: seq<string>)
    requires |a| > 0 && |b| > 0
    ensures Join(a + b) == Join(a) + Separator + Join(b)
  {
    if |a| == 1 {
      assert (a + b)[1..] == b;
    } else {
      assert (a + b)[1..] == a[1..] + b;
      JoinAppend(a[1..], b);
    }
  }

  /** Counting separators in a concatenation: those of each side, plus one straddling the seam. */
  lemma {:induction false} SeparatorCountAppend(x: string, y: string)
    ensures SeparatorCount(x + y) == SeparatorCount(x) + SeparatorCount(y)
      + (if |x| > 0 && |y| > 0 && x[|x| - 1] == ',' && y[0] == ' ' then 1 else 0)
  {
    if |x| == 0 {
      assert x + y == y;
    } else if |x| == 1 {
      assert (x + y)[1..] == y;
    } else {
      assert (x + y)[1..] == x[1..] + y;
      SeparatorCountAppend(x[1..], y);
    }
  }

  /**
   * When no message itself contains ", ", the joined text of n >= 1 messages
   * contains exactly n - 1 separators.
   */
  lemma {:induction false} JoinSeparatorCount(ms: seq<string>)
    requires |ms| > 0
    requires forall i :: 0 <= i < |ms| ==> SeparatorCount(ms[i]) == 0
    ensures SeparatorCount(Join(ms)) == |ms| - 1
  {
    if |ms| > 1 {
      var head, rest := ms[0], Join(ms[1..]);
      JoinSeparatorCount(ms[1..]);
      SeparatorCountAppend(head, Separator);
      assert SeparatorCount(Separator) == 1;
      SeparatorCountAppend(head + Separator, rest);
      assert (head + Separator)[|head + Separator| - 1] == ' ';
      assert Join(ms) == (head + Separator) + rest;
    }
  }

  /** The details of a rejected signup: its issues' messages, in order, joined; never empty. */
  lemma SignupDetails(b: AuthValidation.SignupBody, stringify: ErrorArg -> string)
    requires AuthValidation.ParseSignup(b).Err?
    ensures var issues := AuthValidation.ParseSignup(b).error;
      && FormatValidationError(ErrorObject(IssueArray(AuthValidation.Messages(issues))), stringify)
         == Join(AuthValidation.Messages(issues))
      && |Join(AuthValidation.Messages(issues))| > 0
  {
    var ms := AuthValidation.Messages(AuthValidation.ParseSignup(b).error);
    assert |ms[0]| > 0 && ms[0] <= Join(ms);
  }
}
