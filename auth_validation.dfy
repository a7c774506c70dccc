/**
 * The signup and signin request schemas (zod objects). Each schema is a pure
 * function from the raw request body to either the normalised record or the
 * list of issues zod reports, in the order zod reports them: field by field
 * in declaration order, and within a field check by check in the order the
 * chain is written. A failed check does not stop the chain (zod's string
 * checks are not fatal), but any issue makes the whole parse fail.
 * The signup controller turns a failed signup parse into a 400 response whose details are
 * the formatted issue messages.
 */
module AuthValidation {
  import opened Wrappers
  import opened JsString

  /** One property of the request body as zod sees it. */
  datatype Raw =
    | Absent                       // the property is undefined
    | Str(s: string)               // a string value
    | NonString(parsedType: ParsedType) // any other value, classified the way zod classifies it

  /** zod's parsed types other than string and undefined: what a non-string property can be. */
  datatype ParsedType =
    | NumberType | NanType | BooleanType | NullType | ObjectType | ArrayType | BigintType
    | SymbolType | FunctionType | DateType | MapType | SetType | PromiseType

  /** The name zod prints for a parsed type in "Expected string, received ...". */
  function ParsedTypeName(t: ParsedType): string {
    match t
    case NumberType => "number"
    case NanType => "nan"
    case BooleanType => "boolean"
    case NullType => "null"
    case ObjectType => "object"
    case ArrayType => "array"
    case BigintType => "bigint"
    case SymbolType => "symbol"
    case FunctionType => "function"
    case DateType => "date"
    case MapType => "map"
    case SetType => "set"
    case PromiseType => "promise"
  }

  datatype Role = User | Admin

  datatype IssueKind =
    | InvalidType(expected: string, received: string)
    | TooSmall(minimum: nat)
    | TooBig(maximum: nat)
    | InvalidEnumValue(received: string)

  /** A zod issue: the offending property and what went wrong with it. */
  datatype Issue = Issue(path: string, kind: IssueKind)

  /** The values accepted by the role enum, joined the way zod lists them. */
  const RoleOptions: string := "'user' | 'admin'"

  /** zod's default English message for an issue. */
  function Message(i: Issue): (m: string)
    ensures |m| > 0
  {
    match i.kind
    case InvalidType(expected, received) =>
      if received == "undefined" then "Required" else "Expected " + expected + ", received " + received
    case TooSmall(n) => "String must contain at least " + Decimal(n) + " character(s)"
    case TooBig(n) => "String must contain at most " + Decimal(n) + " character(s)"
    case InvalidEnumValue(received) =>
      "Invalid enum value. Expected " + RoleOptions + ", received '" + received + "'"
  }

  function Messages(issues: seq<Issue>): (ms: seq<string>)
    ensures |ms| == |issues|
    ensures forall i :: 0 <= i < |issues| ==> ms[i] == Message(issues[i])
  {
    if issues == [] then [] else [Message(issues[0])] + Messages(issues[1..])
  }

  /** `.min(n)`: the problem when the value, as it stands, is shorter than `n`. */
  function MinCheck(n: nat, s: string): seq<IssueKind> {
    if |s| < n then [TooSmall(n)] else []
  }

  /** `.max(n)`: the problem when the value, as it stands, is longer than `n`. */
  function MaxCheck(n: nat, s: string): seq<IssueKind> {
    if |s| > n then [TooBig(n)] else []
  }

  /** A string chain's final value and the problems found along it. */
  datatype Chained = Chained(value: string, problems: seq<IssueKind>)

  /** The four string chains of the two schemas. */
  datatype Chain = SignupName | SignupEmail | Password | SigninEmail

  /**
   * Runs a chain on a string. Each chain applies its steps in the order they
   * are written; a failed check does not stop the chain.
   */
  function RunChain(c: Chain, s: string): (r: Chained)
    ensures c == Password ==> r.value == s
    ensures c != Password ==> NoEdgeSpace(r.value) && |r.value| <= |s|
    ensures c == SigninEmail ==> r.problems == []
  {
    match c
    case SignupName =>      // .min(2).max(100).trim()
      Chained(Trim(s), MinCheck(2, s) + MaxCheck(100, s))
    case SignupEmail =>     // .toLowerCase().max(100).trim()
      var lowered := ToLower(s);
      Chained(Trim(lowered), MaxCheck(100, lowered))
    case Password =>        // .min(6).max(100)
      Chained(s, MinCheck(6, s) + MaxCheck(100, s))
    case SigninEmail =>     // .toLowerCase().trim()
      Chained(Trim(ToLower(s)), [])
  }

  /** Issues for the given problems, all on one property. */
  function AtPath(path: string, problems: seq<IssueKind>): (r: seq<Issue>)
    ensures |r| == |problems|
    ensures forall i :: 0 <= i < |r| ==> r[i] == Issue(path, problems[i])
  {
    if problems == [] then [] else [Issue(path, problems[0])] + AtPath(path, problems[1..])
  }

  /** `z.string()` followed by a chain, on property `path`: rejects anything but a string, then runs the chain. */
  function StringField(path: string, raw: Raw, c: Chain): (r: Result<string, seq<Issue>>)
    ensures r.Err? ==> |r.error| > 0 && forall i :: 0 <= i < |r.error| ==> r.error[i].path == path
  {
    match raw
    case Absent => Err([Issue(path, InvalidType("string", "undefined"))])
    case NonString(t) => Err([Issue(path, InvalidType("string", ParsedTypeName(t)))])
    case Str(s) =>
      var chained := RunChain(c, s);
      if chained.problems == [] then Ok(chained.value) else Err(AtPath(path, chained.problems))
  }

  /** `z.enum(['user', 'admin']).default('user')`. */
  function RoleField(raw: Raw): (r: Result<Role, seq<Issue>>)
    ensures r.Err? ==> |r.error| > 0 && forall i :: 0 <= i < |r.error| ==> r.error[i].path == "role"
  {
    match raw
    case Absent => Ok(User)
    case NonString(t) => Err([Issue("role", InvalidType(RoleOptions, ParsedTypeName(t)))])
    case Str(s) =>
      if s == "user" then Ok(User)
      else if s == "admin" then Ok(Admin)
      else Err([Issue("role", InvalidEnumValue(s))])
  }

  function IssuesOf<T>(r: Result<T, seq<Issue>>): seq<Issue> {
    if r.Err? then r.error else []
  }

  datatype SignupBody = SignupBody(name: Raw, email: Raw, password: Raw, role: Raw)
  datatype SignupData = SignupData(name: string, email: string, password: string, role: Role)
  datatype SigninBody = SigninBody(email: Raw, password: Raw)
  datatype SigninData = SigninData(email: string, password: string)

  /** signupSchema.safeParse. */
  function ParseSignup(b: SignupBody): (r: Result<SignupData, seq<Issue>>)
    ensures r.Err? ==> |r.error| > 0
    ensures r.Ok? ==> NoEdgeSpace(r.value.name) && NoEdgeSpace(r.value.email)
  {
    var name := StringField("name", b.name, SignupName);
    var email := StringField("email", b.email, SignupEmail);
    var password := StringField("password", b.password, Password);
    var role := RoleField(b.role);
    if name.Ok? && email.Ok? && password.Ok? && role.Ok? then
      Ok(SignupData(name.value, email.value, password.value, role.value))
    else
      Err(IssuesOf(name) + IssuesOf(email) + IssuesOf(password) + IssuesOf(role))
  }

  /** signinSchema.safeParse. */
  function ParseSignin(b: SigninBody): (r: Result<SigninData, seq<Issue>>)
    ensures r.Err? ==> |r.error| > 0
    ensures r.Ok? ==> NoEdgeSpace(r.value.email)
  {
    var email := StringField("email", b.email, SigninEmail);
    var password := StringField("password", b.password, Password);
    if email.Ok? && password.Ok? then Ok(SigninData(email.value, password.value))
    else Err(IssuesOf(email) + IssuesOf(password))
  }

  // ---------------------------------------------------------------------------
  // What each property's schema accepts and produces.

  /** Signup name: the length bounds apply to the untrimmed string; the output is trimmed. */
  lemma SignupNameField(raw: Raw)
    ensures StringField("name", raw, SignupName).Ok? <==> raw.Str? && 2 <= |raw.s| <= 100
    ensures StringField("name", raw, SignupName).Ok? ==> StringField("name", raw, SignupName).value == Trim(raw.s)
  {
    if raw.Str? {
      var chained := RunChain(SignupName, raw.s);
      assert chained == Chained(Trim(raw.s), MinCheck(2, raw.s) + MaxCheck(100, raw.s));
      assert chained.problems == [] <==> 2 <= |raw.s| <= 100;
    }
  }

  /** Signup email: lower-cased, then capped at 100, then trimmed; no format check. */
  lemma SignupEmailField(raw: Raw)
    ensures StringField("email", raw, SignupEmail).Ok? <==> raw.Str? && |raw.s| <= 100
    ensures StringField("email", raw, SignupEmail).Ok? ==>
      StringField("email", raw, SignupEmail).value == Trim(ToLower(raw.s))
  {
    if raw.Str? {
      assert RunChain(SignupEmail, raw.s).problems == [] <==> |raw.s| <= 100;
    }
  }

  /** Password: 6 to 100 characters, returned exactly as given (not trimmed). */
  lemma PasswordField(raw: Raw)
    ensures StringField("password", raw, Password).Ok? <==> raw.Str? && 6 <= |raw.s| <= 100
    ensures StringField("password", raw, Password).Ok? ==> StringField("password", raw, Password).value == raw.s
  {
    if raw.Str? {
      assert RunChain(Password, raw.s).problems == [] <==> 6 <= |raw.s| <= 100;
    }
  }

  /** Signin email: any string is accepted, lower-cased and trimmed. */
  lemma SigninEmailField(raw: Raw)
    ensures StringField("email", raw, SigninEmail).Ok? <==> raw.Str?
    ensures StringField("email", raw, SigninEmail).Ok? ==>
      StringField("email", raw, SigninEmail).value == Trim(ToLower(raw.s))
  {
    if raw.Str? {
      assert RunChain(SigninEmail, raw.s).problems == [];
    }
  }

  /** Role: absent means user; otherwise exactly "user" or "admin". */
  lemma RoleFieldMeaning(raw: Raw)
    ensures RoleField(raw).Ok? <==> raw.Absent? || raw == Str("user") || raw == Str("admin")
    ensures RoleField(raw).Ok? ==> RoleField(raw).value == (if raw == Str("admin") then Admin else User)
  {
  }

  /**
   * signupSchema accepts a body exactly when the name is a string of 2 to 100
   * characters (before trimming), the email a string of at most 100, the
   * password a string of 6 to 100, and the role absent, "user" or "admin";
   * the accepted record has the trimmed name, the lower-cased trimmed email,
   * the password unchanged, and role user when none was given.
   */
  lemma SignupAccepts(b: SignupBody)
    ensures ParseSignup(b).Ok? <==>
      && b.name.Str? && 2 <= |b.name.s| <= 100
      && b.email.Str? && |b.email.s| <= 100
      && b.password.Str? && 6 <= |b.password.s| <= 100
      && (b.role.Absent? || b.role == Str("user") || b.role == Str("admin"))
    ensures ParseSignup(b).Ok? ==>
      && ParseSignup(b).value.name == Trim(b.name.s)
      && ParseSignup(b).value.email == Trim(ToLower(b.email.s))
      && ParseSignup(b).value.password == b.password.s
      && ParseSignup(b).value.role == (if b.role == Str("admin") then Admin else User)
  {
    SignupNameField(b.name);
    SignupEmailField(b.email);
    PasswordField(b.password);
    RoleFieldMeaning(b.role);
  }

  /**
   * Every accepted signup record is normalised: its email has no white space
   * at either end, no upper-case letter and at most 100 characters; its name
   * has no white space at either end and at most 100 characters; its
   * password has 6 to 100 characters.
   */
  lemma SignupOutputNormalised(b: SignupBody)
    requires ParseSignup(b).Ok?
    ensures NoEdgeSpace(ParseSignup(b).value.email) && NoUpper(ParseSignup(b).value.email)
    ensures |ParseSignup(b).value.email| <= 100
    ensures NoEdgeSpace(ParseSignup(b).value.name) && |ParseSignup(b).value.name| <= 100
    ensures 6 <= |ParseSignup(b).value.password| <= 100
  {
    SignupAccepts(b);
    LowerTrimNormalises(b.email.s);
  }

  /**
   * signinSchema accepts a body exactly when the email is a string (of any
   * length) and the password a string of 6 to 100 characters; the email
   * comes out lower-cased and trimmed, the password unchanged.
   */
  lemma SigninAccepts(b: SigninBody)
    ensures ParseSignin(b).Ok? <==> b.email.Str? && b.password.Str? && 6 <= |b.password.s| <= 100
    ensures ParseSignin(b).Ok? ==>
      && ParseSignin(b).value.email == Trim(ToLower(b.email.s))
      && NoEdgeSpace(ParseSignin(b).value.email) && NoUpper(ParseSignin(b).value.email)
      && ParseSignin(b).value.password == b.password.s
  {
    SigninEmailField(b.email);
    PasswordField(b.password);
    if b.email.Str? { LowerTrimNormalises(b.email.s); }
  }

  /** Position of a signup property in the schema's declaration order. */
  function SignupRank(path: string): nat {
    if path == "name" then 0 else if path == "email" then 1 else if path == "password" then 2 else 3
  }

  /** All issues of `issues` are on property `path`. */
  predicate AllOn(issues: seq<Issue>, path: string) {
    forall i :: 0 <= i < |issues| ==> issues[i].path == path
  }

  /** Issues grouped property by property, in declaration order, are ordered by rank. */
  lemma RankedConcat(n: seq<Issue>, e: seq<Issue>, p: seq<Issue>, r: seq<Issue>)
    requires AllOn(n, "name") && AllOn(e, "email") && AllOn(p, "password") && AllOn(r, "role")
    ensures forall i :: 0 <= i < |n + e + p + r| ==> (n + e + p + r)[i].path in {"name", "email", "password", "role"}
    ensures forall i, j :: 0 <= i < j < |n + e + p + r| ==>
      SignupRank((n + e + p + r)[i].path) <= SignupRank((n + e + p + r)[j].path)
  {
    var all := n + e + p + r;
    forall i | 0 <= i < |all|
      ensures all[i].path in {"name", "email", "password", "role"}
      ensures SignupRank(all[i].path) == if i < |n| then 0 else if i < |n| + |e| then 1
                                         else if i < |n| + |e| + |p| then 2 else 3
    {
      if i < |n| { assert all[i] == n[i]; }
      else if i < |n| + |e| { assert all[i] == e[i - |n|]; }
      else if i < |n| + |e| + |p| { assert all[i] == p[i - |n| - |e|]; }
      else { assert all[i] == r[i - |n| - |e| - |p|]; }
    }
  }

  /**
   * A rejected signup body yields at least one issue, every issue names one
   * of the four properties, and the issues come in declaration order.
   */
  lemma SignupIssuesOrdered(b: SignupBody)
    requires ParseSignup(b).Err?
    ensures |ParseSignup(b).error| > 0
    ensures forall i :: 0 <= i < |ParseSignup(b).error| ==>
      ParseSignup(b).error[i].path in {"name", "email", "password", "role"}
    ensures forall i, j :: 0 <= i < j < |ParseSignup(b).error| ==>
      SignupRank(ParseSignup(b).error[i].path) <= SignupRank(ParseSignup(b).error[j].path)
  {
    var n := IssuesOf(StringField("name", b.name, SignupName));
    var e := IssuesOf(StringField("email", b.email, SignupEmail));
    var p := IssuesOf(StringField("password", b.password, Password));
    var r := IssuesOf(RoleField(b.role));
    assert ParseSignup(b).error == n + e + p + r;
    RankedConcat(n, e, p, r);
  }

  /**
   * The length bounds on the name are checked before trimming, so a name made
   * only of 2 to 100 white-space characters is accepted and comes out empty.
   */
  lemma SignupBlankNameAccepted(s: string)
    requires 2 <= |s| <= 100 && forall i :: 0 <= i < |s| ==> IsSpace(s[i])
    ensures StringField("name", Str(s), SignupName) == Ok("")
  {
    SignupNameField(Str(s));
    AllSpaceTrimsToEmpty(s);
  }
}
