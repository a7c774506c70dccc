/**
 * The cookie helpers: fixed default attributes, caller overrides merged over
 * them, `set` and `clear` recording a directive on the response, and `get`
 * reading the request's parsed cookies. `process.env.NODE_ENV` is a
 * parameter; Express's serialisation of the directives is left out.
 */
module Cookies {
  import opened Wrappers

  /** A value in a JavaScript options object. */
  datatype OptionValue = Flag(b: bool) | Number(n: int) | Text(s: string) | Undefined

  /** An options object: its own keys and their values. */
  type Options = map<string, OptionValue>

  /** The cookie lifetime in milliseconds: 15 minutes. */
  const MaxAgeMillis: int := 15 * 60 * 1000

  /** getoptions: the default attributes under the given environment; none is undefined. */
  function GetOptions(nodeEnv: Option<string>): (o: Options)
    ensures forall k :: k in o ==> o[k] != Undefined
  {
    map["httpOnly" := Flag(true),
        "secure" := Flag(nodeEnv == Some("production")),
        "sameSite" := Text("strict"),
        "maxAge" := Number(MaxAgeMillis)]
  }

  /**
   * `{ ...cookies.getoptions(), ...options }`, the attributes `set` and `clear`
   * both pass on: a key the caller supplies, even as undefined, wins; every
   * default attribute is present, and only a caller can make one undefined.
   */
  function Effective(nodeEnv: Option<string>, options: Options): (o: Options)
    ensures GetOptions(nodeEnv).Keys <= o.Keys
    ensures forall k :: k in o && k !in options ==> o[k] != Undefined
  {
    GetOptions(nodeEnv) + options
  }

  /** What `res.cookie` and `res.clearCookie` are asked to do. */
  datatype Directive =
    | SetCookie(name: string, value: string, options: Options)
    | ClearCookie(name: string, options: Options)

  /** The response object, as far as the helpers change it: the cookie directives issued on it, in order. */
  class Response {
    var directives: seq<Directive>

    constructor ()
      ensures directives == []
    {
      directives := [];
    }

    /** set: one SetCookie directive carrying the merged attributes. */
    method Set(nodeEnv: Option<string>, name: string, value: string, options: Options)
      modifies this
      ensures directives == old(directives) + [SetCookie(name, value, Effective(nodeEnv, options))]
    {
      directives := directives + [SetCookie(name, value, Effective(nodeEnv, options))];
    }

    /** clear: one ClearCookie directive carrying the merged attributes. */
    method Clear(nodeEnv: Option<string>, name: string, options: Options)
      modifies this
      ensures directives == old(directives) + [ClearCookie(name, Effective(nodeEnv, options))]
    {
      directives := directives + [ClearCookie(name, Effective(nodeEnv, options))];
    }
  }

  /** get: the request's cookie for the name, absent when there is none. */
  function Get(requestCookies: map<string, string>, name: string): (r: Option<string>)
    ensures r.Some? <==> name in requestCookies
    ensures r.Some? ==> r.value == requestCookies[name]
  {
    if name in requestCookies then Some(requestCookies[name]) else None
  }

  // ---------------------------------------------------------------------------

  /**
   * The defaults are exactly httpOnly, secure, sameSite and maxAge: http-only,
   * same-site strict, fifteen minutes (900000 ms), and secure exactly in production.
   */
  lemma DefaultOptions(nodeEnv: Option<string>)
    ensures GetOptions(nodeEnv).Keys == {"httpOnly", "secure", "sameSite", "maxAge"}
    ensures GetOptions(nodeEnv)["httpOnly"] == Flag(true)
    ensures GetOptions(nodeEnv)["sameSite"] == Text("strict")
    ensures GetOptions(nodeEnv)["maxAge"] == Number(900000)
    ensures GetOptions(nodeEnv)["secure"] == Flag(true) <==> nodeEnv == Some("production")
    ensures GetOptions(nodeEnv)["secure"] == Flag(false) <==> nodeEnv != Some("production")
  {
  }

  /**
   * Merging overrides key by key: a supplied key takes the caller's value,
   * an unsupplied key keeps its default, and no other key appears.
   */
  lemma MergeKeyByKey(nodeEnv: Option<string>, options: Options, k: string)
    ensures k in Effective(nodeEnv, options) <==> k in options || k in GetOptions(nodeEnv)
    ensures k in options ==> Effective(nodeEnv, options)[k] == options[k]
    ensures k !in options && k in GetOptions(nodeEnv) ==> Effective(nodeEnv, options)[k] == GetOptions(nodeEnv)[k]
  {
  }

  /** With no options (the default `{}`), the attributes are the defaults. */
  lemma NoOverridesKeepsDefaults(nodeEnv: Option<string>)
    ensures Effective(nodeEnv, map[]) == GetOptions(nodeEnv)
  {
  }

  /** Setting a cookie then clearing it with the same options on one response issues two directives with equal attributes. */
  method SetThenClear(nodeEnv: Option<string>, name: string, value: string, options: Options) returns (res: Response)
    ensures fresh(res)
    ensures |res.directives| == 2
    ensures res.directives[0].SetCookie? && res.directives[1].ClearCookie?
    ensures res.directives[0].name == res.directives[1].name == name
    ensures res.directives[0].options == res.directives[1].options
  {
    res := new Response();
    res.Set(nodeEnv, name, value, options);
    res.Clear(nodeEnv, name, options);
  }
}
