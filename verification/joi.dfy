/** Request bodies as parsed JSON and the handful of schema rules the
    validators use. A validator answers None exactly when the body passes
    its schema; otherwise it names one failing rule, the first with keys
    checked in declaration order and object-level rules after the keys. */
module Joi {
  import opened Common

  datatype Json =
    | JNull
    | JBool(b: bool)
    | JInt(i: int)
    /** A number with a fractional part; its value does not matter here. */
    | JFrac
    | JStr(s: string)
    | JArr(items: seq<Json>)
    | JObj(fields: map<string, Json>)

  /** A request body; a key it does not hold is `undefined`. */
  type Body = map<string, Json>

  datatype Rule =
    | Required   // any.required
    | Forbidden  // any.unknown: a forbidden key is present
    | Only       // any.only: not one of the listed values
    | StringBase // string.base
    | Empty      // string.empty
    | Min        // string.min / array.min
    | Max        // string.max
    | Email      // string.email
    | Pattern    // string.pattern.base
    | NumberBase // number.base
    | Integer    // number.integer
    | ArrayBase  // array.base
    | Missing    // object.missing: none of the `or` peers is present
    | Undeclared // object.unknown: a key the schema does not declare

  datatype Issue = Issue(key: string, rule: Rule)

  /** The first of two checks' issues: the second check counts only when the
      first passes. */
  function Then(first: Option<Issue>, second: Option<Issue>): (r: Option<Issue>)
    ensures r.None? <==> first.None? && second.None?
    ensures first.Some? ==> r == first
  {
    if first.Some? then first else second
  }

  /** The key is present: `or` counts `null` as present, only `undefined` is absent. */
  predicate Present(body: Body, key: string) {
    key in body
  }

  /** An approximation of `email()`: one `@` with text on both sides and a dot
      inside the domain. */
  predicate IsEmail(s: string) {
    '@' in s
    && var at := IndexOf(s, '@');
       var domain := s[at + 1..];
       at > 0 && '@' !in domain && '.' in domain
       && 0 < IndexOf(domain, '.') < |domain| - 1
  }

  /** `/^[6-9]\d{9}$/`. */
  predicate IsMobile(s: string) {
    |s| == 10 && '6' <= s[0] <= '9' && forall i :: 1 <= i < 10 ==> IsDigit(s[i])
  }

  /** The format rule a string key carries, if any. */
  datatype Format = AnyText | EmailFormat | MobileFormat

  predicate Conforms(f: Format, s: string) {
    match f
    case AnyText => true
    case EmailFormat => IsEmail(s)
    case MobileFormat => IsMobile(s)
  }

  /** A `Joi.string()` key: `required` or optional, `null` allowed or not, an
      optional length range and a format, checked in that order. */
  function CheckString(body: Body, key: string, required: bool, allowNull: bool,
                       min: nat, max: Option<nat>, format: Format): (r: Option<Issue>)
    ensures r.Some? ==> r.value.key == key
    ensures r.None? <==>
      if key !in body then !required
      else match body[key]
        case JNull => allowNull
        case JStr(s) => s != "" && min <= |s| && (max.None? || |s| <= max.value) && Conforms(format, s)
        case _ => false
  {
    if key !in body then (if required then Some(Issue(key, Required)) else None)
    else match body[key]
      case JNull => if allowNull then None else Some(Issue(key, StringBase))
      case JStr(s) =>
        if s == "" then Some(Issue(key, Empty))
        else if |s| < min then Some(Issue(key, Min))
        else if max.Some? && |s| > max.value then Some(Issue(key, Max))
        else if !Conforms(format, s) then Some(Issue(key, if format == MobileFormat then Pattern else Email))
        else None
      case _ => Some(Issue(key, StringBase))
  }

  /** A required `Joi.number().integer()` key. */
  function CheckInteger(body: Body, key: string): (r: Option<Issue>)
    ensures r.None? <==> key in body && body[key].JInt?
  {
    if key !in body then Some(Issue(key, Required))
    else match body[key]
      case JInt(_) => None
      case JFrac => Some(Issue(key, Integer))
      case _ => Some(Issue(key, NumberBase))
  }

  /** A key `Joi.forbidden()` makes: any value, `null` included, is refused. */
  function CheckForbidden(body: Body, key: string): (r: Option<Issue>)
    ensures r.None? <==> key !in body
  {
    if key in body then Some(Issue(key, Forbidden)) else None
  }

  /** The object-level check that refuses keys the schema does not declare,
      as the validation middleware's body options demand. Which undeclared key is
      reported depends on the body's key order, which a map does not keep. */
  ghost function CheckUndeclared(body: Body, declared: set<string>): (r: Option<Issue>)
    ensures r.None? <==> body.Keys <= declared
    ensures r.Some? ==> r.value.key in body && r.value.key !in declared && r.value.rule == Undeclared
  {
    if body.Keys <= declared then None
    else
      var key :| key in body.Keys && key !in declared;
      Some(Issue(key, Undeclared))
  }

}
