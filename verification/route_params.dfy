/** The RouteParams view over one successful match (MatcherRouteParams). */
module RouteParams {
  import opened Lang
  import opened Regex

  /** Route parameters backed by the matcher of the winning mapping. */
  datatype MatcherRouteParams = MatcherRouteParams(matcher: Match)

  /** URLDecoder.decode(s, UTF_8) as a call: a malformed escape throws. */
  function Decoded(s: string, decode: Decoder): (r: Result<Option<string>>)
    ensures r.Ok? <==> decode(s).Some?
    ensures r.Ok? ==> r.value == decode(s)
    ensures r.Err? ==> r.error == IllegalArgumentException
  {
    match decode(s)
    case None => Err(IllegalArgumentException)
    case Some(t) => Ok(Some(t))
  }

  /** positionalParameter(pos) as the code is written. The guard returns empty for every
      pos in 0..groupCount(), so the capture is looked up only when pos + 1 exceeds
      groupCount() + 1, where Matcher.group(int) throws: no position yields a value. */
  function PositionalParameter(p: MatcherRouteParams, pos: int, decode: Decoder): (r: Result<Option<string>>)
    ensures r == Ok(None) <==> pos < 0 || pos <= GroupCount(p.matcher)
    ensures r != Ok(None) ==> r == Err(IndexOutOfBoundsException)
  {
    if GroupCount(p.matcher) > pos - 1 || pos < 0 then Ok(None)
    else
      match Group(p.matcher, pos + 1)
      case Err(e) => Err(e)
      case Ok(None) => Err(NullPointerException)
      case Ok(Some(s)) => Decoded(s, decode)
  }

  /** positionalParameter(pos) with the guard the interface promises
      (pos >= groupCount() || pos < 0): position pos is capture group pos + 1; a position
      outside the groups, or a group that did not take part in the match, gives empty. */
  function PositionalParameterIntended(p: MatcherRouteParams, pos: int, decode: Decoder): (r: Result<Option<string>>)
    ensures pos < 0 || pos >= GroupCount(p.matcher) ==> r == Ok(None)
    ensures r.Ok? && r.value.Some? <==>
              && 0 <= pos < GroupCount(p.matcher)
              && p.matcher.captures[pos].Some?
              && decode(p.matcher.captures[pos].value).Some?
    ensures 0 <= pos < GroupCount(p.matcher) && r.Ok? && r.value.Some? ==>
              Some(r.value.value) == decode(p.matcher.captures[pos].value)
    ensures r.Err? <==>
              && 0 <= pos < GroupCount(p.matcher)
              && p.matcher.captures[pos].Some?
              && decode(p.matcher.captures[pos].value).None?
    ensures r.Err? ==> r.error == IllegalArgumentException
  {
    if pos >= GroupCount(p.matcher) || pos < 0 then Ok(None)
    else
      match Group(p.matcher, pos + 1)
      case Ok(Some(s)) => Decoded(s, decode)
      case _ => Ok(None)
  }

  /** namedParameter(name): empty when the pattern has no group of that name or the group
      did not take part in the match; a malformed escape is caught as well, since the
      handler for IllegalArgumentException also covers the call to the decoder. */
  function NamedParameter(p: MatcherRouteParams, name: string, decode: Decoder): (r: Option<string>)
    ensures r.Some? <==>
              && name in p.matcher.names
              && p.matcher.captures[p.matcher.names[name] - 1].Some?
              && decode(p.matcher.captures[p.matcher.names[name] - 1].value).Some?
    ensures r.Some? && name in p.matcher.names ==>
              r == decode(p.matcher.captures[p.matcher.names[name] - 1].value)
  {
    match NamedGroup(p.matcher, name)
    case Err(_) => None
    case Ok(None) => None
    case Ok(Some(s)) =>
      match Decoded(s, decode)
      case Err(_) => None
      case Ok(v) => v
  }

  /** The inverted guard: every capture that exists, took part in the match and decodes
      is reported as absent by the code as written, and found by the intended accessor. */
  lemma PositionalGuardHidesCaptures(p: MatcherRouteParams, pos: int, decode: Decoder)
    requires 0 <= pos < GroupCount(p.matcher)
    requires p.matcher.captures[pos].Some? && decode(p.matcher.captures[pos].value).Some?
    ensures PositionalParameter(p, pos, decode) == Ok(None)
    ensures PositionalParameterIntended(p, pos, decode) == Ok(decode(p.matcher.captures[pos].value))
  {
  }

  /** The inverted guard: a position past the last group throws as written, and is
      reported as absent by the intended accessor. */
  lemma PositionalGuardThrowsPastEnd(p: MatcherRouteParams, pos: int, decode: Decoder)
    requires pos > GroupCount(p.matcher)
    ensures PositionalParameter(p, pos, decode) == Err(IndexOutOfBoundsException)
    ensures PositionalParameterIntended(p, pos, decode) == Ok(None)
  {
  }

  /** A concrete witness: "/items/42" matched by a pattern with one group capturing "42". */
  lemma PositionalGuardExample(decode: Decoder)
    requires decode("42") == Some("42")
    ensures var p := MatcherRouteParams(RawMatch("/items/42", [Some("42")], map[]));
            && PositionalParameter(p, 0, decode) == Ok(None)
            && PositionalParameterIntended(p, 0, decode) == Ok(Some("42"))
            && PositionalParameter(p, 5, decode) == Err(IndexOutOfBoundsException)
            && PositionalParameterIntended(p, 5, decode) == Ok(None)
  {
  }
}
