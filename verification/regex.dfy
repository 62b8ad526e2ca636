/** The regular-expression library as the router sees it. Matching and percent-decoding
    are foreign calls: the model does not interpret them, it receives them as functions. */
module Regex {
  import opened Lang

  /** A compiled java.util.regex.Pattern, identified by its source text. */
  datatype Pattern = Pattern(regex: string)

  /** The state of a Matcher after matches() succeeded: the matched input, the text of
      capture groups 1..groupCount() (None when a group did not participate), and the
      group number of every named group of the pattern. */
  datatype RawMatch = RawMatch(input: string, captures: seq<Option<string>>, names: map<string, nat>)

  /** Every named group of a pattern is one of its numbered capture groups. */
  predicate WellFormed(m: RawMatch)
  {
    forall name :: name in m.names ==> 1 <= m.names[name] <= |m.captures|
  }

  type Match = m: RawMatch | WellFormed(m) witness RawMatch("", [], map[])

  /** pattern.matcher(input).matches(): None when the pattern does not match the
      whole input, otherwise the resulting match. */
  type Engine = (Pattern, string) -> Option<Match>

  /** URLDecoder.decode(s, UTF_8): None stands for the IllegalArgumentException it
      throws on a malformed percent escape. */
  type Decoder = string -> Option<string>

  /** Whether a pattern matches an entire path (not merely a substring of it). */
  predicate FullMatch(engine: Engine, p: Pattern, path: string)
  {
    engine(p, path).Some?
  }

  /** Matcher.groupCount(): the number of capture groups, not counting group 0. */
  function GroupCount(m: Match): nat
  {
    |m.captures|
  }

  /** Matcher.group(int): group 0 is the whole input; an index outside
      0..groupCount() throws. */
  function Group(m: Match, group: int): (r: Result<Option<string>>)
    ensures r.Ok? <==> 0 <= group <= GroupCount(m)
    ensures 1 <= group <= GroupCount(m) ==> r == Ok(m.captures[group - 1])
  {
    if group < 0 || group > |m.captures| then Err(IndexOutOfBoundsException)
    else if group == 0 then Ok(Some(m.input))
    else Ok(m.captures[group - 1])
  }

  /** Matcher.group(String): a name that is not a group of the pattern throws. */
  function NamedGroup(m: Match, name: string): (r: Result<Option<string>>)
    ensures r.Ok? <==> name in m.names
    ensures name in m.names ==> r == Ok(m.captures[m.names[name] - 1])
  {
    if name in m.names then Group(m, m.names[name]) else Err(IllegalArgumentException)
  }
}
