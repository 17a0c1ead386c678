/** `text.match(/\{[\s\S]*\}/)` on line 63 of api/analyze.js, modelled the
    way an ECMAScript engine evaluates it (section 22.2 of ECMA-262): the
    pattern is tried at positions 0, 1, ... in turn (the first position that
    succeeds wins); at each position `\{` must match, then the greedy
    `[\s\S]*` claims every remaining character and gives them back one at a
    time until `\}` matches. `[\s\S]` is the union of a class and its
    complement, so it accepts every character, line terminators included. */
module JsonMatch {
  import opened Wrappers
  import opened BraceSpan

  /** The greedy star starting at `q` currently holding `n` characters: if
      `}` matches right after them the match ends there, otherwise the star
      gives one character back. Returns the end (exclusive) of the match. */
  function Backtrack(s: string, q: nat, n: nat): (r: Option<nat>)
    requires q + n <= |s|
    ensures r.Some? ==> q < r.value <= q + n + 1 && r.value <= |s| && s[r.value - 1] == '}'
    ensures r.Some? ==> forall k :: r.value <= k <= q + n && k < |s| ==> s[k] != '}'
    ensures r.None? <==> forall k :: q <= k <= q + n && k < |s| ==> s[k] != '}'
    decreases n
  {
    if q + n < |s| && s[q + n] == '}' then Some(q + n + 1)
    else if n == 0 then None
    else Backtrack(s, q, n - 1)
  }

  /** The pattern tried at position `p`: the end of the match, if any. */
  function MatchAt(s: string, p: nat): (r: Option<nat>)
    requires p <= |s|
    ensures r.Some? ==> p < |s| && s[p] == '{' && p + 2 <= r.value && IsPastLastClose(s, r.value)
    ensures r.None? <==> !(p < |s| && s[p] == '{' && exists j :: p < j < |s| && s[j] == '}')
  {
    if p < |s| && s[p] == '{' then
      Backtrack(s, p + 1, |s| - (p + 1))
    else None
  }

  /** The leftmost match at or after `p`. The engine gives up once the
      start position passes the end of the string. */
  function SearchFrom(s: string, p: nat): (r: Option<Span>)
    requires p <= |s|
    ensures r.None? <==> !exists i, j :: p <= i < j < |s| && s[i] == '{' && s[j] == '}'
    ensures r.Some? ==> p <= r.value.start < |s| && s[r.value.start] == '{'
    ensures r.Some? ==> forall k :: p <= k < r.value.start ==> s[k] != '{'
    ensures r.Some? ==> r.value.start + 2 <= r.value.end && IsPastLastClose(s, r.value.end)
    decreases |s| - p
  {
    match MatchAt(s, p)
    case Some(e) => Some(Span(p, e))
    case None => if p == |s| then None else SearchFrom(s, p + 1)
  }

  /** The engine's match over the whole reply agrees with the first-`{`
      through last-`}` characterisation. */
  lemma MatchIsFirstToLast(s: string)
    ensures SearchFrom(s, 0) == FirstToLast(s)
  {
  }

  /** `jsonMatch[0]` when the reply matches, `null` otherwise. */
  function Match(s: string): (r: Option<string>)
    ensures r == ExtractJson(s)
  {
    MatchIsFirstToLast(s);
    match SearchFrom(s, 0)
    case None => None
    case Some(sp) => Some(s[sp.start..sp.end])
  }
}
