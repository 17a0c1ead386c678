/** The declarative meaning of the extraction on line 63 of api/analyze.js:
    the span of the reply from its first `{` through its last `}`.
    A Dafny `char` is a Unicode scalar value, so positions here count code
    points where JavaScript counts UTF-16 code units; since `{` and `}` are
    single code units, the extracted text of well-formed text is the same. */
module BraceSpan {
  import opened Wrappers

  /** A half-open range `[start, end)` of positions in a string. */
  datatype Span = Span(start: nat, end: nat)

  /** Position of the first occurrence of `c` in `s`, if any. */
  function FirstIndexOf(s: string, c: char): (r: Option<nat>)
    ensures r.Some? ==> r.value < |s| && s[r.value] == c
    ensures r.Some? ==> forall k :: 0 <= k < r.value ==> s[k] != c
    ensures r.None? <==> c !in s
  {
    if |s| == 0 then None
    else if s[0] == c then Some(0)
    else
      match FirstIndexOf(s[1..], c)
      case None => None
      case Some(i) => Some(i + 1)
  }

  /** Position of the last occurrence of `c` in `s`, if any. */
  function LastIndexOf(s: string, c: char): (r: Option<nat>)
    ensures r.Some? ==> r.value < |s| && s[r.value] == c
    ensures r.Some? ==> forall k :: r.value < k < |s| ==> s[k] != c
    ensures r.None? <==> c !in s
  {
    if |s| == 0 then None
    else if s[|s| - 1] == c then Some(|s| - 1)
    else LastIndexOf(s[..|s| - 1], c)
  }

  /** Some `{` occurs strictly before some `}`. */
  ghost predicate HasBracePair(s: string) {
    exists i, j :: 0 <= i < j < |s| && s[i] == '{' && s[j] == '}'
  }

  /** `a` is the position of the first `{` in `s`. */
  ghost predicate IsFirstOpen(s: string, a: int) {
    0 <= a < |s| && s[a] == '{' && forall k :: 0 <= k < a ==> s[k] != '{'
  }

  /** `e - 1` is the position of the last `}` in `s`. */
  ghost predicate IsPastLastClose(s: string, e: int) {
    0 < e <= |s| && s[e - 1] == '}' && forall k :: e <= k < |s| ==> s[k] != '}'
  }

  /** The span from the first `{` through the last `}`, when the first
      `{` comes before the last `}`. */
  function FirstToLast(s: string): (r: Option<Span>)
    ensures r.Some? <==> HasBracePair(s)
    ensures r.Some? ==> IsFirstOpen(s, r.value.start)
    ensures r.Some? ==> IsPastLastClose(s, r.value.end)
    ensures r.Some? ==> r.value.start + 2 <= r.value.end
  {
    match (FirstIndexOf(s, '{'), LastIndexOf(s, '}'))
    case (Some(i), Some(j)) => if i < j then Some(Span(i, j + 1)) else None
    case _ => None
  }

  /** The text of that span: what the handler hands to the JSON parser. */
  function ExtractJson(s: string): (r: Option<string>)
    ensures r.None? <==> !HasBracePair(s)
    ensures r.Some? ==> 2 <= |r.value| && r.value[0] == '{' && r.value[|r.value| - 1] == '}'
    ensures r.Some? ==> exists a :: IsFirstOpen(s, a) && IsPastLastClose(s, a + |r.value|)
                                    && s[a..a + |r.value|] == r.value
  {
    match FirstToLast(s)
    case None => None
    case Some(sp) => Some(s[sp.start..sp.end])
  }

  /** At most one span qualifies: the first `{` and the last `}` are
      unique, so any span meeting the characterisation is `FirstToLast`'s. */
  lemma SpanIsUnique(s: string, a: int, e: int)
    requires IsFirstOpen(s, a) && IsPastLastClose(s, e) && a + 1 < e
    ensures FirstToLast(s) == Some(Span(a, e))
  {
  }

  /** Every `}` that follows some `{`, and every `{` that precedes some
      `}`, lies inside the extracted span: nested objects, stray braces and
      newlines between the outermost pair are all kept. */
  lemma SpanKeepsInnerBraces(s: string, k: int)
    requires 0 <= k < |s|
    requires || (s[k] == '}' && exists i :: 0 <= i < k && s[i] == '{')
             || (s[k] == '{' && exists j :: k < j < |s| && s[j] == '}')
    ensures FirstToLast(s).Some?
    ensures FirstToLast(s).value.start <= k < FirstToLast(s).value.end
  {
  }

  /** Extraction is idempotent: the span, extracted again, is itself. */
  lemma ExtractJsonIdempotent(s: string)
    requires HasBracePair(s)
    ensures ExtractJson(ExtractJson(s).value) == ExtractJson(s)
  {
    var t := ExtractJson(s).value;
    assert IsFirstOpen(t, 0);
    assert IsPastLastClose(t, |t|);
    SpanIsUnique(t, 0, |t|);
    assert t[0..|t|] == t;
  }

  /** A reply that wraps the object in prose and a Markdown code fence
      yields the object alone, its nested braces included. */
  lemma FencedReplyExample()
    ensures ExtractJson("```json\n" + "{\"a\":{}}" + "\n```") == Some("{\"a\":{}}")
  {
    var fence, obj := "```json\n", "{\"a\":{}}";
    var s := fence + obj + "\n```";
    assert IsFirstOpen(s, 8);
    assert IsPastLastClose(s, 16);
    SpanIsUnique(s, 8, 16);
    assert s[8..16] == obj by { assert s[..16] == fence + obj; }
  }

  /** Two separate objects in one reply are not told apart: the span runs
      from the first object's `{` to the second object's `}`, prose between
      them included. */
  lemma TwoObjectsExample()
    ensures ExtractJson("{\"x\":1} or {\"y\":2}") == Some("{\"x\":1} or {\"y\":2}")
  {
    var s := "{\"x\":1} or {\"y\":2}";
    assert IsFirstOpen(s, 0);
    assert IsPastLastClose(s, |s|);
    SpanIsUnique(s, 0, |s|);
    assert s[0..|s|] == s;
  }
}
