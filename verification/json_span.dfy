/** Locating the JSON object inside a free-text model reply: the slice from the first `{` through
    the last `}`, followed by `json.loads` on that slice. Both pipelines run the same code. */
module JsonSpan {
  import opened Wrappers
  import opened Json
  import opened PyStr

  /** `json_start = response_text.find('{')`. */
  function JsonStart(text: string): int
  {
    Find(text, '{')
  }

  /** `json_end = response_text.rfind('}') + 1`. */
  function JsonEnd(text: string): int
  {
    RFind(text, '}') + 1
  }

  /** The guard `json_start == -1 or json_end == -1` that returns early. */
  predicate NoJsonGuard(text: string)
  {
    JsonStart(text) == -1 || JsonEnd(text) == -1
  }

  /** The text holds a `{`, and some `}` lies after the first one. */
  predicate ClosedAfterOpen(text: string)
  {
    0 <= JsonStart(text) && exists j | 0 <= j < |text| :: text[j] == '}' && JsonStart(text) < j
  }

  /** The early return, or the slice handed to `json.loads`. */
  datatype Candidate = NoJsonFound | Span(text: string)

  function CandidateSpan(text: string): (c: Candidate)
    ensures c.NoJsonFound? <==> '{' !in text
    ensures c.Span? ==> JsonStart(text) >= 0
    ensures c.Span? && !ClosedAfterOpen(text) ==> c.text == []
    ensures ClosedAfterOpen(text) ==> c.Span?
    ensures c.Span? && ClosedAfterOpen(text) ==>
      && JsonStart(text) < JsonEnd(text)
      && c.text == text[JsonStart(text)..JsonEnd(text)]
  {
    var start := JsonStart(text);
    var end := JsonEnd(text);
    if start == -1 || end == -1 then NoJsonFound
    else Span(Slice(text, start, end))
  }

  /** A `{` at `i` and a `}` at `j > i` with no `{` before `i` and no `}` after `j`: the
      slice `text[i..j + 1]` is the outermost-brace span, and everything outside it is dropped. */
  ghost predicate OuterBraces(text: string, i: int, j: int)
  {
    && 0 <= i < j < |text|
    && text[i] == '{' && text[j] == '}'
    && (forall k | 0 <= k < i :: text[k] != '{')
    && (forall k | j < k < |text| :: text[k] != '}')
  }

  /** The `json_end == -1` half of the guard can never fire: `rfind` returns at least -1. */
  lemma EndGuardIsDead(text: string)
    ensures JsonEnd(text) >= 0
    ensures NoJsonGuard(text) <==> '{' !in text
  {
  }

  /** The last `}` lies at or after any given `}`. */
  lemma LastCloseAtLeast(text: string, j: int)
    requires 0 <= j < |text| && text[j] == '}'
    ensures RFind(text, '}') >= j
  {
  }

  /** A non-empty candidate is exactly the outermost-brace span: it runs from the first `{` to
      the last `}`, with the text before and after left out. */
  lemma SpanIsOuterBraces(text: string)
    requires ClosedAfterOpen(text)
    ensures OuterBraces(text, JsonStart(text), JsonEnd(text) - 1)
    ensures CandidateSpan(text) == Span(text[JsonStart(text)..JsonEnd(text)])
  {
    var i := JsonStart(text);
    var j :| 0 <= j < |text| && text[j] == '}' && i < j;
    LastCloseAtLeast(text, j);
  }

  /** Conversely, any outermost-brace span is the one the code extracts. */
  lemma OuterBracesIsSpan(text: string, i: int, j: int)
    requires OuterBraces(text, i, j)
    ensures CandidateSpan(text) == Span(text[i..j + 1])
  {
    FindUnique(text, '{', i);
    RFindUnique(text, '}', j);
    assert ClosedAfterOpen(text);
  }

  /** A `{` with no `}` after it (none at all, or only before the first `{`) does not take the
      early return: it yields the empty slice. */
  lemma UnclosedGivesEmptySlice(text: string)
    requires '{' in text && !ClosedAfterOpen(text)
    ensures CandidateSpan(text) == Span([])
  {
  }

  /** What the `try` block makes of the reply: no candidate, a candidate `json.loads` rejects
      (the JSONDecodeError handler), or the parsed object. */
  datatype Decoded = NoJson | DecodeError(candidate: string) | Parsed(obj: Json)

  /** `loads` stands for `json.loads`, `None` meaning it raised JSONDecodeError. */
  function DecodeReply(text: string, loads: string -> Option<Json>): (d: Decoded)
    ensures d.NoJson? <==> '{' !in text
    ensures d.DecodeError? ==> CandidateSpan(text) == Span(d.candidate) && loads(d.candidate).None?
    ensures d.Parsed? ==> CandidateSpan(text).Span? && loads(CandidateSpan(text).text) == Some(d.obj)
  {
    match CandidateSpan(text)
    case NoJsonFound => NoJson
    case Span(candidate) =>
      match loads(candidate)
      case None => DecodeError(candidate)
      case Some(obj) => Parsed(obj)
  }

  /** Because `json.loads("")` raises, an unclosed `{` ends in the decode-error handler, not in the
      "no JSON" branch; only a reply without any `{` reaches that branch. */
  lemma UnclosedIsDecodeError(text: string, loads: string -> Option<Json>)
    requires loads([]).None?
    requires '{' in text && !ClosedAfterOpen(text)
    ensures DecodeReply(text, loads) == DecodeError([])
  {
    UnclosedGivesEmptySlice(text);
  }
}
