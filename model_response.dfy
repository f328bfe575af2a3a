/**
 * How the server turns the language model's reply into an analysis
 * (analyzeImages in backend/server.js): the reply text is searched for
 * /\{[\s\S]*\}/, the match is handed to JSON.parse, and the parsed object is
 * normalised; no reply, no match or a parse failure falls back to the mock.
 */
module ModelResponse {
  import opened Wrappers
  import ScoreNormalizer

  /** Index of the first `c` in s[from..], if any. */
  function FirstIndexOf(s: string, c: char, from: nat): (r: Option<nat>)
    requires from <= |s|
    ensures r.None? ==> forall k :: from <= k < |s| ==> s[k] != c
    ensures r.Some? ==> from <= r.value < |s| && s[r.value] == c
                        && forall k :: from <= k < r.value ==> s[k] != c
    decreases |s| - from
  {
    if from == |s| then None
    else if s[from] == c then Some(from)
    else FirstIndexOf(s, c, from + 1)
  }

  /** Index of the last `c` in s[..upto], if any. */
  function LastIndexOf(s: string, c: char, upto: nat): (r: Option<nat>)
    requires upto <= |s|
    ensures r.None? ==> forall k :: 0 <= k < upto ==> s[k] != c
    ensures r.Some? ==> r.value < upto && s[r.value] == c
                        && forall k :: r.value < k < upto ==> s[k] != c
  {
    if upto == 0 then None
    else if s[upto - 1] == c then Some(upto - 1)
    else LastIndexOf(s, c, upto - 1)
  }

  /** Some brace at i is followed by a closing brace at j. */
  predicate HasBracePair(s: string)
  {
    exists i, j :: 0 <= i < j < |s| && s[i] == '{' && s[j] == '}'
  }

  /**
   * `content.match(/\{[\s\S]*\}/)`: the leftmost `{` starts the match and the
   * greedy middle runs to the last `}`; with no `}` after the first `{` no
   * later `{` can match either.
   */
  function ExtractJsonBlock(content: string): (block: Option<string>)
    ensures block.None? <==> !HasBracePair(content)
    ensures block.Some? ==>
      exists i, j :: 0 <= i < j < |content| && content[i] == '{' && content[j] == '}'
        && block.value == content[i..j + 1]
        && (forall k :: 0 <= k < i ==> content[k] != '{')
        && (forall k :: j < k < |content| ==> content[k] != '}')
    ensures block.Some? ==> 2 <= |block.value| && block.value[0] == '{' && block.value[|block.value| - 1] == '}'
  {
    match FirstIndexOf(content, '{', 0)
    case None => None
    case Some(i) =>
      match LastIndexOf(content, '}', |content|)
      case None => None
      case Some(j) =>
        if i < j then Some(content[i..j + 1]) else None
  }

  /** What analyzeImages hands back to the /analyze handler. */
  datatype Analysis = MockFallback | Analyzed(result: ScoreNormalizer.AnalysisResult)

  /**
   * `reply` is None when there is no client or the call to the model
   * failed; `parse` stands for JSON.parse (None when it throws).
   */
  function AnalyzeReply(reply: Option<string>, parse: string -> Option<ScoreNormalizer.RawAnalysis>): (a: Analysis)
    ensures a.Analyzed? <==>
      reply.Some? && ExtractJsonBlock(reply.value).Some? && parse(ExtractJsonBlock(reply.value).value).Some?
    ensures a.Analyzed? ==>
      a.result == ScoreNormalizer.Normalized(parse(ExtractJsonBlock(reply.value).value).value)
      && 0 <= a.result.score <= ScoreNormalizer.MaxTotal
  {
    match reply
    case None => MockFallback
    case Some(content) =>
      match ExtractJsonBlock(content)
      case None => MockFallback
      case Some(block) =>
        match parse(block)
        case None => MockFallback
        case Some(raw) =>
          ScoreNormalizer.TotalIsClampedRawTotal(raw);
          Analyzed(ScoreNormalizer.Normalized(raw))
  }

  /** A reply with no `{`…`}` pair always takes the mock fallback, whatever the parser. */
  lemma NoBraceMeansFallback(content: string, parse: string -> Option<ScoreNormalizer.RawAnalysis>)
    requires !HasBracePair(content)
    ensures AnalyzeReply(Some(content), parse) == MockFallback
  {
  }

  /** Text around the object is dropped: "Sure! {…} Hope this helps." yields "{…}". */
  lemma SurroundingTextDropped()
    ensures ExtractJsonBlock("ok {\"a\":{}} bye") == Some("{\"a\":{}}")
  {
    var s := "ok {\"a\":{}} bye";
    assert s[0] != '{' && s[1] != '{' && s[2] != '{' && s[3] == '{';
    assert s[10] == '}' && s[11] != '}' && s[12] != '}' && s[13] != '}' && s[14] != '}';
    assert FirstIndexOf(s, '{', 0) == Some(3);
    assert LastIndexOf(s, '}', |s|) == Some(10);
    assert s[3..11] == "{\"a\":{}}";
  }
}
