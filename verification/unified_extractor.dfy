/**
 * src/agents/unified_extractor.py: the single-pass analysis agent's response record,
 * the brace-span cleaner applied to free-text model output, and the choice between
 * the local backend (free text, cleaned then parsed) and the cloud backend
 * (structured output).
 */
module UnifiedExtractor {
  import opened Wrappers
  import opened Text

  /** A value of a dumped record: the response only holds booleans and strings. */
  datatype Value = Bool(b: bool) | Str(s: string)

  /** A Python dict with string keys, as `model_dump()` produces. */
  type Dict = map<string, Value>

  /** The fields of `UnifiedLegalResponse`. */
  datatype UnifiedLegalResponse = UnifiedLegalResponse(
    isLegal: bool,
    docType: string,
    briefingMd: string,
    glossaryMd: string,
    risksMd: string,
    verdict: string,
    coachesTipMd: string)

  /** `response.model_dump()`: one entry per field, never empty. */
  function ModelDump(r: UnifiedLegalResponse): (d: Dict)
    ensures "is_legal" in d && d["is_legal"] == Bool(r.isLegal)
    ensures d != map[]
    ensures "doc_type" in d && d["doc_type"] == Str(r.docType)
    ensures "verdict" in d && d["verdict"] == Str(r.verdict)
  {
    map[
      "is_legal" := Bool(r.isLegal),
      "doc_type" := Str(r.docType),
      "briefing_md" := Str(r.briefingMd),
      "glossary_md" := Str(r.glossaryMd),
      "risks_md" := Str(r.risksMd),
      "verdict" := Str(r.verdict),
      "coaches_tip_md" := Str(r.coachesTipMd)]
  }

  // ---------------------------------------------------------------------------
  // clean_json_text
  // ---------------------------------------------------------------------------

  /** Index of the first `c` in `s`. */
  function FirstIndex(s: string, c: char): (r: Option<nat>)
    ensures r.Some? ==> r.value < |s| && s[r.value] == c
    ensures r.Some? ==> forall k :: 0 <= k < r.value ==> s[k] != c
    ensures r.None? ==> forall k :: 0 <= k < |s| ==> s[k] != c
  {
    if s == [] then None
    else if s[0] == c then Some(0)
    else
      match FirstIndex(s[1..], c)
      case None => None
      case Some(i) => Some(i + 1)
  }

  /** Index of the last `c` in `s`. */
  function LastIndex(s: string, c: char): (r: Option<nat>)
    ensures r.Some? ==> r.value < |s| && s[r.value] == c
    ensures r.Some? ==> forall k :: r.value < k < |s| ==> s[k] != c
    ensures r.None? ==> forall k :: 0 <= k < |s| ==> s[k] != c
  {
    if s == [] then None
    else if s[|s| - 1] == c then Some(|s| - 1)
    else LastIndex(s[..|s| - 1], c)
  }

  /** `s[i..j]` is matched by the pattern `\{.*\}` with DOTALL: it opens with `{` and closes with `}`. */
  ghost predicate IsBraceSpan(s: string, i: int, j: int) {
    0 <= i < j <= |s| && s[i] == '{' && s[j - 1] == '}'
  }

  /** Some `{` has a `}` after it. */
  ghost predicate HasBraceSpan(s: string) {
    exists i, j :: IsBraceSpan(s, i, j)
  }

  /**
   * `s[i..j]` is what `re.search(r"\{.*\}", s, re.DOTALL)` returns: the leftmost
   * start at which the pattern matches, and at that start the longest match
   * (the greedy `.*`).
   */
  ghost predicate IsSearchResult(s: string, i: int, j: int) {
    && IsBraceSpan(s, i, j)
    && (forall i', j' :: IsBraceSpan(s, i', j') ==> i <= i')
    && (forall j' :: IsBraceSpan(s, i, j') ==> j' <= j)
  }

  /** The bounds of the regex match, if there is one. */
  function SearchBraces(s: string): (m: Option<(nat, nat)>)
    ensures m.Some? ==> IsSearchResult(s, m.value.0, m.value.1)
    ensures m.None? ==> !HasBraceSpan(s)
  {
    match (FirstIndex(s, '{'), LastIndex(s, '}'))
    case (Some(i), Some(j)) => if i < j then Some((i, j + 1)) else None
    case _ => None
  }

  /** `clean_json_text`: the matched brace span, or the text itself when nothing matches. */
  function CleanJsonText(text: string): (r: string)
    ensures IsInfix(r, text)
    ensures HasBraceSpan(text) ==> |r| >= 2 && r[0] == '{' && r[|r| - 1] == '}'
    ensures !HasBraceSpan(text) ==> r == text
  {
    match SearchBraces(text)
    case Some((i, j)) =>
      assert OccursAt(text[i..j], text, i);
      text[i..j]
    case None =>
      assert OccursAt(text, text, 0);
      text
  }

  /** The result is the regex match when there is one. */
  lemma CleanIsSearchMatch(text: string)
    requires HasBraceSpan(text)
    ensures exists i, j :: IsSearchResult(text, i, j) && CleanJsonText(text) == text[i..j]
  {
    var m := SearchBraces(text);
    assert IsSearchResult(text, m.value.0, m.value.1);
  }

  /** With `{` first at `i` and `}` last at `j > i`, the result runs from `i` through `j`, newlines included. */
  lemma {:induction false} CleanSpansFirstOpenToLastClose(text: string, i: nat, j: nat)
    requires i < j < |text| && text[i] == '{' && text[j] == '}'
    requires forall k :: 0 <= k < i ==> text[k] != '{'
    requires forall k :: j < k < |text| ==> text[k] != '}'
    ensures CleanJsonText(text) == text[i..j + 1]
  {
    assert IsBraceSpan(text, i, j + 1);
    var m := SearchBraces(text);
    var (a, b) := m.value;
    assert IsBraceSpan(text, a, b);
    assert a == i;
    assert b == j + 1;
  }

  /** Cleaning twice is cleaning once. */
  lemma CleanIdempotent(text: string)
    ensures CleanJsonText(CleanJsonText(text)) == CleanJsonText(text)
  {
    var r := CleanJsonText(text);
    if HasBraceSpan(text) {
      var f := FirstIndex(r, '{');
      var l := LastIndex(r, '}');
      assert r[0] == '{' && r[|r| - 1] == '}';
      assert f == Some(0);
      assert l == Some(|r| - 1);
      assert r[0..|r|] == r;
    }
  }

  /**
   * Conversational filler is dropped: a JSON object preceded by text without `{`
   * and followed by text without `}` cleans to the object alone.
   */
  lemma CleanDropsFiller(before: string, json: string, after: string)
    requires |json| >= 2 && json[0] == '{' && json[|json| - 1] == '}'
    requires forall k :: 0 <= k < |before| ==> before[k] != '{'
    requires forall k :: 0 <= k < |after| ==> after[k] != '}'
    ensures CleanJsonText(before + json + after) == json
  {
    var text := before + json + after;
    var i, j := |before|, |before| + |json| - 1;
    assert text[i] == json[0];
    assert text[j] == json[|json| - 1];
    forall k | 0 <= k < i ensures text[k] != '{' {
      assert text[k] == before[k];
    }
    forall k | j < k < |text| ensures text[k] != '}' {
      assert text[k] == after[k - |before| - |json|];
    }
    CleanSpansFirstOpenToLastClose(text, i, j);
    assert text[i..j + 1] == json;
  }

  // ---------------------------------------------------------------------------
  // get_unified_agent
  // ---------------------------------------------------------------------------

  /** The two ways of obtaining a `UnifiedLegalResponse`. */
  datatype Backend = Local | Cloud

  /** The backend `USE_LOCAL_AI` selects (`None` when the variable is unset). */
  function SelectBackend(useLocalAi: Option<string>): (b: Backend)
    ensures b == Local <==> useLocalAi == Some("true")
  {
    if useLocalAi == Some("true") then Local else Cloud
  }

  /** What the agent hands back to its caller. */
  datatype AgentResult =
    | Response(response: UnifiedLegalResponse)
    /** a returned value without an `is_legal` attribute, such as None from structured output */
    | NoRecord
    | Raised(error: string)

  /** What `PydanticOutputParser.parse` does with a string. */
  datatype Parsed = Parsed(value: UnifiedLegalResponse) | ParseError(message: string)

  /** The model calls and the parser, as the collaborators they are. */
  datatype Collaborators = Collaborators(
    /** the local chat model's text answer to the prompt built around the contract text */
    localModel: string -> Outcome<string>,
    /** the output parser for `UnifiedLegalResponse` */
    parse: string -> Parsed,
    /** the cloud chain with structured output */
    structured: string -> AgentResult)

  /** The local chain: prompt the model, clean its text, parse the span. */
  function LocalChain(c: Collaborators, contractText: string): (r: AgentResult)
    ensures c.localModel(contractText).Raise? ==> r == Raised(c.localModel(contractText).error)
    ensures !r.NoRecord?
  {
    match c.localModel(contractText)
    case Raise(e) => Raised(e)
    case Ok(content) =>
      match c.parse(CleanJsonText(content))
      case Parsed(v) => Response(v)
      case ParseError(m) => Raised(m)
  }

  /** Calling the agent `get_unified_agent` returns on `contractText`. */
  function InvokeUnifiedAgent(useLocalAi: Option<string>, c: Collaborators, contractText: string): (r: AgentResult)
    ensures SelectBackend(useLocalAi) == Cloud ==> r == c.structured(contractText)
    ensures SelectBackend(useLocalAi) == Local ==> r == LocalChain(c, contractText)
  {
    match SelectBackend(useLocalAi)
    case Local => LocalChain(c, contractText)
    case Cloud => c.structured(contractText)
  }

  /**
   * On the local backend, filler the model puts around its JSON object does not
   * change the outcome: the parser sees the object alone.
   */
  lemma LocalIgnoresFiller(c: Collaborators, contractText: string, before: string, json: string, after: string)
    requires c.localModel(contractText) == Ok(before + json + after)
    requires |json| >= 2 && json[0] == '{' && json[|json| - 1] == '}'
    requires forall k :: 0 <= k < |before| ==> before[k] != '{'
    requires forall k :: 0 <= k < |after| ==> after[k] != '}'
    ensures InvokeUnifiedAgent(Some("true"), c, contractText)
      == match c.parse(json) case Parsed(v) => Response(v) case ParseError(m) => Raised(m)
  {
    CleanDropsFiller(before, json, after);
  }
}
