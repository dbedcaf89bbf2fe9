/**
  The response normaliser of `fetchAnalysis` (src/api.js): it turns the model's reply
  text into an analysis record. The reply is trimmed, a Markdown code fence is
  stripped, the text is cut down to the span from the first `{` to the last `}`,
  handed to `JSON.parse`, and the three scores and three lists of the parsed object
  are coerced. `JSON.parse` itself is a parameter: any function from text to a JSON
  value or a failure.
*/
module Normalizer {
  import opened Wrappers
  import opened JsString
  import opened JsValue

  const NoContentMessage := "No content returned by Gemini."
  const Fence := "```"

  /** Why no record comes back. */
  datatype NormalizeError =
    | EmptyResponse(message: string)
    | MalformedResponse(text: string)
    | NotAnObject(value: Json)
    | UnconvertibleScore

  /* ---------- Text preparation ---------- */

  /** `json` in any letter case. */
  predicate IsJsonWord(w: string)
    requires |w| == 4
  {
    && (w[0] == 'j' || w[0] == 'J') && (w[1] == 's' || w[1] == 'S')
    && (w[2] == 'o' || w[2] == 'O') && (w[3] == 'n' || w[3] == 'N')
  }

  /** The text starts with a match of `/^```json/i`. */
  predicate StartsWithJsonFence(text: string) {
    |text| >= 7 && text[..3] == Fence && IsJsonWord(text[3..7])
  }

  // `text.replace(/^```json\s*/i, "")`: on a match, what is left is the suffix after the
  // seven fence characters and the white space behind them.
  function DropJsonFence(text: string): (r: string)
    ensures !StartsWithJsonFence(text) ==> r == text
    ensures StartsWithJsonFence(text) ==>
      && |r| <= |text| - 7 && r == text[|text| - |r|..]
      && AllSpaces(text[7..|text| - |r|])
      && (r == [] || !IsSpace(r[0]))
  {
    if StartsWithJsonFence(text) then
      var rest := text[7..];
      TrimStartIsSuffix(rest);
      assert rest[|rest| - |TrimStart(rest)|..] == text[|text| - |TrimStart(rest)|..];
      TrimStart(rest)
    else text
  }

  // `text.replace(/^```\s*/i, "")`: on a match, what is left is the suffix after the
  // three backticks and the white space behind them.
  function DropFence(text: string): (r: string)
    ensures !StartsWith(text, Fence) ==> r == text
    ensures StartsWith(text, Fence) ==>
      && |r| <= |text| - 3 && r == text[|text| - |r|..]
      && AllSpaces(text[3..|text| - |r|])
      && (r == [] || !IsSpace(r[0]))
  {
    if StartsWith(text, Fence) then
      var rest := text[3..];
      TrimStartIsSuffix(rest);
      assert rest[|rest| - |TrimStart(rest)|..] == text[|text| - |TrimStart(rest)|..];
      TrimStart(rest)
    else text
  }

  /** `text.replace(/```$/, "")`: three backticks go only when they end the text. */
  function DropClosingFence(text: string): (r: string)
    ensures EndsWith(text, Fence) ==> text == r + Fence
    ensures !EndsWith(text, Fence) ==> r == text
  {
    if EndsWith(text, Fence) then
      assert text == text[..|text| - 3] + text[|text| - 3..];
      text[..|text| - 3]
    else text
  }

  /** The fence stripping: the three replacements run one after the other, only on fenced text. */
  function StripFences(text: string): (r: string)
    ensures !StartsWith(text, Fence) ==> r == text
    ensures StartsWith(text, Fence) ==> |r| + 3 <= |text|
  {
    if StartsWith(text, Fence) then DropClosingFence(DropFence(DropJsonFence(text))) else text
  }

  /**
    The brace extraction: from the first `{` to the last `}` when both occur; empty
    when that `}` comes before that `{`; the text unchanged when either is missing.
  */
  function ExtractObject(text: string): (r: string)
    ensures '{' !in text || '}' !in text ==> r == text
    ensures '{' in text && '}' in text && IndexOf(text, '{').value <= LastIndexOf(text, '}').value ==>
      && r == text[IndexOf(text, '{').value..LastIndexOf(text, '}').value + 1]
      && r[0] == '{' && r[|r| - 1] == '}'
    ensures '{' in text && '}' in text && LastIndexOf(text, '}').value < IndexOf(text, '{').value ==> r == []
  {
    match (IndexOf(text, '{'), LastIndexOf(text, '}'))
    case (Some(first), Some(last)) => if first <= last then text[first..last + 1] else ""
    case _ => text
  }

  /** The text handed to `JSON.parse`. */
  function PrepareText(reply: string): (r: string)
    ensures |r| <= |reply|
  {
    ExtractObject(StripFences(Trim(reply)))
  }

  /* ---------- Field coercion ---------- */

  const ScoreKeys: set<string> := {"security", "structure_readability", "space_performance_optimization"}
  const ListKeys: set<string> := {"strengths", "issues", "suggestions"}
  const CoercedKeys: set<string> := {"scores"} + ListKeys

  function Get(props: map<string, Json>, key: string): Option<Json> {
    if key in props then Some(props[key]) else None
  }

  /** `(parsed.scores || {})[key]`; a property read on anything but an object is `undefined`. */
  function ScoreField(parsed: map<string, Json>, key: string): (r: Option<Json>)
    ensures !Truthy(Get(parsed, "scores")) ==> r == Get(map[], key)
    ensures "scores" in parsed && parsed["scores"].JObject? ==> r == Get(parsed["scores"].props, key)
    ensures "scores" in parsed && Truthy(Some(parsed["scores"])) && !parsed["scores"].JObject? ==> r.None?
  {
    var s := if Truthy(Get(parsed, "scores")) then parsed["scores"] else JObject(map[]);
    if s.JObject? then Get(s.props, key) else None
  }

  /** `Math.min(100, Math.max(0, x))`. */
  function ClampPercent(x: int): (r: int)
    ensures 0 <= r <= 100
    ensures 0 <= x <= 100 ==> r == x
    ensures x < 0 ==> r == 0
    ensures x > 100 ==> r == 100
  {
    var atLeastZero := if x < 0 then 0 else x;
    if atLeastZero > 100 then 100 else atLeastZero
  }

  /**
    `coerce(v)`: `parseInt(v, 10)`; 0 unless that is a finite number, otherwise
    `Math.round` of it clamped to [0, 100]. `None` is the TypeError `parseInt` throws
    when converting `v` to a string throws.
  */
  function Coerce(v: Option<Json>): (r: Option<int>)
    ensures r.None? <==> v.Some? && ThrowsOnToString(v.value)
    ensures r.Some? ==> 0 <= r.value <= 100
  {
    match PropertyString(v)
    case None => None
    case Some(s) => Some(CoerceParsed(ParseInt(s)))
  }

  /** The part of `coerce` after `parseInt`, on its result (`None` is NaN). */
  function CoerceParsed(p: Option<int>): (r: int)
    ensures 0 <= r <= 100
    ensures p.None? ==> r == 0
    ensures p.Some? && !IsFinite(p.value) ==> r == 0
    ensures p.Some? && IsFinite(p.value) ==>
      (0 <= p.value <= 100 ==> r == p.value) && (p.value < 0 ==> r == 0) && (p.value > 100 ==> r == 100)
  {
    match p
    case None => 0
    case Some(n) => if !IsFinite(n) then 0 else ClampPercent(MathRound(n as real))
  }

  /** A score as the normaliser writes it: an integer in [0, 100]. */
  predicate IsScore(v: Json) {
    v.JNumber? && v.scale == 0 && 0 <= v.mantissa <= 100
  }

  /** A coercion whose every result, when it does not throw, is a percentage. */
  ghost predicate IsPercentCoercion(coerce: Option<Json> -> Option<int>) {
    forall v :: coerce(v).Some? ==> 0 <= coerce(v).value <= 100
  }

  /** None of the three scores makes the coercion throw. */
  predicate ScoresConvert(parsed: map<string, Json>, coerce: Option<Json> -> Option<int>) {
    forall k :: k in ScoreKeys ==> coerce(ScoreField(parsed, k)).Some?
  }

  /** `Coerce` is one. */
  lemma CoerceIsPercent()
    ensures IsPercentCoercion(Coerce)
  {
  }

  /** The new `scores` object of lines 57-61: `coerce` applied to each of the three scores. */
  function CoercedScores(parsed: map<string, Json>, coerce: Option<Json> -> Option<int>): (r: Json)
    requires IsPercentCoercion(coerce) && ScoresConvert(parsed, coerce)
    ensures r.JObject? && r.props.Keys == ScoreKeys
    ensures forall k :: k in r.props ==> IsScore(r.props[k]) && Some(r.props[k].mantissa) == coerce(ScoreField(parsed, k))
  {
    JObject(map k | k in ScoreKeys :: JNumber(coerce(ScoreField(parsed, k)).value, 0))
  }

  /** `Array.isArray(v) ? v : []`. */
  function ListOrEmpty(v: Option<Json>): (r: Json)
    ensures r.JArray?
    ensures v.Some? && v.value.JArray? ==> r == v.value
    ensures !(v.Some? && v.value.JArray?) ==> r == JArray([])
  {
    if v.Some? && v.value.JArray? then v.value else JArray([])
  }

  /**
    Lines 51-64: the parsed object with its scores and its three lists replaced, all
    else kept; `coerce` is the score coercion (`Coerce` in `Normalize`).
  */
  function CoerceFields(parsed: map<string, Json>, coerce: Option<Json> -> Option<int>): (r: map<string, Json>)
    requires IsPercentCoercion(coerce) && ScoresConvert(parsed, coerce)
    ensures r.Keys == parsed.Keys + CoercedKeys
    ensures forall k :: k in parsed && k !in CoercedKeys ==> r[k] == parsed[k]
    ensures r["scores"] == CoercedScores(parsed, coerce)
    ensures forall k :: k in ListKeys ==> r[k] == ListOrEmpty(Get(parsed, k))
  {
    parsed["scores" := CoercedScores(parsed, coerce)]
      ["strengths" := ListOrEmpty(Get(parsed, "strengths"))]
      ["issues" := ListOrEmpty(Get(parsed, "issues"))]
      ["suggestions" := ListOrEmpty(Get(parsed, "suggestions"))]
  }

  /** What every record the normaliser returns satisfies. */
  predicate IsAnalysisRecord(props: map<string, Json>) {
    && "scores" in props && props["scores"].JObject?
    && props["scores"].props.Keys == ScoreKeys
    && (forall k :: k in props["scores"].props ==> IsScore(props["scores"].props[k]))
    && (forall k :: k in ListKeys ==> k in props && props[k].JArray?)
  }

  /** The whole of lines 38-66 on the reply text (`None` when the reply carries no text). */
  function Normalize(reply: Option<string>, parse: string -> Option<Json>): (r: Result<Json, NormalizeError>)
    ensures reply.None? || reply.value == "" ==> r == Failure(EmptyResponse(NoContentMessage))
    ensures r.Failure? && r.error.MalformedResponse? <==>
      reply.Some? && reply.value != "" && parse(PrepareText(reply.value)).None?
    ensures r == Failure(UnconvertibleScore) <==>
      && reply.Some? && reply.value != "" && parse(PrepareText(reply.value)).Some?
      && parse(PrepareText(reply.value)).value.JObject?
      && !ScoresConvert(parse(PrepareText(reply.value)).value.props, Coerce)
    ensures r.Success? <==>
      && reply.Some? && reply.value != "" && parse(PrepareText(reply.value)).Some?
      && parse(PrepareText(reply.value)).value.JObject?
      && ScoresConvert(parse(PrepareText(reply.value)).value.props, Coerce)
    ensures r.Success? ==>
      && r.value.JObject? && IsAnalysisRecord(r.value.props)
      && r.value.props == CoerceFields(parse(PrepareText(reply.value)).value.props, Coerce)
  {
    CoerceIsPercent();
    var text := if reply.Some? then reply.value else "";
    if text == "" then Failure(EmptyResponse(NoContentMessage))
    else
      var prepared := PrepareText(text);
      match parse(prepared)
      case None => Failure(MalformedResponse(prepared))
      case Some(JObject(props)) =>
        if ScoresConvert(props, Coerce) then Success(JObject(CoerceFields(props, Coerce)))
        else Failure(UnconvertibleScore)
      case Some(other) => Failure(NotAnObject(other))
  }

  /** Lines 41-43: `text` is trimmed, then unfenced when it starts with a fence. */
  method UnfenceReply(reply: string) returns (text: string)
    ensures text == StripFences(Trim(reply))
  {
    text := Trim(reply);
    if StartsWith(text, Fence) {
      text := DropClosingFence(DropFence(DropJsonFence(text)));
    }
  }

  /** Lines 45-47: `text` is cut to the span from its first `{` to its last `}`. */
  method CutToBraces(text: string) returns (r: string)
    ensures r == ExtractObject(text)
  {
    r := text;
    var first := IndexOf(text, '{');
    var last := LastIndexOf(text, '}');
    if first.Some? && last.Some? {
      r := if first.value <= last.value then text[first.value..last.value + 1] else "";
    }
  }

  /** Lines 41-47 on a non-empty reply: the text handed to `JSON.parse`. */
  method PrepareReply(reply: string) returns (text: string)
    ensures text == PrepareText(reply)
  {
    text := UnfenceReply(reply);
    text := CutToBraces(text);
  }

  /**
    Lines 51-64: the three scores are coerced in order with `coerce` (`Coerce` in
    `FetchAnalysis`), stopping at the first that throws (`None`); then the fields of
    `parsed` are overwritten one at a time.
  */
  method RewriteFields(parsed: map<string, Json>, coerce: Option<Json> -> Option<int>) returns (r: Option<map<string, Json>>)
    requires IsPercentCoercion(coerce)
    ensures r.Some? <==> ScoresConvert(parsed, coerce)
    ensures r.Some? ==> r.value == CoerceFields(parsed, coerce)
  {
    var security := coerce(ScoreField(parsed, "security"));
    if security.None? {
      return None;
    }
    var structure := coerce(ScoreField(parsed, "structure_readability"));
    if structure.None? {
      return None;
    }
    var space := coerce(ScoreField(parsed, "space_performance_optimization"));
    if space.None? {
      return None;
    }
    var scores := map[
      "security" := JNumber(security.value, 0),
      "structure_readability" := JNumber(structure.value, 0),
      "space_performance_optimization" := JNumber(space.value, 0)];
    ThreeScores(parsed, coerce, security.value, structure.value, space.value);
    var props := parsed;
    props := props["scores" := JObject(scores)];
    props := props["strengths" := ListOrEmpty(Get(props, "strengths"))];
    props := props["issues" := ListOrEmpty(Get(props, "issues"))];
    props := props["suggestions" := ListOrEmpty(Get(props, "suggestions"))];
    return Some(props);
  }

  /** The three coerced scores, one after the other, make up `CoercedScores`. */
  lemma ThreeScores(parsed: map<string, Json>, coerce: Option<Json> -> Option<int>, security: int, structure: int, space: int)
    requires IsPercentCoercion(coerce)
    requires coerce(ScoreField(parsed, "security")) == Some(security)
    requires coerce(ScoreField(parsed, "structure_readability")) == Some(structure)
    requires coerce(ScoreField(parsed, "space_performance_optimization")) == Some(space)
    ensures ScoresConvert(parsed, coerce)
    ensures CoercedScores(parsed, coerce) == JObject(map[
      "security" := JNumber(security, 0),
      "structure_readability" := JNumber(structure, 0),
      "space_performance_optimization" := JNumber(space, 0)])
  {
  }

  /** `fetchAnalysis` from the reply text on. */
  method FetchAnalysis(reply: Option<string>, parse: string -> Option<Json>) returns (r: Result<Json, NormalizeError>)
    ensures r == Normalize(reply, parse)
  {
    var text := if reply.Some? then reply.value else "";
    if text == "" {
      return Failure(EmptyResponse(NoContentMessage));
    }
    text := PrepareReply(text);
    var parsed := parse(text);
    if parsed.None? {
      return Failure(MalformedResponse(text));
    }
    if !parsed.value.JObject? {
      return Failure(NotAnObject(parsed.value));
    }
    CoerceIsPercent();
    var props := RewriteFields(parsed.value.props, Coerce);
    if props.None? {
      return Failure(UnconvertibleScore);
    }
    return Success(JObject(props.value));
  }

  /* ---------- Properties ---------- */

  /** `Math.round` leaves an integer as it is, so on a `parseInt` result it never changes anything. */
  lemma RoundOfInteger(n: int)
    ensures MathRound(n as real) == n
  {
  }

  /** A number score is truncated toward zero, then clamped (42.9 gives 42, -3.7 gives 0). */
  lemma {:induction false} CoerceNumber(mantissa: int, scale: nat)
    requires IsFinite(Trunc(mantissa, scale))
    ensures Coerce(Some(JNumber(mantissa, scale))) == Some(ClampPercent(Trunc(mantissa, scale)))
  {
    ParseIntOfNumberString(mantissa, scale);
    RoundOfInteger(Trunc(mantissa, scale));
  }

  /** An integer score already in [0, 100] is kept as it is. */
  lemma {:induction false} CoerceScore(n: int)
    requires 0 <= n <= 100
    ensures Coerce(Some(JNumber(n, 0))) == Some(n)
  {
    CoerceNumber(n, 0);
  }

  /** `undefined`, `null`, booleans and plain objects have no leading integer in their string form: they become 0. */
  lemma CoerceUndefined()
    ensures Coerce(None) == Some(0)
  {
    assert PropertyString(None) == Some("undefined");
  }

  lemma CoerceNull()
    ensures Coerce(Some(JNull)) == Some(0)
  {
    assert PropertyString(Some(JNull)) == Some("null");
  }

  lemma CoerceBool(b: bool)
    ensures Coerce(Some(JBool(b))) == Some(0)
  {
    assert PropertyString(Some(JBool(b))) == Some(if b then "true" else "false");
  }

  lemma CoerceObject(props: map<string, Json>)
    requires "toString" !in props
    ensures Coerce(Some(JObject(props))) == Some(0)
  {
    assert PropertyString(Some(JObject(props))) == Some("[object Object]");
  }

  /** An object with its own `toString` property makes `parseInt` throw. */
  lemma CoerceObjectWithToString(props: map<string, Json>)
    requires "toString" in props
    ensures Coerce(Some(JObject(props))).None?
  {
  }

  /** The score examples: 150 gives 100, -1 gives 0, 42.9 gives 42, 100.6 gives 100 and -3.7 gives 0. */
  lemma CoerceAboveRange()
    ensures Coerce(Some(JNumber(150, 0))) == Some(100)
  {
    CoerceNumber(150, 0);
  }

  lemma CoerceBelowRange()
    ensures Coerce(Some(JNumber(-1, 0))) == Some(0)
  {
    CoerceNumber(-1, 0);
  }

  lemma CoerceTruncates()
    ensures Coerce(Some(JNumber(429, 1))) == Some(42)
  {
    assert Trunc(429, 1) == 42;
    CoerceNumber(429, 1);
  }

  lemma CoerceTruncatesAboveRange()
    ensures Coerce(Some(JNumber(1006, 1))) == Some(100)
  {
    assert Trunc(1006, 1) == 100;
    CoerceNumber(1006, 1);
  }

  lemma CoerceNegativeFraction()
    ensures Coerce(Some(JNumber(-37, 1))) == Some(0)
  {
    CoerceNumber(-37, 1);
  }

  /** A reply whose `scores.security` is an object with its own `toString` is rejected. */
  lemma {:induction false} ThrowingScoreRejected(reply: string, parse: string -> Option<Json>, security: map<string, Json>)
    requires reply != []
    requires "toString" in security
    requires parse(PrepareText(reply)) == Some(JObject(map["scores" := JObject(map["security" := JObject(security)])]))
    ensures Normalize(Some(reply), parse) == Failure(UnconvertibleScore)
  {
    var parsed := map["scores" := JObject(map["security" := JObject(security)])];
    assert ScoreField(parsed, "security") == Some(JObject(security));
    CoerceObjectWithToString(security);
    assert "security" in ScoreKeys;
  }

  /** A coercion that keeps every score it writes. */
  ghost predicate KeepsScores(coerce: Option<Json> -> Option<int>) {
    forall n: int :: 0 <= n <= 100 ==> coerce(Some(JNumber(n, 0))) == Some(n)
  }

  lemma CoerceKeepsScores()
    ensures KeepsScores(Coerce)
  {
    forall n: int | 0 <= n <= 100
      ensures Coerce(Some(JNumber(n, 0))) == Some(n)
    {
      CoerceScore(n);
    }
  }

  /** With such a coercion, rewriting an already rewritten object converts and changes nothing. */
  lemma {:induction false} CoerceFieldsIdempotent(parsed: map<string, Json>, coerce: Option<Json> -> Option<int>)
    requires IsPercentCoercion(coerce) && KeepsScores(coerce) && ScoresConvert(parsed, coerce)
    ensures ScoresConvert(CoerceFields(parsed, coerce), coerce)
    ensures CoerceFields(CoerceFields(parsed, coerce), coerce) == CoerceFields(parsed, coerce)
  {
    var once := CoerceFields(parsed, coerce);
    var scores := once["scores"];
    assert Truthy(Get(once, "scores"));
    forall k | k in ScoreKeys
      ensures coerce(ScoreField(once, k)) == Some(scores.props[k].mantissa)
    {
      assert ScoreField(once, k) == Some(JNumber(scores.props[k].mantissa, 0));
    }
    assert CoercedScores(once, coerce) == scores;
  }

  /** The normaliser's own rewriting is idempotent. */
  lemma NormalizedRecordIsFixed(parsed: map<string, Json>)
    requires ScoresConvert(parsed, Coerce)
    ensures ScoresConvert(CoerceFields(parsed, Coerce), Coerce)
    ensures CoerceFields(CoerceFields(parsed, Coerce), Coerce) == CoerceFields(parsed, Coerce)
  {
    CoerceIsPercent();
    CoerceKeepsScores();
    CoerceFieldsIdempotent(parsed, Coerce);
  }

  /* ---------- Replies around the object ---------- */

  /** An object text: it opens with `{` and closes with `}`. */
  predicate IsBraced(t: string) {
    |t| > 0 && t[0] == '{' && t[|t| - 1] == '}'
  }

  lemma NotFenced(s: string)
    requires s != [] && s[0] != '`'
    ensures !StartsWith(s, Fence)
  {
    if |s| >= 3 {
      assert s[..3][0] == s[0];
    }
  }

  /** Prose before the first `{` and after the last `}` is cut away. */
  lemma {:induction false} ExtractAround(pre: string, t: string, post: string)
    requires IsBraced(t) && '{' !in pre && '}' !in post
    ensures ExtractObject(pre + t + post) == t
  {
    var s := pre + t + post;
    assert s[|pre|] == '{' && s[|pre| + |t| - 1] == '}';
    assert forall k :: 0 <= k < |pre| ==> s[k] == pre[k];
    assert forall k :: |pre| + |t| <= k < |s| ==> s[k] == post[k - |pre| - |t|];
    assert IndexOf(s, '{').value == |pre|;
    assert LastIndexOf(s, '}').value == |pre| + |t| - 1;
    assert s[|pre|..|pre| + |t|] == t;
  }

  /** An object text is handed to `JSON.parse` as it is. */
  lemma {:induction false} PrepareBraced(t: string)
    requires IsBraced(t)
    ensures PrepareText(t) == t
  {
    assert Trim(t) == t;
    NotFenced(t);
    ExtractAround([], t, []);
    assert [] + t + [] == t;
  }

  /** A tail of a text without `{` has none either. */
  lemma NoBraceInTail(a: string, n: nat)
    requires '{' !in a && n <= |a|
    ensures '{' !in a[n..]
  {
    forall k | 0 <= k < |a| - n
      ensures a[n..][k] != '{'
    {
      assert a[n..][k] == a[n + k];
    }
  }

  /** `` ```json `` and the white space after it lie in front of the first `{`. */
  lemma {:induction false} DropJsonFenceKeepsObject(a: string, t: string)
    requires '{' !in a && t != [] && t[0] == '{'
    ensures |t| <= |DropJsonFence(a + t)| <= |a| + |t|
    ensures DropJsonFence(a + t) == a[|a| + |t| - |DropJsonFence(a + t)|..] + t
  {
    var s := a + t;
    var r := DropJsonFence(s);
    if StartsWithJsonFence(s) {
      forall k | 0 <= k < |s| - |r|
        ensures s[k] != '{'
      {
        if k < 3 {
          assert s[..3][k] == s[k];
        } else if k < 7 {
          assert s[3..7][k - 3] == s[k];
        } else {
          assert IsSpace(s[k]);
        }
      }
      assert s[|a|] == '{';
      assert s[|s| - |r|..] == a[|a| + |t| - |r|..] + t;
    } else {
      assert a[0..] == a;
    }
  }

  /** `` ``` `` and the white space after it lie in front of the first `{`. */
  lemma {:induction false} DropFenceKeepsObject(a: string, t: string)
    requires '{' !in a && t != [] && t[0] == '{'
    ensures |t| <= |DropFence(a + t)| <= |a| + |t|
    ensures DropFence(a + t) == a[|a| + |t| - |DropFence(a + t)|..] + t
  {
    var s := a + t;
    var r := DropFence(s);
    if StartsWith(s, Fence) {
      forall k | 0 <= k < |s| - |r|
        ensures s[k] != '{'
      {
        if k < 3 {
          assert s[..3][k] == s[k];
        } else {
          assert IsSpace(s[k]);
        }
      }
      assert s[|a|] == '{';
      assert s[|s| - |r|..] == a[|a| + |t| - |r|..] + t;
    } else {
      assert a[0..] == a;
    }
  }

  /** A closing `` ``` `` lies behind the last `}`. */
  lemma {:induction false} DropClosingFenceKeepsObject(m: string, b: string)
    requires '}' !in b && m != [] && m[|m| - 1] == '}'
    ensures |m| <= |DropClosingFence(m + b)| <= |m| + |b|
    ensures DropClosingFence(m + b) == m + b[..|DropClosingFence(m + b)| - |m|]
  {
    var s := m + b;
    if EndsWith(s, Fence) {
      assert s[|s| - 3..] == Fence;
      assert forall k :: |s| - 3 <= k < |s| ==> s[k] == s[|s| - 3..][k - (|s| - 3)];
      assert s[|m| - 1] == '}';
      assert s[..|s| - 3] == m + b[..|b| - 3];
    } else {
      assert b[..|b|] == b;
    }
  }

  /** Both opening replacements only remove characters in front of the first `{`. */
  lemma {:induction false} OpeningFencesKeepObject(a: string, tb: string)
    requires '{' !in a && tb != [] && tb[0] == '{'
    ensures |tb| <= |DropFence(DropJsonFence(a + tb))| <= |a| + |tb|
    ensures DropFence(DropJsonFence(a + tb)) == a[|a| + |tb| - |DropFence(DropJsonFence(a + tb))|..] + tb
  {
    DropJsonFenceKeepsObject(a, tb);
    var r1 := DropJsonFence(a + tb);
    var a1 := a[|a| + |tb| - |r1|..];
    NoBraceInTail(a, |a| + |tb| - |r1|);
    DropFenceKeepsObject(a1, tb);
    var r2 := DropFence(r1);
    assert a1[|a1| + |tb| - |r2|..] == a[|a| + |tb| - |r2|..];
  }

  /** Fence stripping and brace extraction cut the object out of any text around it. */
  lemma {:induction false} StripFencesKeepsObject(a: string, t: string, b: string)
    requires IsBraced(t) && '{' !in a && '}' !in b
    ensures ExtractObject(StripFences(a + t + b)) == t
  {
    var s := a + t + b;
    if StartsWith(s, Fence) {
      var tb := t + b;
      assert s == a + tb;
      OpeningFencesKeepObject(a, tb);
      var r2 := DropFence(DropJsonFence(s));
      var a2 := a[|a| + |tb| - |r2|..];
      NoBraceInTail(a, |a| + |tb| - |r2|);
      assert r2 == a2 + t + b;
      ClosingFenceAfterObject(a2, t, b);
    } else {
      ExtractAround(a, t, b);
    }
  }

  /** The closing replacement keeps the object, so brace extraction still finds it. */
  lemma {:induction false} ClosingFenceAfterObject(a: string, t: string, b: string)
    requires IsBraced(t) && '{' !in a && '}' !in b
    ensures ExtractObject(DropClosingFence(a + t + b)) == t
  {
    DropClosingFenceKeepsObject(a + t, b);
    var r := DropClosingFence(a + t + b);
    var b1 := b[..|r| - |a + t|];
    assert '}' !in b1 by {
      forall k | 0 <= k < |b1|
        ensures b1[k] == b[k]
      {
      }
    }
    assert r == a + t + b1;
    ExtractAround(a, t, b1);
  }

  /** A reply of prose around an object: the prose is dropped, fences and white space included. */
  lemma {:induction false} ProseAroundObject(pre: string, t: string, post: string)
    requires IsBraced(t) && '{' !in pre && '}' !in post
    ensures PrepareText(pre + t + post) == t
  {
    TrimAround(pre, t, post);
    var front := TrimStart(pre);
    var back := TrimEnd(post);
    TrimStartIsSuffix(pre);
    NoBraceInTail(pre, |pre| - |front|);
    assert '}' !in back by {
      forall k | 0 <= k < |back|
        ensures back[k] == post[k]
      {
      }
    }
    StripFencesKeepsObject(front, t, back);
  }

  /** The tag after an opening fence: none, or `json` in any case. */
  ghost predicate IsFenceTag(tag: string) {
    tag == [] || (|tag| == 4 && IsJsonWord(tag))
  }

  /** `json` after the fence: the first replacement drops the fence, the tag and the white space after them. */
  lemma TaggedFenceDropped(tag: string, ws: string, inner: string)
    requires |tag| == 4 && IsJsonWord(tag) && AllSpaces(ws) && inner != [] && !IsSpace(inner[0])
    ensures DropJsonFence(Fence + tag + ws + inner) == inner
  {
    var text := Fence + tag + ws + inner;
    assert text[..3] == Fence && text[3..7] == tag;
    assert text[7..] == ws + inner;
    TrimStartSkipsSpaces(ws, inner);
  }

  /** No tag after the fence: the first replacement keeps the text and the second drops the fence and the white space. */
  lemma BareFenceDropped(ws: string, inner: string)
    requires AllSpaces(ws) && inner != [] && inner[0] == '{'
    ensures DropJsonFence(Fence + ws + inner) == Fence + ws + inner
    ensures DropFence(Fence + ws + inner) == inner
  {
    var rest := ws + inner;
    var text := Fence + rest;
    assert text == Fence + ws + inner;
    assert text[..3] == Fence && text[3..] == rest;
    assert text[3] == rest[0];
    if |text| >= 7 {
      assert text[3..7][0] == rest[0];
    }
    TrimStartSkipsSpaces(ws, inner);
  }

  /** The two leading replacements drop the opening fence, its tag and the white space after it. */
  lemma OpeningFenceDropped(tag: string, ws: string, inner: string)
    requires IsFenceTag(tag) && AllSpaces(ws) && inner != [] && inner[0] == '{'
    ensures DropFence(DropJsonFence(Fence + tag + ws + inner)) == inner
  {
    if tag == [] {
      assert Fence + tag + ws + inner == Fence + ws + inner;
      BareFenceDropped(ws, inner);
    } else {
      TaggedFenceDropped(tag, ws, inner);
      NotFenced(inner);
    }
  }

  /** The closing replacement and the brace extraction leave the object alone. */
  lemma {:induction false} ClosingFenceDropped(t: string, ws: string)
    requires AllSpaces(ws) && IsBraced(t)
    ensures ExtractObject(DropClosingFence(t + ws + Fence)) == t
  {
    var inner := t + ws + Fence;
    assert inner[|inner| - 3..] == Fence;
    assert DropClosingFence(inner) == t + ws;
    assert '}' !in ws by {
      forall k | 0 <= k < |ws|
        ensures ws[k] != '}'
      {
        assert IsSpace(ws[k]);
      }
    }
    ExtractAround([], t, ws);
    assert [] + t + ws == t + ws;
  }

  /** A fenced object, with any white space inside the fence, comes out of the fence. */
  lemma {:induction false} FencedReply(tag: string, ws1: string, t: string, ws2: string)
    requires IsFenceTag(tag) && AllSpaces(ws1) && AllSpaces(ws2) && IsBraced(t)
    ensures PrepareText(Fence + tag + ws1 + t + ws2 + Fence) == t
  {
    var inner := t + ws2 + Fence;
    var reply := Fence + tag + ws1 + inner;
    assert reply == Fence + tag + ws1 + t + ws2 + Fence;
    assert reply[0] == '`' && reply[|reply| - 1] == '`';
    assert Trim(reply) == reply;
    assert reply[..3] == Fence;
    OpeningFenceDropped(tag, ws1, inner);
    assert StripFences(reply) == DropClosingFence(inner);
    ClosingFenceDropped(t, ws2);
  }

  /** Fencing the object does not change what the normaliser returns. */
  lemma NormalizeIgnoresFence(tag: string, ws1: string, t: string, ws2: string, parse: string -> Option<Json>)
    requires IsFenceTag(tag) && AllSpaces(ws1) && AllSpaces(ws2) && IsBraced(t)
    ensures Normalize(Some(Fence + tag + ws1 + t + ws2 + Fence), parse) == Normalize(Some(t), parse)
  {
    FencedReply(tag, ws1, t, ws2);
    PrepareBraced(t);
  }

  /** Writing prose around the object, a fenced block included, does not change what the normaliser returns. */
  lemma NormalizeIgnoresProse(pre: string, t: string, post: string, parse: string -> Option<Json>)
    requires IsBraced(t) && '{' !in pre && '}' !in post
    ensures Normalize(Some(pre + t + post), parse) == Normalize(Some(t), parse)
  {
    ProseAroundObject(pre, t, post);
    PrepareBraced(t);
  }
}
