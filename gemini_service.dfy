/** The direct analysis client: it builds an SDK client from the `API_KEY`
    setting, strips the data-URL header from the image, asks the model for a
    JSON array of person records, and passes every failure on to its caller.
    The SDK call and `JSON.parse` are foreign: their outcomes are inputs. */
module GeminiService {
  import opened Js
  import opened Types

  // ----- the data-URL header -----

  /** The image formats whose data-URL header is stripped, in the order of
      the alternation in the header pattern. */
  const ImageFormats: seq<string> := ["png", "jpeg", "jpg", "webp"]

  /** The data-URL header of an image in `format`. */
  function Header(format: string): string
  {
    "data:image/" + format + ";base64,"
  }

  predicate StartsWith(s: string, prefix: string)
  {
    |prefix| <= |s| && s[..|prefix|] == prefix
  }

  /** Some image format's header starts `s`. */
  predicate HasImageHeader(s: string)
  {
    exists f :: f in ImageFormats && StartsWith(s, Header(f))
  }

  /** The first of `formats` whose header starts `s`, as the anchored
      alternation tries them. */
  function MatchFormat(s: string, formats: seq<string>): (r: Option<string>)
    ensures r.Some? ==> r.value in formats && StartsWith(s, Header(r.value))
    ensures r.None? ==> forall f :: f in formats ==> !StartsWith(s, Header(f))
    decreases |formats|
  {
    if formats == [] then None
    else if StartsWith(s, Header(formats[0])) then Some(formats[0])
    else MatchFormat(s, formats[1..])
  }

  /** At most one format's header can start a string: the formats differ in
      their first letter ("png", "jpeg", "webp") or, for "jpeg" and "jpg",
      in their third. */
  lemma HeadersExclusive(s: string, f: string, g: string)
    requires f in ImageFormats && g in ImageFormats
    requires StartsWith(s, Header(f)) && StartsWith(s, Header(g))
    ensures f == g
  {
    assert Header(f)[11] == s[11] == Header(g)[11];
    assert Header(f)[13] == s[13] == Header(g)[13];
  }

  /** The header rewrite of the client: when an image header starts the
      string, exactly that header is removed, once; otherwise the string is
      returned unchanged. */
  function StripDataUrlHeader(s: string): (r: string)
    ensures forall f :: f in ImageFormats && StartsWith(s, Header(f)) ==> s == Header(f) + r
    ensures !HasImageHeader(s) ==> r == s
    ensures HasImageHeader(s) <==> |r| < |s|
  {
    match MatchFormat(s, ImageFormats)
    case None => s
    case Some(f) =>
      var r := s[|Header(f)|..];
      assert s == Header(f) + r;
      forall g | g in ImageFormats && StartsWith(s, Header(g))
        ensures s == Header(g) + r
      {
        HeadersExclusive(s, f, g);
      }
      r
  }

  /** Only one header is removed: a doubled header keeps its second copy. */
  lemma DoubledHeaderKeepsSecond(f: string, rest: string)
    requires f in ImageFormats
    ensures StripDataUrlHeader(Header(f) + Header(f) + rest) == Header(f) + rest
  {
    var s := Header(f) + Header(f) + rest;
    assert s == Header(f) + (Header(f) + rest);
    assert s[..|Header(f)|] == Header(f);
  }

  /** After its first character, no image header contains a 'd'. */
  lemma HeaderHasNoLaterD(g: string, k: int)
    requires g in ImageFormats && 0 < k < |Header(g)|
    ensures Header(g)[k] != 'd'
  {
  }

  /** The rewrite is anchored: a header that does not start the string, and
      everything after it, is left in place, whatever comes before it (even
      another header, which alone is removed). */
  lemma LaterHeaderUntouched(t: string, f: string, rest: string)
    requires t != []
    ensures var r := StripDataUrlHeader(t + Header(f) + rest);
      |Header(f) + rest| <= |r| && r[|r| - |Header(f) + rest|..] == Header(f) + rest
  {
    var s := t + Header(f) + rest;
    var suffix := Header(f) + rest;
    assert s == t + suffix;
    match MatchFormat(s, ImageFormats) {
      case None =>
        assert s[|s| - |suffix|..] == suffix;
      case Some(g) =>
        if |Header(g)| > |t| {
          assert s[|t|] == Header(f)[0] == 'd';
          assert s[|t|] == Header(g)[|t|];
          HeaderHasNoLaterD(g, |t|);
        }
        var r := s[|Header(g)|..];
        assert r == t[|Header(g)|..] + suffix;
    }
  }

  // ----- the SDK client -----

  /** An SDK client; it carries the key it was built with. */
  datatype AiClient = AiClient(apiKey: string)

  const MissingKeyError: JsError := JsError("API_KEY environment variable is missing")
  const NoResponseError: JsError := JsError("No response from AI")

  /** Builds the client from the `API_KEY` setting; a missing or empty key throws. */
  function GetAiClient(apiKey: Option<string>): Result<AiClient>
  {
    if !Truthy(apiKey) then Err(MissingKeyError) else Ok(AiClient(apiKey.value))
  }

  // ----- the response schema -----

  /** The subset of the model's response-schema language the client uses. */
  datatype Schema =
    | StringSchema
    | ArraySchema(items: Schema)
    | ObjectSchema(properties: seq<(string, Schema)>, required: seq<string>)

  /** One person record: three string properties, all required. */
  const PersonSchema: Schema :=
    ObjectSchema([("gender", StringSchema), ("age", StringSchema), ("description", StringSchema)],
                 ["gender", "age", "description"])

  /** The schema the client requests: an array of person records. */
  const PersonArraySchema: Schema := ArraySchema(PersonSchema)

  /** What a schema means: `j` has the schema's shape, every required member
      is present and every listed member that is present conforms. */
  predicate Conforms(j: Json, sch: Schema)
    decreases sch
  {
    match sch
    case StringSchema => j.JString?
    case ArraySchema(item) =>
      j.JArray? && forall i :: 0 <= i < |j.items| ==> Conforms(j.items[i], item)
    case ObjectSchema(props, req) =>
      && j.JObject?
      && (forall k :: k in req ==> Lookup(j.members, k).Some?)
      && (forall i :: 0 <= i < |props| ==>
            var v := Lookup(j.members, props[i].0);
            v.Some? ==> Conforms(v.value, props[i].1))
  }

  /** A person record written as JSON. */
  function EncodeResult(r: AnalysisResult): Json
  {
    JObject([("gender", JString(r.gender)), ("age", JString(r.age)), ("description", JString(r.description))])
  }

  /** A list of person records written as a JSON array, in order; a helper
      for stating what the response schema admits. */
  function EncodeResults(rs: seq<AnalysisResult>): Json
  {
    JArray(seq(|rs|, i requires 0 <= i < |rs| => EncodeResult(rs[i])))
  }

  /** Every list of person records satisfies the requested schema. */
  lemma PersonRecordsConform(rs: seq<AnalysisResult>)
    ensures Conforms(EncodeResults(rs), PersonArraySchema)
  {
    var j := EncodeResults(rs);
    forall i | 0 <= i < |j.items|
      ensures Conforms(j.items[i], PersonSchema)
    {
      var m := j.items[i].members;
      assert m[0].0 == "gender" && m[1].0 == "age" && m[2].0 == "description";
    }
  }

  /** A value satisfying the requested schema is an array each of whose
      elements has the three members, all strings. */
  lemma ConformingValuesArePersonRecords(j: Json)
    requires Conforms(j, PersonArraySchema)
    ensures j.JArray?
    ensures forall i :: 0 <= i < |j.items| ==>
      && At(j.items[i], "gender").Some? && At(j.items[i], "gender").value.JString?
      && At(j.items[i], "age").Some? && At(j.items[i], "age").value.JString?
      && At(j.items[i], "description").Some? && At(j.items[i], "description").value.JString?
  {
    forall i | 0 <= i < |j.items|
      ensures && At(j.items[i], "gender").Some? && At(j.items[i], "gender").value.JString?
              && At(j.items[i], "age").Some? && At(j.items[i], "age").value.JString?
              && At(j.items[i], "description").Some? && At(j.items[i], "description").value.JString?
    {
      var props := PersonSchema.properties;
      assert Conforms(j.items[i], PersonSchema);
      assert "gender" in PersonSchema.required && "age" in PersonSchema.required
          && "description" in PersonSchema.required;
      assert props[0] == ("gender", StringSchema);
      assert props[1] == ("age", StringSchema);
      assert props[2] == ("description", StringSchema);
    }
  }

  // ----- the analysis call -----

  const ModelName: string := "gemini-2.5-flash"
  const ResponseMimeType: string := "application/json"
  const ImageMimeType: string := "image/jpeg"

  /** The fixed instruction sent with every image. */
  const AnalysisPrompt: string := "请分析这张图片中的所有人物。请按照从左到右的顺序，逐一分析每个人的性别（gender）和准确的数字年龄（age）。同时提供一个简短的特征描述（description，例如'左边的男士'，'穿红衣的小女孩'）以便区分。输出中文。请直接返回JSON数组格式。"

  datatype Part = InlineData(mimeType: string, data: string) | Text(text: string)

  /** One request to the model, made through the client built with `apiKey`. */
  datatype GenerateRequest = GenerateRequest(
    apiKey: string,
    model: string,
    parts: seq<Part>,
    responseMimeType: string,
    responseSchema: Schema)

  /** What the SDK call does: it returns a response whose `text` may be
      absent, or it throws. */
  datatype GenerateOutcome = Generated(text: Option<string>) | GenerateFailed(error: JsError)

  /** Analyses one image. Returns the request made to the model (none when the
      key is missing) and what the call returns or throws. `reply` is what the
      SDK call does if made; `parse` is `JSON.parse` with its unchecked cast. */
  method AnalyzeImage(apiKey: Option<string>, base64Image: string, reply: GenerateOutcome,
                      parse: string -> Result<seq<AnalysisResult>>)
    returns (sent: Option<GenerateRequest>, r: Result<seq<AnalysisResult>>)
    ensures sent.Some? <==> Truthy(apiKey)
    ensures !Truthy(apiKey) ==> r == Err(MissingKeyError)
    ensures sent.Some? ==>
      sent.value == GenerateRequest(apiKey.value, ModelName,
                                    [InlineData(ImageMimeType, StripDataUrlHeader(base64Image)), Text(AnalysisPrompt)],
                                    ResponseMimeType, PersonArraySchema)
    ensures sent.Some? && reply.GenerateFailed? ==> r == Err(reply.error)
    ensures sent.Some? && reply.Generated? && !Truthy(reply.text) ==> r == Err(NoResponseError)
    ensures r.Ok? ==> sent.Some? && reply.Generated? && Truthy(reply.text) && r == parse(reply.text.value)
    ensures sent.Some? && reply.Generated? && Truthy(reply.text) ==> r == parse(reply.text.value)
  {
    var client := GetAiClient(apiKey);
    if client.Err? {
      return None, Err(client.error);
    }
    var cleanBase64 := StripDataUrlHeader(base64Image);
    sent := Some(GenerateRequest(client.value.apiKey, ModelName,
                                 [InlineData(ImageMimeType, cleanBase64), Text(AnalysisPrompt)],
                                 ResponseMimeType, PersonArraySchema));
    match reply {
      case GenerateFailed(e) =>
        r := Err(e);
      case Generated(text) =>
        if !Truthy(text) {
          r := Err(NoResponseError);
        } else {
          r := parse(text.value);
        }
    }
  }
}
