/** The pure parts of lang-graph/src/app/api/config/agent.ts: the tool-name
    listing put into every agent prompt, the two zod response schemas, and
    the query string the Tavily tool sends. */
module Agent {
  import opened Wrappers
  import opened Strings
  import opened JsonValues

  /** `tools.map((tool) => tool.name).join(", ")`. */
  function ToolNames(names: seq<string>): (r: string)
    ensures |names| == 0 ==> r == ""
    ensures |names| == 1 ==> r == names[0]
    ensures |names| > 1 ==> r == ToolNames(names[..|names| - 1]) + ", " + names[|names| - 1]
  {
    if |names| > 1 then
      JoinSnoc(names[..|names| - 1], names[|names| - 1], ", ");
      assert names[..|names| - 1] + [names[|names| - 1]] == names;
      Join(names, ", ")
    else
      Join(names, ", ")
  }

  /** `z.enum(["soft", "technical"])`. */
  datatype PromptType = Soft | Technical

  /** A value `ResponseFormatter.parse` returns: prereqs is a string record. */
  datatype Formatted = Formatted(kind: PromptType, prereqs: map<string, string>, response: string)

  /** A value `ResponseFormatter2.parse` returns: prereqs is a string array. */
  datatype Formatted2 = Formatted2(kind: PromptType, prereqs: seq<string>, response: string)

  /** A zod rejection: the input is not an object, or the named fields (in
      schema order) are missing or have the wrong type. */
  datatype ZodError = NotAnObject | InvalidFields(fields: seq<string>)

  function Lookup(o: map<string, Json>, key: string): Option<Json> {
    if key in o then Some(o[key]) else None
  }

  function ParseKind(v: Option<Json>): Option<PromptType> {
    if v == Some(JString("soft")) then Some(Soft)
    else if v == Some(JString("technical")) then Some(Technical)
    else None
  }

  function ParseString(v: Option<Json>): Option<string> {
    if v.Some? && v.value.JString? then Some(v.value.s) else None
  }

  /** `z.record(z.string(), z.string())`: an object whose every value is a string. */
  function ParseStringRecord(v: Option<Json>): Option<map<string, string>> {
    if v.Some? && v.value.JObject? && forall k :: k in v.value.fields ==> v.value.fields[k].JString? then
      Some(map k | k in v.value.fields :: v.value.fields[k].s)
    else
      None
  }

  function StringItems(items: seq<Json>): (r: Option<seq<string>>)
    ensures r.Some? <==> forall i :: 0 <= i < |items| ==> items[i].JString?
    ensures r.Some? ==> |r.value| == |items| && forall i :: 0 <= i < |items| ==> r.value[i] == items[i].s
    decreases |items|
  {
    if |items| == 0 then Some([])
    else if !items[0].JString? then None
    else
      var rest := StringItems(items[1..]);
      if rest.None? then None else Some([items[0].s] + rest.value)
  }

  /** `z.array(z.string())`. */
  function ParseStringArray(v: Option<Json>): Option<seq<string>> {
    if v.Some? && v.value.JArray? then StringItems(v.value.items) else None
  }

  /** Names, in schema order, of the fields whose parse came back empty. */
  function FailedFields(kindOk: bool, prereqsOk: bool, responseOk: bool): (bad: seq<string>)
    ensures |bad| == 0 <==> kindOk && prereqsOk && responseOk
  {
    (if kindOk then [] else ["type"])
    + (if prereqsOk then [] else ["prereqs"])
    + (if responseOk then [] else ["response"])
  }

  /** What `ResponseFormatter` accepts, stated field by field. */
  predicate ConformsToFormatter(j: Json) {
    && j.JObject?
    && "type" in j.fields && (j.fields["type"] == JString("soft") || j.fields["type"] == JString("technical"))
    && "prereqs" in j.fields && j.fields["prereqs"].JObject?
    && (forall k :: k in j.fields["prereqs"].fields ==> j.fields["prereqs"].fields[k].JString?)
    && "response" in j.fields && j.fields["response"].JString?
  }

  /** What `ResponseFormatter2` accepts: the same, with a string array for prereqs. */
  predicate ConformsToFormatter2(j: Json) {
    && j.JObject?
    && "type" in j.fields && (j.fields["type"] == JString("soft") || j.fields["type"] == JString("technical"))
    && "prereqs" in j.fields && j.fields["prereqs"].JArray?
    && (forall i :: 0 <= i < |j.fields["prereqs"].items| ==> j.fields["prereqs"].items[i].JString?)
    && "response" in j.fields && j.fields["response"].JString?
  }

  /** `ResponseFormatter.parse(j)`; unknown keys are stripped. */
  function ParseResponseFormatter(j: Json): (r: Result<Formatted, ZodError>)
    ensures r.Ok? <==> ConformsToFormatter(j)
    ensures !j.JObject? ==> r == Err(NotAnObject)
    ensures r.Ok? ==> r.value.response == j.fields["response"].s
    ensures r.Ok? ==> (r.value.kind == Soft <==> j.fields["type"] == JString("soft"))
    ensures r.Ok? ==> r.value.prereqs.Keys == j.fields["prereqs"].fields.Keys
    ensures r.Ok? ==> forall k :: k in r.value.prereqs ==> JString(r.value.prereqs[k]) == j.fields["prereqs"].fields[k]
  {
    if !j.JObject? then Err(NotAnObject)
    else
      var kind := ParseKind(Lookup(j.fields, "type"));
      var prereqs := ParseStringRecord(Lookup(j.fields, "prereqs"));
      var response := ParseString(Lookup(j.fields, "response"));
      var bad := FailedFields(kind.Some?, prereqs.Some?, response.Some?);
      if |bad| > 0 then Err(InvalidFields(bad))
      else Ok(Formatted(kind.value, prereqs.value, response.value))
  }

  /** `ResponseFormatter2.parse(j)`; unknown keys are stripped. */
  function ParseResponseFormatter2(j: Json): (r: Result<Formatted2, ZodError>)
    ensures r.Ok? <==> ConformsToFormatter2(j)
    ensures !j.JObject? ==> r == Err(NotAnObject)
    ensures r.Ok? ==> r.value.response == j.fields["response"].s
    ensures r.Ok? ==> (r.value.kind == Soft <==> j.fields["type"] == JString("soft"))
    ensures r.Ok? ==> |r.value.prereqs| == |j.fields["prereqs"].items|
    ensures r.Ok? ==> forall i :: 0 <= i < |r.value.prereqs| ==> JString(r.value.prereqs[i]) == j.fields["prereqs"].items[i]
  {
    if !j.JObject? then Err(NotAnObject)
    else
      var kind := ParseKind(Lookup(j.fields, "type"));
      var prereqs := ParseStringArray(Lookup(j.fields, "prereqs"));
      var response := ParseString(Lookup(j.fields, "response"));
      var bad := FailedFields(kind.Some?, prereqs.Some?, response.Some?);
      if |bad| > 0 then Err(InvalidFields(bad))
      else Ok(Formatted2(kind.value, prereqs.value, response.value))
  }

  function KindToJson(k: PromptType): Json {
    match k
    case Soft => JString("soft")
    case Technical => JString("technical")
  }

  /** The JSON object a model would emit for a `Formatted` value. */
  function FormattedToJson(f: Formatted): Json {
    JObject(map[
      "type" := KindToJson(f.kind),
      "prereqs" := JObject(map k | k in f.prereqs :: JString(f.prereqs[k])),
      "response" := JString(f.response)])
  }

  /** The JSON object a model would emit for a `Formatted2` value. */
  function Formatted2ToJson(f: Formatted2): Json {
    JObject(map[
      "type" := KindToJson(f.kind),
      "prereqs" := JArray(seq(|f.prereqs|, i requires 0 <= i < |f.prereqs| => JString(f.prereqs[i]))),
      "response" := JString(f.response)])
  }

  /** Every well-typed payload survives `ResponseFormatter.parse` unchanged. */
  lemma FormatterRoundTrip(f: Formatted)
    ensures ParseResponseFormatter(FormattedToJson(f)) == Ok(f)
  {
    var j := FormattedToJson(f);
    var r := ParseResponseFormatter(j);
    assert ConformsToFormatter(j);
    assert r.value.prereqs == f.prereqs;
    assert r.value.kind == f.kind by {
      match f.kind
      case Soft =>
      case Technical =>
    }
  }

  /** Every well-typed payload survives `ResponseFormatter2.parse` unchanged. */
  lemma Formatter2RoundTrip(f: Formatted2)
    ensures ParseResponseFormatter2(Formatted2ToJson(f)) == Ok(f)
  {
    var j := Formatted2ToJson(f);
    var r := ParseResponseFormatter2(j);
    assert ConformsToFormatter2(j);
    assert r.value.prereqs == f.prereqs;
    assert r.value.kind == f.kind by {
      match f.kind
      case Soft =>
      case Technical =>
    }
  }

  /** `Array.prototype.toString` on strings: elements joined by a bare comma. */
  function ArrayToString(xs: seq<string>): string {
    Join(xs, ",")
  }

  /** The string `tavilyResponseTool` hands to the search client, after
      its input has passed `ResponseFormatter2`. */
  function TavilyQuery(input: Json): (r: Result<string, ZodError>)
    ensures r.Ok? <==> ConformsToFormatter2(input)
    ensures r.Err? ==> ParseResponseFormatter2(input) == Err(r.error)
  {
    var parsed :- ParseResponseFormatter2(input);
    Ok(parsed.response + " " + ArrayToString(parsed.prereqs))
  }

  /** The query is the response, one space, then the prereqs joined by a
      comma with no space; with no prereqs it ends in that single space. */
  lemma TavilyQueryShape(f: Formatted2)
    ensures TavilyQuery(Formatted2ToJson(f)) == Ok(f.response + " " + Join(f.prereqs, ","))
    ensures |f.prereqs| == 0 ==> TavilyQuery(Formatted2ToJson(f)) == Ok(f.response + " ")
    ensures |f.prereqs| == 2 ==> TavilyQuery(Formatted2ToJson(f)) == Ok(f.response + " " + f.prereqs[0] + "," + f.prereqs[1])
  {
    Formatter2RoundTrip(f);
    var q := f.response + " " + Join(f.prereqs, ",");
    if |f.prereqs| == 0 {
      assert q == f.response + " ";
    }
    if |f.prereqs| == 2 {
      assert f.prereqs[1..] == [f.prereqs[1]];
      assert Join(f.prereqs, ",") == f.prereqs[0] + "," + f.prereqs[1];
      assert q == f.response + " " + f.prereqs[0] + "," + f.prereqs[1];
    }
  }

  /** A `type` outside the enum is rejected before any query is built, and
      the rejection names the type field first. */
  lemma TavilyRejectsBadType(j: Json)
    requires j.JObject?
    requires "type" !in j.fields || (j.fields["type"] != JString("soft") && j.fields["type"] != JString("technical"))
    ensures TavilyQuery(j).Err? && TavilyQuery(j).error.InvalidFields?
    ensures |TavilyQuery(j).error.fields| > 0 && TavilyQuery(j).error.fields[0] == "type"
  {
    assert ParseKind(Lookup(j.fields, "type")) == None;
  }

  /** Prereqs that are missing, not an array, or hold a non-string item are
      rejected, and the rejection names the prereqs field. */
  lemma TavilyRejectsBadPrereqs(j: Json)
    requires j.JObject?
    requires "prereqs" !in j.fields || !j.fields["prereqs"].JArray?
             || exists i :: 0 <= i < |j.fields["prereqs"].items| && !j.fields["prereqs"].items[i].JString?
    ensures TavilyQuery(j).Err? && TavilyQuery(j).error.InvalidFields?
    ensures "prereqs" in TavilyQuery(j).error.fields
  {
    assert ParseStringArray(Lookup(j.fields, "prereqs")) == None;
  }

  /** The smallest rejected input: a well-formed query whose type is unknown. */
  lemma TavilyRejectsUnknownType(t: string, response: string)
    requires t != "soft" && t != "technical"
    ensures TavilyQuery(JObject(map["type" := JString(t), "prereqs" := JArray([]), "response" := JString(response)]))
            == Err(InvalidFields(["type"]))
  {
    var fields := map["type" := JString(t), "prereqs" := JArray([]), "response" := JString(response)];
    assert ParseKind(Lookup(fields, "type")) == None;
    assert ParseStringArray(Lookup(fields, "prereqs")) == Some([]);
    assert ParseString(Lookup(fields, "response")) == Some(response);
    assert FailedFields(false, true, true) == ["type"];
  }
}
