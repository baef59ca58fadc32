/** Wire shapes of managed agents: specifications to JSON and back. */
module AgentModels {
  import opened Text
  import opened Json

  type Dict = map<string, Json>

  datatype EnvironmentSource = EnvironmentSource(
    kind: string,
    target: string,
    source: Option<string>,
    content: Option<string>,
    encoding: Option<string>)

  datatype NetworkConfig = NetworkConfig(allowlist: seq<Dict>)

  datatype BaseEnvironment = BaseEnvironment(sources: seq<EnvironmentSource>, network: NetworkConfig, kind: string)

  datatype AgentTool = AgentTool(kind: string, name: Option<string>, url: Option<string>, headers: Option<Dict>)

  datatype AgentSpec = AgentSpec(
    id: string,
    baseAgent: string,
    description: string,
    systemInstruction: string,
    tools: seq<AgentTool>,
    baseEnvironment: Option<BaseEnvironment>)

  const DEFAULT_BASE_AGENT := "antigravity-preview-05-2026"

  // ---------------------------------------------------------------------------
  // Reading dictionaries
  // ---------------------------------------------------------------------------

  /** `d.get(key, default)` for a string field. */
  function GetText(d: Dict, key: string, default: string): string {
    if key in d && d[key].Str? then d[key].s else default
  }

  /** `d.get(key)` for an optional string field. */
  function GetOptional(d: Dict, key: string): Option<string> {
    if key in d && d[key].Str? then Some(d[key].s) else None
  }

  /** `d.get(key, []) or ()`. */
  function GetItems(d: Dict, key: string): seq<Json> {
    if key in d && d[key].Array? then d[key].items else []
  }

  function GetFields(d: Dict, key: string): Dict {
    if key in d && d[key].Object? then d[key].fields else map[]
  }

  /** A field that is written only when it is set. */
  function WithText(d: Dict, key: string, value: Option<string>): Dict {
    match value case None => d case Some(v) => d[key := Str(v)]
  }

  function FieldsOf(j: Json): Dict {
    if j.Object? then j.fields else map[]
  }

  // ---------------------------------------------------------------------------
  // Conversions
  // ---------------------------------------------------------------------------

  function SourceToApi(s: EnvironmentSource): Dict {
    var required := map["type" := Str(s.kind), "target" := Str(s.target)];
    WithText(WithText(WithText(required, "source", s.source), "content", s.content), "encoding", s.encoding)
  }

  function SourceFromApi(d: Dict): EnvironmentSource {
    EnvironmentSource(GetText(d, "type", "GCS"), GetText(d, "target", ""), GetOptional(d, "source"),
                      GetOptional(d, "content"), GetOptional(d, "encoding"))
  }

  function NetworkToApi(n: NetworkConfig): Dict {
    map["allowlist" := Array(seq(|n.allowlist|, i requires 0 <= i < |n.allowlist| => Object(n.allowlist[i])))]
  }

  function NetworkFromApi(d: Dict): NetworkConfig {
    var items := GetItems(d, "allowlist");
    NetworkConfig(seq(|items|, i requires 0 <= i < |items| => FieldsOf(items[i])))
  }

  function EnvironmentToApi(e: BaseEnvironment): Dict {
    map["type" := Str(e.kind),
        "sources" := Array(seq(|e.sources|, i requires 0 <= i < |e.sources| => Object(SourceToApi(e.sources[i])))),
        "network" := Object(NetworkToApi(e.network))]
  }

  function EnvironmentFromApi(d: Dict): BaseEnvironment {
    var items := GetItems(d, "sources");
    BaseEnvironment(seq(|items|, i requires 0 <= i < |items| => SourceFromApi(FieldsOf(items[i]))),
                    NetworkFromApi(GetFields(d, "network")),
                    GetText(d, "type", "remote"))
  }

  function ToolToApi(t: AgentTool): Dict {
    var d := WithText(WithText(map["type" := Str(t.kind)], "name", t.name), "url", t.url);
    if t.headers.Some? then d["headers" := Object(t.headers.value)] else d
  }

  function ToolFromApi(d: Dict): AgentTool {
    AgentTool(GetText(d, "type", ""), GetOptional(d, "name"), GetOptional(d, "url"),
              if "headers" in d && d["headers"].Object? then Some(d["headers"].fields) else None)
  }

  function SpecToApi(s: AgentSpec): Dict {
    var d := map[
      "name" := Str(s.id),
      "base_agent" := Str(s.baseAgent),
      "description" := Str(s.description),
      "system_instruction" := Str(s.systemInstruction),
      "tools" := Array(seq(|s.tools|, i requires 0 <= i < |s.tools| => Object(ToolToApi(s.tools[i]))))];
    if s.baseEnvironment.Some? then d["base_environment" := Object(EnvironmentToApi(s.baseEnvironment.value))] else d
  }

  /** `name.rsplit("/", 1)[-1]`. */
  function LastSegment(name: string): string {
    var parts := Split(name, '/');
    parts[|parts| - 1]
  }

  function SpecFromApi(d: Dict): AgentSpec {
    var tools := GetItems(d, "tools");
    var env := GetFields(d, "base_environment");
    AgentSpec(
      LastSegment(GetText(d, "name", "")),
      GetText(d, "base_agent", DEFAULT_BASE_AGENT),
      GetText(d, "description", ""),
      GetText(d, "system_instruction", ""),
      seq(|tools|, i requires 0 <= i < |tools| => ToolFromApi(FieldsOf(tools[i]))),
      if env == map[] then None else Some(EnvironmentFromApi(env)))
  }

  // ---------------------------------------------------------------------------
  // Round trips
  // ---------------------------------------------------------------------------

  lemma SourceRoundTrip(s: EnvironmentSource)
    ensures SourceFromApi(SourceToApi(s)) == s
  {
  }

  lemma NetworkRoundTrip(n: NetworkConfig)
    ensures NetworkFromApi(NetworkToApi(n)) == n
  {
    assert NetworkFromApi(NetworkToApi(n)).allowlist == n.allowlist;
  }

  lemma EnvironmentRoundTrip(e: BaseEnvironment)
    ensures EnvironmentFromApi(EnvironmentToApi(e)) == e
    ensures EnvironmentToApi(e) != map[]
  {
    hide SourceToApi, SourceFromApi, NetworkToApi, NetworkFromApi;
    NetworkRoundTrip(e.network);
    var back := EnvironmentFromApi(EnvironmentToApi(e));
    assert |back.sources| == |e.sources|;
    forall i | 0 <= i < |e.sources| ensures back.sources[i] == e.sources[i] {
      SourceRoundTrip(e.sources[i]);
    }
    assert "type" in EnvironmentToApi(e);
  }

  lemma ToolRoundTrip(t: AgentTool)
    ensures ToolFromApi(ToolToApi(t)) == t
  {
  }

  lemma {:induction false} LastSegmentIsShort(name: string)
    ensures LastSegment(name) == name <==> '/' !in name
  {
    if '/' !in name {
      SplitNoSep(name, '/');
    }
  }

  lemma ToolsRoundTrip(s: AgentSpec)
    ensures SpecFromApi(SpecToApi(s)).tools == s.tools
  {
    hide ToolToApi, ToolFromApi, EnvironmentToApi, EnvironmentFromApi;
    var back := SpecFromApi(SpecToApi(s));
    assert |back.tools| == |s.tools|;
    forall i | 0 <= i < |s.tools| ensures back.tools[i] == s.tools[i] {
      ToolRoundTrip(s.tools[i]);
    }
  }

  lemma SpecEnvironmentRoundTrip(s: AgentSpec)
    ensures SpecFromApi(SpecToApi(s)).baseEnvironment == s.baseEnvironment
  {
    hide EnvironmentToApi, EnvironmentFromApi;
    if s.baseEnvironment.Some? {
      EnvironmentRoundTrip(s.baseEnvironment.value);
    }
  }

  /** A specification comes back from its wire form exactly when its id has no slash: the id is read
      as the last segment of a qualified name. */
  lemma SpecRoundTrip(s: AgentSpec)
    ensures SpecFromApi(SpecToApi(s)) == s <==> '/' !in s.id
  {
    hide ToolToApi, ToolFromApi, EnvironmentToApi, EnvironmentFromApi, LastSegment;
    LastSegmentIsShort(s.id);
    ToolsRoundTrip(s);
    SpecEnvironmentRoundTrip(s);
    assert SpecFromApi(SpecToApi(s)).id == LastSegment(s.id);
  }

  // ---------------------------------------------------------------------------
  // What is sent, field by field
  // ---------------------------------------------------------------------------

  /** The field is there if and only if the value is set, and then it is the value. */
  ghost predicate SendsText(d: Dict, key: string, value: Option<string>) {
    (key in d <==> value.Some?) && (value.Some? ==> d[key] == Str(value.value))
  }

  ghost predicate SendsSource(d: Dict, s: EnvironmentSource) {
    && d.Keys <= {"type", "target", "source", "content", "encoding"}
    && SendsText(d, "type", Some(s.kind)) && SendsText(d, "target", Some(s.target))
    && SendsText(d, "source", s.source) && SendsText(d, "content", s.content) && SendsText(d, "encoding", s.encoding)
  }

  ghost predicate SendsTool(d: Dict, t: AgentTool) {
    && d.Keys <= {"type", "name", "url", "headers"}
    && SendsText(d, "type", Some(t.kind)) && SendsText(d, "name", t.name) && SendsText(d, "url", t.url)
    && ("headers" in d <==> t.headers.Some?) && (t.headers.Some? ==> d["headers"] == Object(t.headers.value))
  }

  ghost predicate SendsEnvironment(d: Dict, e: BaseEnvironment) {
    && d.Keys == {"type", "sources", "network"} && d["type"] == Str(e.kind)
    && d["sources"].Array? && |d["sources"].items| == |e.sources|
    && (forall i :: 0 <= i < |e.sources| ==>
          d["sources"].items[i].Object? && SendsSource(d["sources"].items[i].fields, e.sources[i]))
    && d["network"].Object? && d["network"].fields.Keys == {"allowlist"}
    && d["network"].fields["allowlist"].Array? && |d["network"].fields["allowlist"].items| == |e.network.allowlist|
    && (forall i :: 0 <= i < |e.network.allowlist| ==>
          d["network"].fields["allowlist"].items[i] == Object(e.network.allowlist[i]))
  }

  ghost predicate SendsSpec(d: Dict, s: AgentSpec) {
    && d.Keys <= {"name", "base_agent", "description", "system_instruction", "tools", "base_environment"}
    && SendsText(d, "name", Some(s.id)) && SendsText(d, "base_agent", Some(s.baseAgent))
    && SendsText(d, "description", Some(s.description))
    && SendsText(d, "system_instruction", Some(s.systemInstruction))
    && "tools" in d && d["tools"].Array? && |d["tools"].items| == |s.tools|
    && (forall i :: 0 <= i < |s.tools| ==>
          d["tools"].items[i].Object? && SendsTool(d["tools"].items[i].fields, s.tools[i]))
    && ("base_environment" in d <==> s.baseEnvironment.Some?)
    && (s.baseEnvironment.Some? ==>
          d["base_environment"].Object? && SendsEnvironment(d["base_environment"].fields, s.baseEnvironment.value))
  }

  lemma SourceIsSent(s: EnvironmentSource)
    ensures SendsSource(SourceToApi(s), s)
  {
  }

  lemma ToolIsSent(t: AgentTool)
    ensures SendsTool(ToolToApi(t), t)
  {
  }

  lemma EnvironmentIsSent(e: BaseEnvironment)
    ensures SendsEnvironment(EnvironmentToApi(e), e)
  {
    hide SourceToApi, SendsSource;
    forall i | 0 <= i < |e.sources| ensures SendsSource(SourceToApi(e.sources[i]), e.sources[i]) {
      SourceIsSent(e.sources[i]);
    }
  }

  /** A specification is sent with these fields and no others. */
  lemma SpecIsSent(s: AgentSpec)
    ensures SendsSpec(SpecToApi(s), s)
  {
    hide ToolToApi, SendsTool, EnvironmentToApi, SendsEnvironment;
    forall i | 0 <= i < |s.tools| ensures SendsTool(ToolToApi(s.tools[i]), s.tools[i]) {
      ToolIsSent(s.tools[i]);
    }
    if s.baseEnvironment.Some? {
      EnvironmentIsSent(s.baseEnvironment.value);
    }
  }

  /** Fields that are missing read as their defaults. */
  lemma MissingFieldsHaveDefaults()
    ensures SpecFromApi(map[]) == AgentSpec("", "antigravity-preview-05-2026", "", "", [], None)
    ensures SourceFromApi(map[]) == EnvironmentSource("GCS", "", None, None, None)
    ensures EnvironmentFromApi(map["type" := Str("remote")]) == BaseEnvironment([], NetworkConfig([]), "remote")
    ensures EnvironmentFromApi(map[]) == BaseEnvironment([], NetworkConfig([]), "remote")
    ensures ToolFromApi(map[]) == AgentTool("", None, None, None)
  {
  }

  /** The id is what stands behind the last slash of a qualified name. */
  lemma QualifiedNamesAreCut(front: string, id: string)
    requires '/' !in id
    ensures LastSegment(front + "/" + id) == id
  {
    SplitAppend(front, id, '/');
    SplitNoSep(id, '/');
    assert front + ['/'] + id == front + "/" + id;
  }
}
