/** The per-user agent provisioner: one managed agent per principal, re-pointed to the last requested
    skill source. */
module Provisioner {
  import opened Text
  import opened Json
  import opened AgentModels

  // ---------------------------------------------------------------------------
  // The platform
  // ---------------------------------------------------------------------------

  type Agents = map<string, AgentSpec>

  /** What a patch sends: the body, and a mask with exactly the fields that were given. */
  datatype PatchRequest = PatchRequest(body: Dict, mask: seq<string>)

  /** `patch_agent`. */
  function BuildPatch(env: Option<BaseEnvironment>, tools: Option<seq<AgentTool>>,
                      instruction: Option<string>): PatchRequest {
    var a := if env.Some? then PatchRequest(map["base_environment" := Object(EnvironmentToApi(env.value))],
                                            ["base_environment"])
             else PatchRequest(map[], []);
    var b := if tools.Some? then
               var items := seq(|tools.value|, i requires 0 <= i < |tools.value| => Object(ToolToApi(tools.value[i])));
               PatchRequest(a.body["tools" := Array(items)], a.mask + ["tools"])
             else a;
    if instruction.Some? then PatchRequest(b.body["system_instruction" := Str(instruction.value)],
                                           b.mask + ["system_instruction"])
    else b
  }

  /** A server that honours the mask: the fields it names are taken from the body, the others stay. */
  function ApplyPatch(spec: AgentSpec, r: PatchRequest): AgentSpec {
    var tools := GetItems(r.body, "tools");
    var env := GetFields(r.body, "base_environment");
    spec.(baseEnvironment :=
            if "base_environment" !in r.mask then spec.baseEnvironment
            else if env == map[] then None
            else Some(EnvironmentFromApi(env)),
          tools :=
            if "tools" !in r.mask then spec.tools
            else seq(|tools|, i requires 0 <= i < |tools| => ToolFromApi(FieldsOf(tools[i]))),
          systemInstruction :=
            if "system_instruction" !in r.mask then spec.systemInstruction
            else GetText(r.body, "system_instruction", ""))
  }

  lemma PatchedTools(spec: AgentSpec, env: Option<BaseEnvironment>, tools: Option<seq<AgentTool>>,
                     instruction: Option<string>)
    ensures ApplyPatch(spec, BuildPatch(env, tools, instruction)).tools
            == if tools.Some? then tools.value else spec.tools
  {
    hide ToolToApi, ToolFromApi, EnvironmentToApi, EnvironmentFromApi;
    if tools.Some? {
      var back := ApplyPatch(spec, BuildPatch(env, tools, instruction)).tools;
      assert |back| == |tools.value|;
      forall i | 0 <= i < |tools.value| ensures back[i] == tools.value[i] {
        ToolRoundTrip(tools.value[i]);
      }
    }
  }

  /** A patch sets the fields it was given and blanks no other. */
  lemma PatchSetsWhatIsGiven(spec: AgentSpec, env: Option<BaseEnvironment>, tools: Option<seq<AgentTool>>,
                             instruction: Option<string>)
    ensures ApplyPatch(spec, BuildPatch(env, tools, instruction))
            == spec.(baseEnvironment := if env.Some? then env else spec.baseEnvironment,
                     tools := if tools.Some? then tools.value else spec.tools,
                     systemInstruction := if instruction.Some? then instruction.value else spec.systemInstruction)
  {
    PatchedTools(spec, env, tools, instruction);
    hide ToolToApi, ToolFromApi, EnvironmentToApi, EnvironmentFromApi;
    if env.Some? {
      EnvironmentRoundTrip(env.value);
    }
  }

  // ---------------------------------------------------------------------------
  // The provisioner
  // ---------------------------------------------------------------------------

  /** How the provisioner is deployed; principals are their keys. */
  datatype Config = Config(
    baseAgent: string,
    agentId: string -> string,
    gcsSource: string -> string,
    gcsTarget: string,
    skillTarget: string,
    mcpName: string,
    mcpUrl: string,
    domains: seq<string>)

  /** One `ensure_agent` call, with the headers that the provider returns at that time. */
  datatype Call = Call(principal: string, skill: Option<string>, instruction: string, headers: Dict)

  function BuildEnvironment(cfg: Config, principal: string, skill: Option<string>): BaseEnvironment {
    var own := EnvironmentSource("GCS", cfg.gcsTarget, Some(cfg.gcsSource(principal)), None, None);
    var mounted :=
      if skill.Some? then [EnvironmentSource("SKILL_REGISTRY", cfg.skillTarget, skill, None, None)] else [];
    BaseEnvironment([own] + mounted,
                    NetworkConfig(seq(|cfg.domains|,
                                      i requires 0 <= i < |cfg.domains| => map["domain" := Str(cfg.domains[i])])),
                    "remote")
  }

  function BuildTools(cfg: Config, headers: Dict): seq<AgentTool> {
    [AgentTool("code_execution", None, None, None),
     AgentTool("filesystem", None, None, None),
     AgentTool("mcp_server", Some(cfg.mcpName), Some(cfg.mcpUrl), Some(headers))]
  }

  function BuildSpec(cfg: Config, c: Call, skill: Option<string>): AgentSpec {
    var id := cfg.agentId(c.principal);
    AgentSpec(id, cfg.baseAgent, "Per-user Antigravity agent (" + id + ")", c.instruction, BuildTools(cfg, c.headers),
              Some(BuildEnvironment(cfg, c.principal, skill)))
  }

  /** Whether the listed sources mount another skill source, or none. */
  function SourcesDiffer(sources: seq<Json>, skill: string): bool {
    if sources == [] then true
    else
      var d := FieldsOf(sources[0]);
      if GetText(d, "type", "") == "SKILL_REGISTRY" then GetOptional(d, "source") != Some(skill)
      else SourcesDiffer(sources[1..], skill)
  }

  /** `_skill_differs`. */
  function SkillDiffers(existing: Dict, skill: string): bool {
    SourcesDiffer(GetItems(GetFields(existing, "base_environment"), "sources"), skill)
  }

  /** What `get_agent` shows of an agent. */
  type View = AgentSpec -> Dict

  /** The state of the platform and the ids that it was asked to create and to patch. */
  datatype Platform = Platform(agents: Agents, created: seq<string>, patched: seq<string>)

  function Ensured(cfg: Config, view: View, p: Platform, c: Call): Platform {
    var id := cfg.agentId(c.principal);
    if id !in p.agents || view(p.agents[id]) == map[] then
      p.(agents := p.agents[id := BuildSpec(cfg, c, c.skill)], created := p.created + [id])
    else if c.skill.Some? && SkillDiffers(view(p.agents[id]), c.skill.value) then
      p.(agents := p.agents[id := ApplyPatch(p.agents[id],
                                             BuildPatch(Some(BuildEnvironment(cfg, c.principal, c.skill)), None,
                                                        None))],
         patched := p.patched + [id])
    else p
  }

  /** The platform after a history of calls by any principals. */
  function EnsuredAll(cfg: Config, view: View, calls: seq<Call>): Platform {
    if calls == [] then Platform(map[], [], [])
    else
      var n := |calls| - 1;
      Ensured(cfg, view, EnsuredAll(cfg, view, calls[..n]), calls[n])
  }

  // ---------------------------------------------------------------------------
  // What the view must tell
  // ---------------------------------------------------------------------------

  /** A view that says something of every agent, and that never shows a skill source that is not
      mounted; it may leave the sources out. */
  ghost predicate Trustworthy(cfg: Config, view: View) {
    forall spec: AgentSpec, principal: string, mounted: Option<string>, skill: string ::
      spec.baseEnvironment == Some(BuildEnvironment(cfg, principal, mounted)) && !SkillDiffers(view(spec), skill) ==>
        mounted == Some(skill)
  }

  ghost predicate Telling(view: View) {
    forall spec :: view(spec) != map[]
  }

  function Hidden(d: Dict): Dict {
    d - {"base_environment"}
  }

  lemma SourcesOf(cfg: Config, principal: string, mounted: Option<string>, skill: string)
    ensures SourcesDiffer(GetItems(EnvironmentToApi(BuildEnvironment(cfg, principal, mounted)), "sources"), skill)
            <==> mounted != Some(skill)
  {
    var e := BuildEnvironment(cfg, principal, mounted);
    var items := GetItems(EnvironmentToApi(e), "sources");
    assert items[0] == Object(SourceToApi(e.sources[0]));
    if mounted.Some? {
      assert items[1..] == [Object(SourceToApi(e.sources[1]))];
      SourceRoundTrip(e.sources[1]);
      assert items[1..][1..] == [];
    } else {
      assert items[1..] == [];
    }
  }

  /** The full wire form is such a view, and so is one without the environment. */
  lemma WireFormIsTrustworthy(cfg: Config)
    ensures Trustworthy(cfg, SpecToApi) && Telling(SpecToApi)
    ensures Trustworthy(cfg, spec => Hidden(SpecToApi(spec))) && Telling(spec => Hidden(SpecToApi(spec)))
  {
    forall spec: AgentSpec, principal: string, mounted: Option<string>, skill: string
      | spec.baseEnvironment == Some(BuildEnvironment(cfg, principal, mounted))
      ensures SkillDiffers(SpecToApi(spec), skill) <==> mounted != Some(skill)
      ensures SkillDiffers(Hidden(SpecToApi(spec)), skill)
    {
      SourcesOf(cfg, principal, mounted, skill);
    }
    forall spec: AgentSpec ensures SpecToApi(spec) != map[] && Hidden(SpecToApi(spec)) != map[] {
      assert "name" in SpecToApi(spec) && "name" in Hidden(SpecToApi(spec));
    }
  }

  // ---------------------------------------------------------------------------
  // Histories
  // ---------------------------------------------------------------------------

  /** The first call of a principal. */
  function First(calls: seq<Call>, principal: string): Option<Call> {
    if calls == [] then None
    else
      var n := |calls| - 1;
      var before := First(calls[..n], principal);
      if before.Some? then before else if calls[n].principal == principal then Some(calls[n]) else None
  }

  /** The last skill source that a principal asked for. */
  function LastSkill(calls: seq<Call>, principal: string): Option<string> {
    if calls == [] then None
    else
      var n := |calls| - 1;
      if calls[n].principal == principal && calls[n].skill.Some? then calls[n].skill
      else LastSkill(calls[..n], principal)
  }

  /** The ids of different principals of the history differ. */
  ghost predicate DistinctIds(cfg: Config, calls: seq<Call>) {
    forall i, j :: 0 <= i < |calls| && 0 <= j < |calls|
                   && cfg.agentId(calls[i].principal) == cfg.agentId(calls[j].principal) ==>
                     calls[i].principal == calls[j].principal
  }

  ghost predicate Seen(calls: seq<Call>, principal: string) {
    exists i :: 0 <= i < |calls| && calls[i].principal == principal
  }

  ghost predicate Once(ids: seq<string>) {
    forall i, j :: 0 <= i < j < |ids| ==> ids[i] != ids[j]
  }

  /** The agents are what the history asks for: one per principal, created once, with the tools and the
      instruction of its first call and the last skill source. */
  ghost predicate Tracks(cfg: Config, p: Platform, calls: seq<Call>) {
    && (forall id :: id in p.agents ==> IsSomeones(cfg, calls, id))
    && (forall q :: Seen(calls, q) ==> HasItsAgent(cfg, p.agents, calls, q))
    && Once(p.created)
    && (forall id :: id in p.created <==> id in p.agents)
  }

  ghost predicate IsSomeones(cfg: Config, calls: seq<Call>, id: string) {
    exists q :: Seen(calls, q) && id == cfg.agentId(q)
  }

  ghost predicate HasItsAgent(cfg: Config, agents: Agents, calls: seq<Call>, q: string) {
    && cfg.agentId(q) in agents
    && First(calls, q).Some?
    && agents[cfg.agentId(q)] == BuildSpec(cfg, First(calls, q).value, LastSkill(calls, q))
  }

  lemma {:induction false} FirstIsOwn(calls: seq<Call>, q: string)
    ensures First(calls, q).Some? <==> Seen(calls, q)
    ensures First(calls, q).Some? ==> First(calls, q).value.principal == q
    ensures First(calls, q).None? ==> LastSkill(calls, q).None?
  {
    if calls != [] {
      var n := |calls| - 1;
      FirstIsOwn(calls[..n], q);
      SeenInFront(calls, q);
    }
  }

  lemma SeenInFront(calls: seq<Call>, q: string)
    requires calls != []
    ensures Seen(calls, q) <==> Seen(calls[..|calls| - 1], q) || calls[|calls| - 1].principal == q
  {
    var n := |calls| - 1;
    if i :| 0 <= i < n && calls[..n][i].principal == q {
      assert calls[i].principal == q;
    }
    if i :| 0 <= i < |calls| && calls[i].principal == q && i < n {
      assert calls[..n][i].principal == q;
    }
  }

  /** A call for an agent that exists keeps everything but the skill source, which it sets if it asks
      for one. */
  lemma RepointsOnly(cfg: Config, view: View, p: Platform, c: Call, first: Call, last: Option<string>)
    requires Trustworthy(cfg, view) && Telling(view) && first.principal == c.principal
    requires cfg.agentId(c.principal) in p.agents && p.agents[cfg.agentId(c.principal)] == BuildSpec(cfg, first, last)
    ensures Ensured(cfg, view, p, c).agents
            == p.agents[cfg.agentId(c.principal) := BuildSpec(cfg, first, if c.skill.Some? then c.skill else last)]
    ensures Ensured(cfg, view, p, c).created == p.created
  {
    var id := cfg.agentId(c.principal);
    var spec := p.agents[id];
    PatchSetsWhatIsGiven(spec, Some(BuildEnvironment(cfg, c.principal, c.skill)), None, None);
    assert spec.baseEnvironment == Some(BuildEnvironment(cfg, c.principal, last));
    assert c.skill.Some? && !SkillDiffers(view(spec), c.skill.value) ==> last == c.skill;
    hide BuildEnvironment, BuildTools, SkillDiffers, BuildPatch, ApplyPatch, Trustworthy;
    assert c.skill == None ==> p.agents[id := spec] == p.agents;
  }

  lemma CreatesNew(cfg: Config, view: View, p: Platform, c: Call)
    requires cfg.agentId(c.principal) !in p.agents
    ensures Ensured(cfg, view, p, c)
            == p.(agents := p.agents[cfg.agentId(c.principal) := BuildSpec(cfg, c, c.skill)],
                  created := p.created + [cfg.agentId(c.principal)])
  {
  }

  /** What a history asks for after one more call. */
  lemma OneMoreCall(calls: seq<Call>)
    requires calls != []
    ensures var c, front := calls[|calls| - 1], calls[..|calls| - 1];
            && LastSkill(calls, c.principal) == (if c.skill.Some? then c.skill else LastSkill(front, c.principal))
            && First(calls, c.principal) == (if Seen(front, c.principal) then First(front, c.principal) else Some(c))
            && (!Seen(front, c.principal) ==> LastSkill(front, c.principal) == None)
            && forall q :: q != c.principal ==>
                             First(calls, q) == First(front, q) && LastSkill(calls, q) == LastSkill(front, q)
  {
    FirstIsOwn(calls[..|calls| - 1], calls[|calls| - 1].principal);
  }

  /** What one call must do to the agent of its principal. */
  lemma AgentAfter(cfg: Config, view: View, p: Platform, calls: seq<Call>)
    requires calls != [] && Trustworthy(cfg, view) && Telling(view) && Tracks(cfg, p, calls[..|calls| - 1])
    requires DistinctIds(cfg, calls)
    ensures var c := calls[|calls| - 1];
            var after := Ensured(cfg, view, p, c);
            && First(calls, c.principal).Some?
            && after.agents
               == p.agents[cfg.agentId(c.principal) := BuildSpec(cfg, First(calls, c.principal).value,
                                                                 LastSkill(calls, c.principal))]
            && after.created
               == (if cfg.agentId(c.principal) in p.agents then p.created else p.created + [cfg.agentId(c.principal)])
  {
    var c, front := calls[|calls| - 1], calls[..|calls| - 1];
    FirstIsOwn(front, c.principal);
    OneMoreCall(calls);
    hide BuildSpec, Ensured, Trustworthy, Telling;
    if cfg.agentId(c.principal) in p.agents {
      IdIsOwn(cfg, p, calls);
      assert HasItsAgent(cfg, p.agents, front, c.principal);
      RepointsOnly(cfg, view, p, c, First(front, c.principal).value, LastSkill(front, c.principal));
    } else {
      CreatesNew(cfg, view, p, c);
    }
  }

  lemma IdIsOwn(cfg: Config, p: Platform, calls: seq<Call>)
    requires calls != [] && DistinctIds(cfg, calls) && Tracks(cfg, p, calls[..|calls| - 1])
    requires cfg.agentId(calls[|calls| - 1].principal) in p.agents
    ensures Seen(calls[..|calls| - 1], calls[|calls| - 1].principal)
  {
    var n := |calls| - 1;
    assert IsSomeones(cfg, calls[..n], cfg.agentId(calls[n].principal));
    var q :| Seen(calls[..n], q) && cfg.agentId(calls[n].principal) == cfg.agentId(q);
    var i :| 0 <= i < n && calls[..n][i].principal == q;
    assert calls[i].principal == q;
  }

  lemma OtherIds(cfg: Config, calls: seq<Call>, q: string)
    requires calls != [] && DistinctIds(cfg, calls) && Seen(calls, q) && q != calls[|calls| - 1].principal
    ensures cfg.agentId(q) != cfg.agentId(calls[|calls| - 1].principal)
    ensures Seen(calls[..|calls| - 1], q)
  {
    SeenInFront(calls, q);
    var i :| 0 <= i < |calls| && calls[i].principal == q;
  }

  lemma AgentOfOther(cfg: Config, p: Platform, after: Platform, calls: seq<Call>, spec: AgentSpec, q: string)
    requires calls != [] && DistinctIds(cfg, calls) && Tracks(cfg, p, calls[..|calls| - 1])
    requires Seen(calls, q) && q != calls[|calls| - 1].principal
    requires after.agents == p.agents[cfg.agentId(calls[|calls| - 1].principal) := spec]
    ensures HasItsAgent(cfg, after.agents, calls, q)
  {
    OneMoreCall(calls);
    OtherIds(cfg, calls, q);
    hide BuildSpec, Seen, First, LastSkill;
    assert HasItsAgent(cfg, p.agents, calls[..|calls| - 1], q);
  }

  lemma OwnerOfId(cfg: Config, p: Platform, calls: seq<Call>, id: string)
    requires calls != [] && Tracks(cfg, p, calls[..|calls| - 1])
    requires id in p.agents || id == cfg.agentId(calls[|calls| - 1].principal)
    ensures IsSomeones(cfg, calls, id)
  {
    if id in p.agents {
      assert IsSomeones(cfg, calls[..|calls| - 1], id);
      var q :| Seen(calls[..|calls| - 1], q) && id == cfg.agentId(q);
      SeenInFront(calls, q);
    } else {
      SeenInFront(calls, calls[|calls| - 1].principal);
    }
  }

  lemma TracksOneMore(cfg: Config, view: View, p: Platform, calls: seq<Call>)
    requires calls != [] && Trustworthy(cfg, view) && Telling(view) && Tracks(cfg, p, calls[..|calls| - 1])
    requires DistinctIds(cfg, calls)
    ensures Tracks(cfg, Ensured(cfg, view, p, calls[|calls| - 1]), calls)
  {
    var c := calls[|calls| - 1];
    var after := Ensured(cfg, view, p, c);
    AgentAfter(cfg, view, p, calls);
    assert HasItsAgent(cfg, after.agents, calls, c.principal);
    hide Ensured, Trustworthy, Telling, BuildSpec, First, LastSkill, HasItsAgent, IsSomeones, Seen;
    forall q | Seen(calls, q) ensures HasItsAgent(cfg, after.agents, calls, q) {
      if q != c.principal {
        AgentOfOther(cfg, p, after, calls, after.agents[cfg.agentId(c.principal)], q);
      }
    }
    forall id | id in after.agents ensures IsSomeones(cfg, calls, id) {
      OwnerOfId(cfg, p, calls, id);
    }
  }

  lemma {:induction false} HistoryIsTracked(cfg: Config, view: View, calls: seq<Call>)
    requires Trustworthy(cfg, view) && Telling(view) && DistinctIds(cfg, calls)
    ensures Tracks(cfg, EnsuredAll(cfg, view, calls), calls)
  {
    if calls != [] {
      var front := calls[..|calls| - 1];
      assert forall i :: 0 <= i < |front| ==> front[i] == calls[i];
      HistoryIsTracked(cfg, view, front);
      TracksOneMore(cfg, view, EnsuredAll(cfg, view, front), calls);
    }
  }

  /** Over any history of calls, whether `get_agent` shows the mounted sources or not, each principal has
      exactly one agent, created once, with its own storage source, the last skill source it asked for,
      and the tools and instruction of its first call; and the two platforms end up the same. */
  lemma AgentsFollowTheHistory(cfg: Config, calls: seq<Call>)
    requires DistinctIds(cfg, calls)
    ensures Tracks(cfg, EnsuredAll(cfg, SpecToApi, calls), calls)
    ensures Tracks(cfg, EnsuredAll(cfg, spec => Hidden(SpecToApi(spec)), calls), calls)
    ensures EnsuredAll(cfg, SpecToApi, calls).agents == EnsuredAll(cfg, spec => Hidden(SpecToApi(spec)), calls).agents
  {
    var hidden: View := spec => Hidden(SpecToApi(spec));
    WireFormIsTrustworthy(cfg);
    HistoryIsTracked(cfg, SpecToApi, calls);
    HistoryIsTracked(cfg, hidden, calls);
    SameAgents(cfg, EnsuredAll(cfg, SpecToApi, calls), EnsuredAll(cfg, hidden, calls), calls);
  }

  lemma SameAgents(cfg: Config, p: Platform, p': Platform, calls: seq<Call>)
    requires Tracks(cfg, p, calls) && Tracks(cfg, p', calls)
    ensures p.agents == p'.agents
  {
    hide BuildSpec;
    forall id ensures id in p.agents <==> IsSomeones(cfg, calls, id) {
      assert IsSomeones(cfg, calls, id) ==> exists q :: HasItsAgent(cfg, p.agents, calls, q) && id == cfg.agentId(q);
    }
    forall id ensures id in p'.agents <==> IsSomeones(cfg, calls, id) {
      assert IsSomeones(cfg, calls, id) ==> exists q :: HasItsAgent(cfg, p'.agents, calls, q) && id == cfg.agentId(q);
    }
    assert p.agents.Keys == p'.agents.Keys;
    forall id | id in p.agents ensures p.agents[id] == p'.agents[id] {
      assert IsSomeones(cfg, calls, id);
      var q :| Seen(calls, q) && id == cfg.agentId(q);
      assert HasItsAgent(cfg, p.agents, calls, q) && HasItsAgent(cfg, p'.agents, calls, q);
    }
  }

  // ---------------------------------------------------------------------------
  // What an agent of the history is, field by field
  // ---------------------------------------------------------------------------

  /** The principal's own storage prefix, and behind it the skill source if there is one. */
  ghost predicate MountsOwn(cfg: Config, sources: seq<EnvironmentSource>, q: string, skill: Option<string>) {
    && |sources| == (if skill.Some? then 2 else 1)
    && sources[0].kind == "GCS" && sources[0].source == Some(cfg.gcsSource(q)) && sources[0].target == cfg.gcsTarget
    && sources[0].content == None && sources[0].encoding == None
    && (skill.Some? ==>
          && sources[1].kind == "SKILL_REGISTRY" && sources[1].source == skill && sources[1].target == cfg.skillTarget
          && sources[1].content == None && sources[1].encoding == None)
  }

  /** The network allows the configured domains and nothing else. */
  ghost predicate AllowsDomains(n: NetworkConfig, domains: seq<string>) {
    |n.allowlist| == |domains| && forall i :: 0 <= i < |domains| ==> n.allowlist[i] == map["domain" := Str(domains[i])]
  }

  /** Code execution, the file system, and the proxy with the headers it got. */
  ghost predicate HasThreeTools(cfg: Config, tools: seq<AgentTool>, headers: Dict) {
    && |tools| == 3
    && tools[0].kind == "code_execution" && tools[0].name == tools[0].url == None && tools[0].headers == None
    && tools[1].kind == "filesystem" && tools[1].name == tools[1].url == None && tools[1].headers == None
    && tools[2].kind == "mcp_server" && tools[2].name == Some(cfg.mcpName) && tools[2].url == Some(cfg.mcpUrl)
    && tools[2].headers == Some(headers)
  }

  /** The agent of principal `q`, with what its first call brought and the skill source. */
  ghost predicate IsAgentOf(cfg: Config, a: AgentSpec, q: string, first: Call, skill: Option<string>) {
    && a.id == cfg.agentId(q) && a.baseAgent == cfg.baseAgent
    && a.description == "Per-user Antigravity agent (" + cfg.agentId(q) + ")"
    && a.systemInstruction == first.instruction
    && HasThreeTools(cfg, a.tools, first.headers)
    && a.baseEnvironment.Some? && a.baseEnvironment.value.kind == "remote"
    && MountsOwn(cfg, a.baseEnvironment.value.sources, q, skill)
    && AllowsDomains(a.baseEnvironment.value.network, cfg.domains)
  }

  lemma BuiltIsAgent(cfg: Config, c: Call, skill: Option<string>)
    ensures IsAgentOf(cfg, BuildSpec(cfg, c, skill), c.principal, c, skill)
  {
  }

  /** `calls[i]` is the first call of `q`. */
  ghost predicate IsFirstCall(calls: seq<Call>, q: string, i: int) {
    0 <= i < |calls| && calls[i].principal == q && forall j :: 0 <= j < i ==> calls[j].principal != q
  }

  /** `skill` is what the last call of `q` that asked for a skill source asked for, if there is one. */
  ghost predicate IsLastRequest(calls: seq<Call>, q: string, skill: Option<string>) {
    match skill
    case None => forall j :: 0 <= j < |calls| && calls[j].principal == q ==> calls[j].skill == None
    case Some(source) =>
      exists i :: 0 <= i < |calls| && calls[i].principal == q && calls[i].skill == Some(source)
                  && forall j :: i < j < |calls| && calls[j].principal == q ==> calls[j].skill == None
  }

  lemma {:induction false} FirstIsFirstCall(calls: seq<Call>, q: string) returns (i: int)
    requires Seen(calls, q)
    ensures IsFirstCall(calls, q, i) && First(calls, q) == Some(calls[i])
  {
    var n := |calls| - 1;
    SeenInFront(calls, q);
    FirstIsOwn(calls[..n], q);
    if Seen(calls[..n], q) {
      i := FirstIsFirstCall(calls[..n], q);
      assert forall j :: 0 <= j < n ==> calls[..n][j] == calls[j];
    } else {
      i := n;
      forall j | 0 <= j < n ensures calls[j].principal != q {
        assert calls[..n][j] == calls[j];
      }
    }
  }

  lemma {:induction false} LastSkillIsLastRequest(calls: seq<Call>, q: string)
    ensures IsLastRequest(calls, q, LastSkill(calls, q))
  {
    if calls != [] {
      var n := |calls| - 1;
      LastSkillIsLastRequest(calls[..n], q);
      assert forall j :: 0 <= j < n ==> calls[..n][j] == calls[j];
      if !(calls[n].principal == q && calls[n].skill.Some?) && LastSkill(calls[..n], q).Some? {
        var i :| 0 <= i < n && calls[..n][i].principal == q && calls[..n][i].skill == LastSkill(calls[..n], q)
                 && forall j :: i < j < n && calls[..n][j].principal == q ==> calls[..n][j].skill == None;
        assert calls[i].principal == q;
      }
    }
  }

  /** Every principal of the history has its agent, as its first call and its last request ask for. */
  ghost predicate AllHaveAgents(cfg: Config, p: Platform, calls: seq<Call>) {
    forall q :: Seen(calls, q) ==>
      && cfg.agentId(q) in p.agents
      && exists i, skill ::
           0 <= i < |calls| && IsFirstCall(calls, q, i) && IsLastRequest(calls, q, skill)
           && IsAgentOf(cfg, p.agents[cfg.agentId(q)], q, calls[i], skill)
  }

  lemma TrackedHaveAgents(cfg: Config, p: Platform, calls: seq<Call>)
    requires Tracks(cfg, p, calls)
    ensures AllHaveAgents(cfg, p, calls)
  {
    hide BuildSpec, IsFirstCall, IsLastRequest, IsAgentOf;
    forall q | Seen(calls, q)
      ensures cfg.agentId(q) in p.agents
      ensures exists i, skill :: 0 <= i < |calls| && IsFirstCall(calls, q, i) && IsLastRequest(calls, q, skill)
                                 && IsAgentOf(cfg, p.agents[cfg.agentId(q)], q, calls[i], skill)
    {
      assert HasItsAgent(cfg, p.agents, calls, q);
      TrackedAgent(cfg, p.agents, calls, q);
    }
  }

  lemma TrackedAgent(cfg: Config, agents: Agents, calls: seq<Call>, q: string)
    requires Seen(calls, q) && HasItsAgent(cfg, agents, calls, q)
    ensures exists i, skill :: 0 <= i < |calls| && IsFirstCall(calls, q, i) && IsLastRequest(calls, q, skill)
                               && IsAgentOf(cfg, agents[cfg.agentId(q)], q, calls[i], skill)
  {
    var i := FirstIsFirstCall(calls, q);
    LastSkillIsLastRequest(calls, q);
    BuiltIsAgent(cfg, calls[i], LastSkill(calls, q));
    assert calls[i].principal == q;
    hide BuildSpec, IsFirstCall, IsLastRequest, IsAgentOf, First, LastSkill;
    assert IsFirstCall(calls, q, i) && IsLastRequest(calls, q, LastSkill(calls, q));
  }

  /** Over any history, whether `get_agent` shows the mounted sources or not: every principal has one agent,
      created once, that mounts its own prefix and the skill source it last asked for, reaches the
      configured domains, and has the three tools and the instruction of its first call; nobody else has
      an agent. */
  lemma AgentsAreAsAsked(cfg: Config, calls: seq<Call>)
    requires DistinctIds(cfg, calls)
    ensures AllHaveAgents(cfg, EnsuredAll(cfg, SpecToApi, calls), calls)
    ensures AllHaveAgents(cfg, EnsuredAll(cfg, spec => Hidden(SpecToApi(spec)), calls), calls)
    ensures forall id :: id in EnsuredAll(cfg, SpecToApi, calls).agents ==> IsSomeones(cfg, calls, id)
    ensures Once(EnsuredAll(cfg, SpecToApi, calls).created)
    ensures forall id :: id in EnsuredAll(cfg, SpecToApi, calls).created
                         <==> id in EnsuredAll(cfg, SpecToApi, calls).agents
  {
    AgentsFollowTheHistory(cfg, calls);
    hide AllHaveAgents, EnsuredAll;
    TrackedHaveAgents(cfg, EnsuredAll(cfg, SpecToApi, calls), calls);
    TrackedHaveAgents(cfg, EnsuredAll(cfg, spec => Hidden(SpecToApi(spec)), calls), calls);
  }

  /** Repeating a call leaves the agents as they are. */
  lemma RepeatingChangesNothing(cfg: Config, view: View, calls: seq<Call>)
    requires Trustworthy(cfg, view) && Telling(view) && DistinctIds(cfg, calls) && calls != []
    ensures var p := EnsuredAll(cfg, view, calls);
            var after := Ensured(cfg, view, p, calls[|calls| - 1]);
            after.agents == p.agents && after.created == p.created
  {
    hide Ensured, EnsuredAll, Trustworthy, Telling, BuildSpec, LastSkill, First, DistinctIds;
    var c, p := calls[|calls| - 1], EnsuredAll(cfg, view, calls);
    HistoryIsTracked(cfg, view, calls);
    OneMoreCall(calls);
    FirstIsOwn(calls, c.principal);
    assert Seen(calls, c.principal);
    assert HasItsAgent(cfg, p.agents, calls, c.principal);
    RepointsOnly(cfg, view, p, c, First(calls, c.principal).value, LastSkill(calls, c.principal));
    var id := cfg.agentId(c.principal);
    assert p.agents[id := p.agents[id]] == p.agents;
  }

  // ---------------------------------------------------------------------------
  // Which calls patch
  // ---------------------------------------------------------------------------

  /** The first skill source that is shown, if there is one, is not this one. */
  ghost predicate ShowsOther(sources: seq<Json>, skill: string) {
    forall i :: 0 <= i < |sources| && GetText(FieldsOf(sources[i]), "type", "") == "SKILL_REGISTRY"
                && (forall j :: 0 <= j < i ==> GetText(FieldsOf(sources[j]), "type", "") != "SKILL_REGISTRY") ==>
                  GetOptional(FieldsOf(sources[i]), "source") != Some(skill)
  }

  lemma {:induction false} SourcesDifferMeans(sources: seq<Json>, skill: string)
    ensures SourcesDiffer(sources, skill) <==> ShowsOther(sources, skill)
  {
    hide GetText, GetOptional, FieldsOf;
    if sources != [] {
      var rest := sources[1..];
      SourcesDifferMeans(rest, skill);
      assert forall i :: 0 < i < |sources| ==> sources[i] == rest[i - 1];
      if GetText(FieldsOf(sources[0]), "type", "") != "SKILL_REGISTRY" {
        ShowsOtherBehind(sources, skill);
      }
    }
  }

  lemma ShowsOtherBehind(sources: seq<Json>, skill: string)
    requires sources != [] && GetText(FieldsOf(sources[0]), "type", "") != "SKILL_REGISTRY"
    ensures ShowsOther(sources, skill) <==> ShowsOther(sources[1..], skill)
  {
    hide GetText, GetOptional, FieldsOf;
    var rest := sources[1..];
    assert forall i :: 0 < i < |sources| ==> sources[i] == rest[i - 1];
    if ShowsOther(sources, skill) {
      forall i | 0 <= i < |rest| && GetText(FieldsOf(rest[i]), "type", "") == "SKILL_REGISTRY"
                 && (forall j :: 0 <= j < i ==> GetText(FieldsOf(rest[j]), "type", "") != "SKILL_REGISTRY")
        ensures GetOptional(FieldsOf(rest[i]), "source") != Some(skill)
      {
        assert sources[i + 1] == rest[i];
        forall j | 0 <= j < i + 1 ensures GetText(FieldsOf(sources[j]), "type", "") != "SKILL_REGISTRY" {
          assert j > 0 ==> sources[j] == rest[j - 1];
        }
      }
    }
    if ShowsOther(rest, skill) {
      forall i | 0 <= i < |sources| && GetText(FieldsOf(sources[i]), "type", "") == "SKILL_REGISTRY"
                 && (forall j :: 0 <= j < i ==> GetText(FieldsOf(sources[j]), "type", "") != "SKILL_REGISTRY")
        ensures GetOptional(FieldsOf(sources[i]), "source") != Some(skill)
      {
        assert sources[i] == rest[i - 1];
        forall j | 0 <= j < i - 1 ensures GetText(FieldsOf(rest[j]), "type", "") != "SKILL_REGISTRY" {
          assert sources[j + 1] == rest[j];
        }
      }
    }
  }

  /** A call for an agent whose sources are shown patches it exactly when it asks for another skill source; if
      they are not shown, whenever it asks for one. */
  lemma PatchesForAnotherSkill(cfg: Config, p: Platform, c: Call, first: Call, last: Option<string>)
    requires first.principal == c.principal
    requires cfg.agentId(c.principal) in p.agents && p.agents[cfg.agentId(c.principal)] == BuildSpec(cfg, first, last)
    ensures Ensured(cfg, SpecToApi, p, c).patched
            == if c.skill.Some? && c.skill != last then p.patched + [cfg.agentId(c.principal)] else p.patched
    ensures Ensured(cfg, spec => Hidden(SpecToApi(spec)), p, c).patched
            == if c.skill.Some? then p.patched + [cfg.agentId(c.principal)] else p.patched
  {
    WireFormIsTrustworthy(cfg);
    var spec := p.agents[cfg.agentId(c.principal)];
    if c.skill.Some? {
      SourcesOf(cfg, c.principal, last, c.skill.value);
      assert SkillDiffers(SpecToApi(spec), c.skill.value) <==> last != c.skill;
    }
    hide BuildEnvironment, BuildTools, BuildPatch, ApplyPatch, Trustworthy, SourcesDiffer;
  }

  /** The patches of a history: one for each call that asks for another skill source than the one before. */
  function Patches(cfg: Config, calls: seq<Call>): seq<string> {
    if calls == [] then []
    else
      var n := |calls| - 1;
      var c := calls[n];
      Patches(cfg, calls[..n])
      + (if First(calls[..n], c.principal).Some? && c.skill.Some? && c.skill != LastSkill(calls[..n], c.principal)
         then [cfg.agentId(c.principal)] else [])
  }

  /** When `get_agent` shows the sources, exactly these patches are sent. */
  lemma {:induction false} PatchesFollowTheHistory(cfg: Config, calls: seq<Call>)
    requires DistinctIds(cfg, calls)
    ensures EnsuredAll(cfg, SpecToApi, calls).patched == Patches(cfg, calls)
  {
    if calls != [] {
      var n := |calls| - 1;
      var front, c := calls[..n], calls[n];
      assert forall i :: 0 <= i < |front| ==> front[i] == calls[i];
      PatchesFollowTheHistory(cfg, front);
      WireFormIsTrustworthy(cfg);
      HistoryIsTracked(cfg, SpecToApi, front);
      PatchesOneMore(cfg, EnsuredAll(cfg, SpecToApi, front), calls);
    }
  }

  lemma PatchesOneMore(cfg: Config, p: Platform, calls: seq<Call>)
    requires calls != [] && DistinctIds(cfg, calls) && Tracks(cfg, p, calls[..|calls| - 1])
    ensures var c, front := calls[|calls| - 1], calls[..|calls| - 1];
            Ensured(cfg, SpecToApi, p, c).patched
            == p.patched
               + (if First(front, c.principal).Some? && c.skill.Some? && c.skill != LastSkill(front, c.principal)
                  then [cfg.agentId(c.principal)] else [])
  {
    var c, front := calls[|calls| - 1], calls[..|calls| - 1];
    FirstIsOwn(front, c.principal);
    hide BuildSpec, Ensured, First, LastSkill, DistinctIds;
    if cfg.agentId(c.principal) in p.agents {
      IdIsOwn(cfg, p, calls);
      assert HasItsAgent(cfg, p.agents, front, c.principal);
      PatchesForAnotherSkill(cfg, p, c, First(front, c.principal).value, LastSkill(front, c.principal));
    } else {
      CreatesNew(cfg, SpecToApi, p, c);
      assert Seen(front, c.principal) ==> HasItsAgent(cfg, p.agents, front, c.principal);
    }
  }

  // ---------------------------------------------------------------------------
  // The implementation
  // ---------------------------------------------------------------------------

  /** The agent service, as its client sees it. */
  class AgentPlatform {
    const view: View
    var agents: Agents
    var created: seq<string>
    var patched: seq<string>

    constructor (view: View)
      ensures State() == Platform(map[], [], []) && this.view == view
    {
      this.view := view;
      agents, created, patched := map[], [], [];
    }

    function State(): Platform
      reads this
    {
      Platform(agents, created, patched)
    }

    /** An agent that does not exist is reported as missing. */
    method GetAgent(id: string) returns (r: Option<Dict>)
      ensures r == if id in agents then Some(view(agents[id])) else None
    {
      r := if id in agents then Some(view(agents[id])) else None;
    }

    method CreateAgent(spec: AgentSpec)
      modifies this
      ensures State() == Platform(old(agents)[spec.id := spec], old(created) + [spec.id], old(patched))
    {
      agents := agents[spec.id := spec];
      created := created + [spec.id];
    }

    method PatchAgent(id: string, env: Option<BaseEnvironment>, tools: Option<seq<AgentTool>>,
                      instruction: Option<string>)
      requires id in agents
      modifies this
      ensures State()
              == old(State()).(agents := old(agents)[id := ApplyPatch(old(agents)[id],
                                                                      BuildPatch(env, tools, instruction))],
                               patched := old(patched) + [id])
    {
      var body: Dict, mask: seq<string> := map[], [];
      if env.Some? {
        body := body["base_environment" := Object(EnvironmentToApi(env.value))];
        mask := mask + ["base_environment"];
      }
      if tools.Some? {
        var items := seq(|tools.value|, i requires 0 <= i < |tools.value| => Object(ToolToApi(tools.value[i])));
        body := body["tools" := Array(items)];
        mask := mask + ["tools"];
      }
      if instruction.Some? {
        body := body["system_instruction" := Str(instruction.value)];
        mask := mask + ["system_instruction"];
      }
      agents := agents[id := ApplyPatch(agents[id], PatchRequest(body, mask))];
      patched := patched + [id];
    }
  }

  class PerUserAgentProvisioner {
    const platform: AgentPlatform
    const cfg: Config

    constructor (platform: AgentPlatform, cfg: Config)
      ensures this.platform == platform && this.cfg == cfg
    {
      this.platform := platform;
      this.cfg := cfg;
    }

    method EnsureAgent(c: Call) returns (id: string, created: bool)
      modifies platform
      ensures platform.State() == Ensured(cfg, platform.view, old(platform.State()), c)
      ensures id == cfg.agentId(c.principal)
      ensures created <==> id !in old(platform.agents) || platform.view(old(platform.agents)[id]) == map[]
      ensures created ==> id in platform.agents && IsAgentOf(cfg, platform.agents[id], c.principal, c, c.skill)
      ensures !created && c.skill == None ==> platform.State() == old(platform.State())
    {
      BuiltIsAgent(cfg, c, c.skill);
      hide IsAgentOf;
      id := cfg.agentId(c.principal);
      var existing := platform.GetAgent(id);
      created := existing.None? || existing.value == map[];
      if created {
        platform.CreateAgent(BuildSpec(cfg, c, c.skill));
      } else if c.skill.Some? && SkillDiffers(existing.value, c.skill.value) {
        platform.PatchAgent(id, Some(BuildEnvironment(cfg, c.principal, c.skill)), None, None);
      }
    }
  }
}
