/** From manifest to gateway config:
    apps/api/src/reconciler/config-generator.service.ts, without an AI gateway. */
module ConfigGenerator {
  import opened JsonValues

  /** The manifest metadata the generator looks at. */
  datatype Metadata = Metadata(name: string, environment: string, allowOpenGateway: bool, allowSandboxOff: bool)

  /** `spec.openclawConfig`, by top-level section; an absent section is undefined. */
  datatype Sections = Sections(
    sandbox: Json, gateway: Json, logging: Json, agents: Json,
    skills: Json, tools: Json, channels: Json, others: Record)

  predicate Section(v: Json) {
    v.Undefined? || v.Obj?
  }

  function Sandbox(agents: Json): Json {
    Prop(Prop(agents, "defaults"), "sandbox")
  }

  /** What the manifest schema promises: sections it types as objects are objects or
      absent.  It does not know a top-level `sandbox`, which may be anything. */
  predicate Typed(c: Sections) {
    && Section(c.gateway) && Section(c.logging) && Section(c.agents)
    && Section(c.skills) && Section(c.tools) && Section(c.channels)
    && Section(Prop(c.gateway, "auth"))
    && Section(Prop(c.agents, "defaults")) && Section(Sandbox(c.agents))
    && Section(Prop(c.tools, "elevated"))
  }

  // ---- The result, section by section ------------------------------------------------------

  function Coalesce(v: Json, default: Json): Json {
    if Live(v) then v else default
  }

  const DEFAULT_PORT := Num(18789.0)

  function DefaultLogLevel(environment: string): string {
    if environment == "prod" then "warn" else if environment == "staging" then "info" else "debug"
  }

  predicate HasCredential(auth: Json) {
    Truthy(Prop(auth, "token")) || Truthy(Prop(auth, "password"))
  }

  /** The gateway section as deployed: local mode and the default port unless given,
      no `host`, bound to the LAN unless bound otherwise. */
  function BoundGateway(gateway: Json): Record {
    var g := (map["mode" := Str("local"), "port" := Coalesce(Prop(gateway, "port"), DEFAULT_PORT)]
              + Spread(gateway)) - {"host"};
    if Truthy(Get(g, "bind")) then g else g["bind" := Str("lan")]
  }

  function AuthedGateway(g: Record, m: Metadata, token: string): Record {
    if HasCredential(Get(g, "auth")) || m.allowOpenGateway then g
    else g["port" := Coalesce(Get(g, "port"), DEFAULT_PORT)]
          ["auth" := Obj(Spread(Get(g, "auth"))["token" := Str(token)])]
  }

  function LeveledLogging(logging: Json, m: Metadata): Record {
    map["level" := Coalesce(Prop(logging, "level"), Str(DefaultLogLevel(m.environment)))] + Spread(logging)
  }

  function RedactedLogging(l: Record): Record {
    if Truthy(Get(l, "redactSensitive")) then l
    else l["level" := Coalesce(Get(l, "level"), Str("info"))]["redactSensitive" := Str("tools")]
  }

  predicate MustSandbox(sandbox: Json, m: Metadata) {
    && (m.environment == "prod" || m.environment == "staging")
    && (!Truthy(Prop(sandbox, "mode")) || Prop(sandbox, "mode") == Str("off"))
    && !m.allowSandboxOff
  }

  function WorkspaceOf(name: string): Json {
    Str("/var/openclaw/workspaces/" + name)
  }

  /** The passes over `agents.defaults`: the top-level sandbox moves under it, below
      what is there already; a workspace; no internal `unavailableReason`; and a
      sandbox mode where one is mandatory. */
  function Placed(defaults: Record, top: Json): Record {
    if Truthy(top) && TypeofObject(top)
    then defaults["sandbox" := Obj(Spread(top) + Spread(Get(defaults, "sandbox")))]
    else defaults
  }

  function Housed(defaults: Record, name: string): Record {
    if Truthy(Get(defaults, "workspace")) then defaults else defaults["workspace" := WorkspaceOf(name)]
  }

  function Known(defaults: Record): Record {
    var sandbox := Get(defaults, "sandbox");
    if sandbox.Obj? then defaults["sandbox" := Obj(sandbox.fields - {"unavailableReason"})] else defaults
  }

  function Boxed(defaults: Record, m: Metadata): Record {
    var sandbox := Get(defaults, "sandbox");
    if MustSandbox(sandbox, m) then defaults["sandbox" := Obj(Spread(sandbox)["mode" := Str("all")])] else defaults
  }

  function DefaultsOf(agents: Json): Record {
    Spread(Prop(agents, "defaults"))
  }

  function WithDefaults(agents: Json, defaults: Record): Json {
    Obj(Spread(agents)["defaults" := Obj(defaults)])
  }

  function KnownSkills(skills: Json): Json {
    if skills.Obj? then Obj(skills.fields - {"allowUnverified"}) else skills
  }

  predicate NoneAllowed(allowFrom: Json) {
    !Truthy(allowFrom) || (allowFrom.Arr? && allowFrom.items == [])
    || (allowFrom.Obj? && Get(allowFrom.fields, "length") == Num(0.0))
  }

  function GuardedTools(tools: Json): Json {
    var elevated := Prop(tools, "elevated");
    if Truthy(Prop(elevated, "enabled")) && NoneAllowed(Prop(elevated, "allowFrom"))
    then Obj(Spread(tools)["elevated" := Obj(Spread(elevated)["enabled" := Bool(false)])])
    else tools
  }

  function StripEntry(channel: Json): Json {
    if channel.Obj? then Obj(channel.fields - {"enabled"}) else channel
  }

  function StripEntries(channels: Record): Record {
    map key | key in channels :: StripEntry(channels[key])
  }

  function StripChannels(channels: Json): Json {
    if channels.Obj? then Obj(StripEntries(channels.fields)) else channels
  }

  /** The generated config.  `token` is the random token, used only if one is needed. */
  function Configured(base: Sections, m: Metadata, token: string): Sections {
    Sections(
      Undefined,
      Obj(AuthedGateway(BoundGateway(base.gateway), m, token)),
      Obj(RedactedLogging(LeveledLogging(base.logging, m))),
      WithDefaults(base.agents, Boxed(Known(Housed(Placed(DefaultsOf(base.agents), base.sandbox), m.name)), m)),
      KnownSkills(base.skills),
      GuardedTools(base.tools),
      StripChannels(base.channels),
      base.others)
  }

  // ---- generateOpenClawConfig as the source runs it --------------------------------------------

  /** The object at `channels`, which the generated config shares with the manifest. */
  class ChannelTable {
    var entries: Record
  }

  /** A config as an object: its own members, and a reference to the channel table. */
  datatype Config = Config(doc: Sections, table: ChannelTable?) {
    ghost function View(): Sections
      reads table
    {
      if table == null then doc else doc.(channels := Obj(table.entries))
    }
  }

  method StripEnabled(table: ChannelTable)
    modifies table
    ensures table.entries == StripEntries(old(table.entries))
  {
    var left := table.entries.Keys;
    while left != {}
      invariant left <= old(table.entries).Keys == table.entries.Keys
      invariant forall key | key in table.entries ::
                  table.entries[key] == if key in left then old(table.entries)[key]
                                        else StripEntry(old(table.entries)[key])
      decreases |left|
    {
      var key :| key in left;
      var value := table.entries[key];
      if value.Obj? && "enabled" in value.fields {
        table.entries := table.entries[key := Obj(value.fields - {"enabled"})];
      } else if value.Obj? {
        assert value.fields - {"enabled"} == value.fields;
      }
      left := left - {key};
    }
  }

  method PrepareGateway(gateway: Json) returns (r: Record)
    ensures r == BoundGateway(gateway)
  {
    r := map["mode" := Str("local"), "port" := Coalesce(Prop(gateway, "port"), DEFAULT_PORT)] + Spread(gateway);
    if "host" in r {
      r := r - {"host"};
    } else {
      assert r - {"host"} == r;
    }
    if !Truthy(Get(r, "bind")) {
      r := r["bind" := Str("lan")];
    }
  }

  predicate TypedAgents(agents: Json) {
    Section(agents) && Section(Prop(agents, "defaults")) && Section(Sandbox(agents))
  }

  /** `after` is `agents` with other defaults. */
  predicate Redefaulted(agents: Json, after: Json, defaults: Record) {
    && TypedAgents(after) && DefaultsOf(after) == defaults
    && Spread(after) - {"defaults"} == Spread(agents) - {"defaults"}
  }

  lemma AsWithDefaults(agents: Json, after: Json, defaults: Record)
    requires Redefaulted(agents, after, defaults) && defaults != map[]
    ensures after == WithDefaults(agents, defaults)
  {
    assert after.Obj? && Prop(after, "defaults") == Obj(defaults);
    var full := Spread(agents)["defaults" := Obj(defaults)];
    assert after.fields.Keys == (Spread(agents) - {"defaults"}).Keys + {"defaults"} == full.Keys;
    forall key | key in full ensures after.fields[key] == full[key] {
      if key != "defaults" {
        assert key in Spread(agents) - {"defaults"};
        assert after.fields[key] == (Spread(after) - {"defaults"})[key];
      }
    }
  }

  method MoveSandbox(agents: Json, top: Json) returns (r: Json)
    requires TypedAgents(agents)
    ensures Redefaulted(agents, r, Placed(DefaultsOf(agents), top))
  {
    r := agents;
    if Truthy(top) && TypeofObject(top) {
      r := WithDefaults(r, DefaultsOf(r)["sandbox" := Obj(Spread(top) + Spread(Sandbox(r)))]);
    }
  }

  method EnsureWorkspace(agents: Json, name: string) returns (r: Json)
    requires TypedAgents(agents)
    ensures Redefaulted(agents, r, Housed(DefaultsOf(agents), name))
  {
    r := agents;
    if !Truthy(Prop(Prop(r, "defaults"), "workspace")) {
      r := WithDefaults(r, DefaultsOf(r)["workspace" := WorkspaceOf(name)]);
    }
  }

  method StripReason(agents: Json) returns (r: Json)
    requires TypedAgents(agents)
    ensures Redefaulted(agents, r, Known(DefaultsOf(agents)))
  {
    r := agents;
    var sandbox := Sandbox(r);
    if Truthy(sandbox) && "unavailableReason" in Spread(sandbox) {
      r := WithDefaults(r, DefaultsOf(r)["sandbox" := Obj(Spread(sandbox) - {"unavailableReason"})]);
    } else if sandbox.Obj? {
      assert sandbox.fields - {"unavailableReason"} == sandbox.fields;
      assert DefaultsOf(r)["sandbox" := sandbox] == DefaultsOf(r);
    }
  }

  method PrepareAgents(agents: Json, top: Json, name: string) returns (r: Json)
    requires TypedAgents(agents)
    ensures Redefaulted(agents, r, Known(Housed(Placed(DefaultsOf(agents), top), name)))
  {
    r := MoveSandbox(agents, top);
    r := EnsureWorkspace(r, name);
    r := StripReason(r);
  }

  method PrepareSkills(skills: Json) returns (r: Json)
    requires Section(skills)
    ensures r == KnownSkills(skills)
  {
    r := skills;
    if Truthy(r) && "allowUnverified" in Spread(r) {
      r := Obj(Spread(r) - {"allowUnverified"});
    } else if r.Obj? {
      assert r.fields - {"allowUnverified"} == r.fields;
    }
  }

  method ForceSandbox(agents: Json, m: Metadata) returns (r: Json)
    requires TypedAgents(agents)
    ensures Redefaulted(agents, r, Boxed(DefaultsOf(agents), m))
  {
    r := agents;
    var sandbox := Sandbox(r);
    var mode := Prop(sandbox, "mode");
    if (m.environment == "prod" || m.environment == "staging") && (!Truthy(mode) || mode == Str("off"))
       && !m.allowSandboxOff {
      r := WithDefaults(r, DefaultsOf(r)["sandbox" := Obj(Spread(sandbox)["mode" := Str("all")])]);
    }
  }

  lemma NeverEmpty(defaults: Record, name: string, m: Metadata)
    ensures Boxed(Known(Housed(defaults, name)), m) != map[]
  {
    var housed := Housed(defaults, name);
    assert "workspace" in housed;
    assert "workspace" in Known(housed);
    assert "workspace" in Boxed(Known(housed), m);
  }

  method EnforceSecureDefaults(config: Sections, m: Metadata, token: string) returns (secured: Sections)
    requires TypedAgents(config.agents) && config.gateway.Obj? && config.logging.Obj?
    requires Section(config.tools) && Section(Prop(config.tools, "elevated"))
    ensures secured == config.(gateway := Obj(AuthedGateway(config.gateway.fields, m, token)),
                               agents := secured.agents,
                               tools := GuardedTools(config.tools),
                               logging := Obj(RedactedLogging(config.logging.fields)))
    ensures Redefaulted(config.agents, secured.agents, Boxed(DefaultsOf(config.agents), m))
  {
    secured := config;
    var gateway := secured.gateway;
    var auth := Prop(gateway, "auth");
    if !Truthy(Prop(auth, "token")) && !Truthy(Prop(auth, "password")) {
      if !m.allowOpenGateway {
        secured := secured.(gateway := Obj(Spread(gateway)["port" := Coalesce(Prop(gateway, "port"), DEFAULT_PORT)]
                                           ["auth" := Obj(Spread(auth)["token" := Str(token)])]));
      }
    }
    var agents := ForceSandbox(secured.agents, m);
    secured := secured.(agents := agents);
    var elevated := Prop(secured.tools, "elevated");
    if Truthy(Prop(elevated, "enabled")) && NoneAllowed(Prop(elevated, "allowFrom")) {
      secured := secured.(tools := Obj(Spread(secured.tools)
                                       ["elevated" := Obj(Spread(elevated)["enabled" := Bool(false)])]));
    }
    if !Truthy(Prop(secured.logging, "redactSensitive")) {
      secured := secured.(logging := Obj(Spread(secured.logging)
                                         ["level" := Coalesce(Prop(secured.logging, "level"), Str("info"))]
                                         ["redactSensitive" := Str("tools")]));
    }
  }

  /** Rewrites `config` pass by pass; the channel table is stripped in place, so the
      manifest that `spec` stands for changes with it. */
  method GenerateOpenClawConfig(spec: Config, m: Metadata, token: string) returns (config: Config)
    requires spec.doc.channels.Undefined? && Typed(spec.View())
    modifies spec.table
    ensures config.View() == Configured(old(spec.View()), m, token)
    ensures spec.View() == old(spec.View()).(channels := StripChannels(old(spec.View()).channels))
    ensures config.table == spec.table
  {
    ghost var base := spec.View();
    var gateway := PrepareGateway(spec.doc.gateway);
    var doc := spec.doc.(sandbox := Undefined, gateway := Obj(gateway),
                         logging := Obj(LeveledLogging(spec.doc.logging, m)));
    var agents := PrepareAgents(doc.agents, spec.doc.sandbox, m.name);
    var skills := PrepareSkills(doc.skills);
    doc := doc.(agents := agents, skills := skills);
    if spec.table != null {
      StripEnabled(spec.table);
    }
    doc := EnforceSecureDefaults(doc, m, token);
    NeverEmpty(Placed(DefaultsOf(base.agents), base.sandbox), m.name, m);
    AsWithDefaults(base.agents, doc.agents, DefaultsOf(doc.agents));
    config := Config(doc, spec.table);
  }
}
