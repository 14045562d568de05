/** What every generated gateway config guarantees, and why hashing it is stable. */
module ConfigGuarantees {
  import opened JsonValues
  import opened ConfigGenerator

  function Defaults(base: Sections, m: Metadata): Record {
    Boxed(Known(Housed(Placed(DefaultsOf(base.agents), base.sandbox), m.name)), m)
  }

  // ---- Sections as they come out ------------------------------------------------------------

  predicate GatewayDone(g: Record) {
    "mode" in g && "port" in g && "host" !in g && Truthy(Get(g, "bind"))
  }

  lemma GatewayComes(gateway: Json, m: Metadata, token: string)
    requires token != ""
    ensures var g := AuthedGateway(BoundGateway(gateway), m, token);
            && GatewayDone(g)
            && (HasCredential(Get(g, "auth")) || m.allowOpenGateway)
  {
    var b := BoundGateway(gateway);
    assert GatewayDone(b);
    var auth := Spread(Get(b, "auth"))["token" := Str(token)];
    assert Prop(Obj(auth), "token") == Str(token);
    assert HasCredential(Obj(auth));
  }

  lemma GatewayStays(g: Record, m: Metadata, token: string)
    requires GatewayDone(g) && (HasCredential(Get(g, "auth")) || m.allowOpenGateway)
    ensures AuthedGateway(BoundGateway(Obj(g)), m, token) == g
  {
    var first := map["mode" := Str("local"), "port" := Coalesce(Prop(Obj(g), "port"), DEFAULT_PORT)] + g;
    assert first == g;
    assert first - {"host"} == g;
  }

  lemma LoggingSettles(logging: Json, m: Metadata)
    ensures var l := RedactedLogging(LeveledLogging(logging, m));
            && Truthy(Get(l, "redactSensitive"))
            && RedactedLogging(LeveledLogging(Obj(l), m)) == l
  {
    var l := RedactedLogging(LeveledLogging(logging, m));
    assert "level" in l && Truthy(Get(l, "redactSensitive"));
    assert LeveledLogging(Obj(l), m) == l;
  }

  predicate DefaultsDone(d: Record, m: Metadata) {
    && Truthy(Get(d, "workspace"))
    && (Get(d, "sandbox").Obj? ==> "unavailableReason" !in Get(d, "sandbox").fields)
    && !MustSandbox(Get(d, "sandbox"), m)
  }

  lemma DefaultsCome(defaults: Record, name: string, m: Metadata)
    requires Section(Get(defaults, "sandbox"))
    ensures DefaultsDone(Boxed(Known(Housed(defaults, name)), m), m)
    ensures Section(Get(Boxed(Known(Housed(defaults, name)), m), "sandbox"))
  {
    var housed := Housed(defaults, name);
    assert Truthy(WorkspaceOf(name));
    assert Truthy(Get(housed, "workspace")) && Get(housed, "sandbox") == Get(defaults, "sandbox");
    var known := Known(housed);
    assert Truthy(Get(known, "workspace"));
    var sandbox := Get(known, "sandbox");
    assert sandbox.Obj? ==> "unavailableReason" !in sandbox.fields;
    if MustSandbox(sandbox, m) {
      var boxed := Spread(sandbox)["mode" := Str("all")];
      assert Prop(Obj(boxed), "mode") == Str("all");
      assert "unavailableReason" !in boxed;
      assert !MustSandbox(Obj(boxed), m);
    }
  }

  lemma DefaultsStay(d: Record, name: string, m: Metadata)
    requires DefaultsDone(d, m)
    ensures Boxed(Known(Housed(Placed(d, Undefined), name)), m) == d
  {
    var sandbox := Get(d, "sandbox");
    if sandbox.Obj? {
      assert sandbox.fields - {"unavailableReason"} == sandbox.fields;
      assert d["sandbox" := sandbox] == d;
    }
  }

  lemma PlacedSandbox(defaults: Record, top: Json)
    requires Section(Get(defaults, "sandbox"))
    ensures Section(Get(Placed(defaults, top), "sandbox"))
  {
  }

  lemma {:induction false} AgentsSettle(base: Sections, m: Metadata)
    requires Typed(base)
    ensures DefaultsDone(Defaults(base, m), m) && Section(Get(Defaults(base, m), "sandbox"))
    ensures var agents := WithDefaults(base.agents, Defaults(base, m));
            && DefaultsOf(agents) == Defaults(base, m)
            && WithDefaults(agents, DefaultsOf(agents)) == agents
  {
    PlacedSandbox(DefaultsOf(base.agents), base.sandbox);
    DefaultsCome(Placed(DefaultsOf(base.agents), base.sandbox), m.name, m);
  }

  lemma ToolsSettle(tools: Json)
    requires Section(tools) && Section(Prop(tools, "elevated"))
    ensures GuardedTools(GuardedTools(tools)) == GuardedTools(tools)
    ensures Section(GuardedTools(tools)) && Section(Prop(GuardedTools(tools), "elevated"))
    ensures var elevated := Prop(GuardedTools(tools), "elevated");
            Truthy(Prop(elevated, "enabled")) ==> !NoneAllowed(Prop(elevated, "allowFrom"))
  {
    var elevated := Prop(tools, "elevated");
    if Truthy(Prop(elevated, "enabled")) && NoneAllowed(Prop(elevated, "allowFrom")) {
      var off := Spread(elevated)["enabled" := Bool(false)];
      assert Prop(GuardedTools(tools), "elevated") == Obj(off);
      assert Prop(Obj(off), "enabled") == Bool(false);
    }
  }

  lemma ChannelsSettle(channels: Json)
    ensures StripChannels(StripChannels(channels)) == StripChannels(channels)
  {
    if channels.Obj? {
      var once := StripEntries(channels.fields);
      forall key | key in once ensures StripEntry(once[key]) == once[key] {
        if once[key].Obj? { assert once[key].fields - {"enabled"} == once[key].fields; }
      }
      assert StripEntries(once) == once;
    }
  }

  lemma SkillsSettle(skills: Json)
    ensures KnownSkills(KnownSkills(skills)) == KnownSkills(skills)
  {
    if skills.Obj? {
      var once := skills.fields - {"allowUnverified"};
      assert once - {"allowUnverified"} == once;
    }
  }

  // ---- Idempotence and stability --------------------------------------------------------------------

  lemma AgentsIdempotent(base: Sections, m: Metadata)
    requires Typed(base)
    ensures var agents := WithDefaults(base.agents, Defaults(base, m));
            && TypedAgents(agents)
            && WithDefaults(agents, Boxed(Known(Housed(Placed(DefaultsOf(agents), Undefined), m.name)), m)) == agents
  {
    AgentsSettle(base, m);
    DefaultsStay(Defaults(base, m), m.name, m);
  }

  lemma GatewayIdempotent(gateway: Json, m: Metadata, token: string, later: string)
    requires token != ""
    ensures var g := AuthedGateway(BoundGateway(gateway), m, token);
            AuthedGateway(BoundGateway(Obj(g)), m, later) == g
  {
    GatewayComes(gateway, m, token);
    GatewayStays(AuthedGateway(BoundGateway(gateway), m, token), m, later);
  }

  /** A generated config is again a config the schema accepts. */
  lemma {:induction false} TypedResult(base: Sections, m: Metadata, token: string)
    requires Typed(base)
    ensures Typed(Configured(base, m, token))
  {
    AgentsIdempotent(base, m);
    ToolsSettle(base.tools);
    AuthSection(base.gateway, m, token);
  }

  /** Generating from a generated config gives it back, whatever random token the
      second run draws. */
  lemma Idempotent(base: Sections, m: Metadata, token: string, later: string)
    requires Typed(base) && token != ""
    ensures Configured(Configured(base, m, token), m, later) == Configured(base, m, token)
  {
    GatewayIdempotent(base.gateway, m, token, later);
    LoggingSettles(base.logging, m);
    AgentsIdempotent(base, m);
    ToolsSettle(base.tools);
    ChannelsSettle(base.channels);
    SkillsSettle(base.skills);
  }

  lemma AuthSection(gateway: Json, m: Metadata, token: string)
    requires Section(gateway) && Section(Prop(gateway, "auth"))
    ensures Section(Get(AuthedGateway(BoundGateway(gateway), m, token), "auth"))
  {
    assert Get(BoundGateway(gateway), "auth") == Prop(gateway, "auth");
  }

  /** Generating strips the manifest's own channel table; a second run on that
      manifest generates the same config. */
  lemma SecondRunAgrees(base: Sections, m: Metadata, token: string)
    ensures var trodden := base.(channels := StripChannels(base.channels));
            Configured(trodden, m, token) == Configured(base, m, token)
  {
    ChannelsSettle(base.channels);
  }

  /** The config depends on the random token exactly when the manifest has no gateway
      credential and does not allow an open gateway. */
  lemma TokenMatters(base: Sections, m: Metadata, t1: string, t2: string)
    requires Typed(base) && t1 != t2
    ensures Configured(base, m, t1) == Configured(base, m, t2)
       <==> HasCredential(Prop(base.gateway, "auth")) || m.allowOpenGateway
  {
    var b := BoundGateway(base.gateway);
    assert Get(b, "auth") == Prop(base.gateway, "auth");
    if !HasCredential(Prop(base.gateway, "auth")) && !m.allowOpenGateway {
      var a1 := Spread(Get(b, "auth"))["token" := Str(t1)];
      var a2 := Spread(Get(b, "auth"))["token" := Str(t2)];
      assert Get(a1, "token") != Get(a2, "token");
      assert Get(AuthedGateway(b, m, t1), "auth") == Obj(a1);
      assert Get(AuthedGateway(b, m, t2), "auth") == Obj(a2);
    }
  }

  // ---- Guarantees ----------------------------------------------------------------------------------------

  lemma SandboxOut(base: Sections, m: Metadata, token: string)
    requires Typed(base)
    ensures Sandbox(Configured(base, m, token).agents) == Get(Defaults(base, m), "sandbox")
    ensures Section(Get(Defaults(base, m), "sandbox"))
    ensures "unavailableReason" !in Spread(Get(Defaults(base, m), "sandbox"))
  {
    AgentsSettle(base, m);
  }

  lemma GatewayOut(base: Sections, m: Metadata, token: string)
    requires token != ""
    ensures var gateway := Configured(base, m, token).gateway;
            && gateway.Obj? && GatewayDone(gateway.fields)
            && (HasCredential(Prop(gateway, "auth")) || m.allowOpenGateway)
  {
    GatewayComes(base.gateway, m, token);
  }

  /** Every generated config has gateway credentials or an override for them; in prod
      and staging a sandbox that is on, or an override; no elevated tools that anyone
      may use; and redaction of sensitive log data. */
  lemma {:induction false} SecureResult(base: Sections, m: Metadata, token: string)
    requires Typed(base) && token != ""
    ensures var out := Configured(base, m, token);
            var mode := Prop(Sandbox(out.agents), "mode");
            var elevated := Prop(out.tools, "elevated");
            && (HasCredential(Prop(out.gateway, "auth")) || m.allowOpenGateway)
            && (m.environment in {"prod", "staging"} && !m.allowSandboxOff ==> Truthy(mode) && mode != Str("off"))
            && (Truthy(Prop(elevated, "enabled")) ==> !NoneAllowed(Prop(elevated, "allowFrom")))
            && Truthy(Prop(out.logging, "redactSensitive"))
  {
    GatewayOut(base, m, token);
    LoggingSettles(base.logging, m);
    AgentsSettle(base, m);
    ToolsSettle(base.tools);
    SandboxOut(base, m, token);
  }

  lemma ChannelsStrict(channels: Json)
    ensures var out := StripChannels(channels);
            out.Obj? ==> forall key | key in out.fields :: out.fields[key].Obj? ==> "enabled" !in out.fields[key].fields
  {
  }

  /** No key is left that the strict schema of the gateway refuses, and the keys it
      cannot start without are there. */
  lemma {:induction false} StrictResult(base: Sections, m: Metadata, token: string)
    requires Typed(base) && token != ""
    ensures var out := Configured(base, m, token);
            && out.sandbox == Undefined && GatewayDone(Spread(out.gateway))
            && "unavailableReason" !in Spread(Sandbox(out.agents))
            && "allowUnverified" !in Spread(out.skills)
            && (out.channels.Obj? ==> forall key | key in out.channels.fields ::
                  out.channels.fields[key].Obj? ==> "enabled" !in out.channels.fields[key].fields)
  {
    ChannelsStrict(base.channels);
    GatewayOut(base, m, token);
    SandboxOut(base, m, token);
  }

  /** All settings of a section but these come out as they went in, absent ones included. */
  ghost predicate SameBut(before: Json, after: Json, but: set<string>) {
    forall key | key !in but :: Prop(after, key) == Prop(before, key)
  }

  /** A setting that has a default comes out as it went in if it is given: not null or
      undefined, or not falsy, as the code asks. */
  predicate LiveKept(before: Json, after: Json, key: string) {
    Live(Prop(before, key)) ==> Prop(after, key) == Prop(before, key)
  }

  predicate TruthyKept(before: Json, after: Json, key: string) {
    Truthy(Prop(before, key)) ==> Prop(after, key) == Prop(before, key)
  }

  ghost predicate GatewaySame(before: Json, after: Json) {
    && SameBut(before, after, {"mode", "port", "host", "bind", "auth"})
    && ("mode" in Spread(before) ==> Prop(after, "mode") == Prop(before, "mode"))
    && LiveKept(before, after, "port") && TruthyKept(before, after, "bind")
    && SameBut(Prop(before, "auth"), Prop(after, "auth"), {"token"})
    && TruthyKept(Prop(before, "auth"), Prop(after, "auth"), "token")
    && (HasCredential(Prop(before, "auth")) ==> Prop(after, "auth") == Prop(before, "auth"))
  }

  lemma BoundSame(gateway: Json)
    ensures var b := Obj(BoundGateway(gateway));
            && SameBut(gateway, b, {"mode", "port", "host", "bind"})
            && ("mode" in Spread(gateway) ==> Prop(b, "mode") == Prop(gateway, "mode"))
            && LiveKept(gateway, b, "port") && TruthyKept(gateway, b, "bind")
  {
  }

  lemma AuthedSame(g: Record, m: Metadata, token: string)
    ensures var after := Obj(AuthedGateway(g, m, token));
            && SameBut(Obj(g), after, {"port", "auth"}) && LiveKept(Obj(g), after, "port")
            && SameBut(Get(g, "auth"), Prop(after, "auth"), {"token"})
            && TruthyKept(Get(g, "auth"), Prop(after, "auth"), "token")
            && (HasCredential(Get(g, "auth")) ==> Prop(after, "auth") == Get(g, "auth"))
  {
    var auth := Spread(Get(g, "auth"))["token" := Str(token)];
    assert AuthedGateway(g, m, token) != g ==> Get(AuthedGateway(g, m, token), "auth") == Obj(auth);
  }

  lemma GatewayKept(gateway: Json, m: Metadata, token: string)
    ensures GatewaySame(gateway, Obj(AuthedGateway(BoundGateway(gateway), m, token)))
  {
    var b := BoundGateway(gateway);
    BoundSame(gateway);
    AuthedSame(b, m, token);
    assert Prop(Obj(b), "auth") == Prop(gateway, "auth");
    assert Prop(Obj(AuthedGateway(b, m, token)), "mode") == Prop(Obj(b), "mode");
    assert Prop(Obj(AuthedGateway(b, m, token)), "bind") == Prop(Obj(b), "bind");
  }

  ghost predicate LoggingSame(before: Json, after: Json) {
    && SameBut(before, after, {"level", "redactSensitive"})
    && LiveKept(before, after, "level") && TruthyKept(before, after, "redactSensitive")
  }

  lemma LoggingKept(logging: Json, m: Metadata)
    ensures LoggingSame(logging, Obj(RedactedLogging(LeveledLogging(logging, m))))
  {
    var l := Obj(LeveledLogging(logging, m));
    assert SameBut(logging, l, {"level"}) && LiveKept(logging, l, "level");
  }

  ghost predicate AgentsSame(before: Json, after: Json) {
    && SameBut(before, after, {"defaults"})
    && SameBut(Prop(before, "defaults"), Prop(after, "defaults"), {"sandbox", "workspace"})
    && TruthyKept(Prop(before, "defaults"), Prop(after, "defaults"), "workspace")
  }

  lemma DefaultsKept(base: Sections, m: Metadata)
    ensures SameBut(Prop(base.agents, "defaults"), Obj(Defaults(base, m)), {"sandbox", "workspace"})
    ensures TruthyKept(Prop(base.agents, "defaults"), Obj(Defaults(base, m)), "workspace")
  {
    var before := Prop(base.agents, "defaults");
    var placed := Placed(DefaultsOf(base.agents), base.sandbox);
    var housed := Housed(placed, m.name);
    assert SameBut(before, Obj(placed), {"sandbox"});
    assert SameBut(before, Obj(housed), {"sandbox", "workspace"}) && TruthyKept(before, Obj(housed), "workspace");
    assert SameBut(Obj(housed), Obj(Known(housed)), {"sandbox"});
    assert SameBut(Obj(Known(housed)), Obj(Boxed(Known(housed), m)), {"sandbox"});
  }

  lemma AgentsKept(base: Sections, m: Metadata)
    ensures AgentsSame(base.agents, WithDefaults(base.agents, Defaults(base, m)))
  {
    DefaultsKept(base, m);
    assert Prop(WithDefaults(base.agents, Defaults(base, m)), "defaults") == Obj(Defaults(base, m));
  }

  ghost predicate ToolsSame(before: Json, after: Json) {
    && SameBut(before, after, {"elevated"})
    && SameBut(Prop(before, "elevated"), Prop(after, "elevated"), {"enabled"})
    && (after != before ==> Truthy(Prop(Prop(before, "elevated"), "enabled"))
                            && NoneAllowed(Prop(Prop(before, "elevated"), "allowFrom")))
  }

  lemma ToolsKept(tools: Json)
    ensures ToolsSame(tools, GuardedTools(tools))
  {
    var elevated := Prop(tools, "elevated");
    if GuardedTools(tools) != tools {
      assert Prop(GuardedTools(tools), "elevated") == Obj(Spread(elevated)["enabled" := Bool(false)]);
    }
  }

  /** The same channels, and each as it was but for `enabled`. */
  ghost predicate ChannelsSame(before: Json, after: Json) {
    && (!before.Obj? ==> after == before)
    && (before.Obj? ==>
          && after.Obj? && after.fields.Keys == before.fields.Keys
          && forall name | name in before.fields ::
               var channel, stripped := before.fields[name], after.fields[name];
               if channel.Obj? then stripped.Obj? && SameBut(channel, stripped, {"enabled"}) else stripped == channel)
  }

  lemma ChannelsKept(channels: Json)
    ensures ChannelsSame(channels, StripChannels(channels))
  {
    if channels.Obj? {
      forall name | name in channels.fields && channels.fields[name].Obj?
        ensures SameBut(channels.fields[name], StripEntry(channels.fields[name]), {"enabled"})
      {
      }
    }
  }

  lemma SkillsKept(skills: Json)
    ensures SameBut(skills, KnownSkills(skills), {"allowUnverified"})
  {
  }

  /** No setting of the manifest is lost or changed, whatever section it is in and
      whatever its value, but for the keys the gateway's schema refuses (`host`,
      `unavailableReason`, `allowUnverified`, a channel's `enabled`), those that have a
      default and were not given, the sandbox (see `SandboxMerged`), and elevated tools
      that anyone might have used. */
  lemma SettingsSurvive(base: Sections, m: Metadata, token: string)
    requires Typed(base)
    ensures var out := Configured(base, m, token);
            && GatewaySame(base.gateway, out.gateway)
            && LoggingSame(base.logging, out.logging)
            && AgentsSame(base.agents, out.agents)
            && SameBut(base.skills, out.skills, {"allowUnverified"})
            && ToolsSame(base.tools, out.tools)
            && ChannelsSame(base.channels, out.channels)
            && out.others == base.others
  {
    GatewayKept(base.gateway, m, token);
    LoggingKept(base.logging, m);
    AgentsKept(base, m);
    ToolsKept(base.tools);
    ChannelsKept(base.channels);
    SkillsKept(base.skills);
  }

  /** A sandbox given at the top level ends up under `agents.defaults`, behind any
      setting made there. */
  lemma {:induction false} SandboxMerged(base: Sections, m: Metadata, key: string)
    requires Typed(base) && key !in {"unavailableReason", "mode"}
    ensures Prop(Get(Defaults(base, m), "sandbox"), key)
         == if key in Spread(Sandbox(base.agents)) then Prop(Sandbox(base.agents), key)
            else if Truthy(base.sandbox) && TypeofObject(base.sandbox) then Prop(base.sandbox, key)
            else Undefined
  {
    var placed := Placed(DefaultsOf(base.agents), base.sandbox);
    PlacedSandbox(DefaultsOf(base.agents), base.sandbox);
    var housed := Housed(placed, m.name);
    assert Get(housed, "sandbox") == Get(placed, "sandbox");
    assert Prop(Get(Known(housed), "sandbox"), key) == Prop(Get(housed, "sandbox"), key);
    assert Prop(Get(Boxed(Known(housed), m), "sandbox"), key) == Prop(Get(Known(housed), "sandbox"), key);
  }
}
