/** The values that the generator gives to the settings it decides about, in terms of the
    manifest's own members (apps/api/src/reconciler/config-generator.service.ts). */
module ConfigValues {
  import opened JsonValues
  import opened ConfigGenerator
  import opened ConfigGuarantees

  /** A member of an object; anything else has none. */
  function Member(v: Json, key: string): Json {
    if v.Obj? && key in v.fields then v.fields[key] else Undefined
  }

  /** The values that JavaScript takes for false. */
  predicate Falsy(v: Json) {
    v == Undefined || v == Null || v == Bool(false) || v == Num(0.0) || v == Str("")
  }

  predicate Missing(v: Json) {
    v == Undefined || v == Null
  }

  lemma {:induction false} DecimalEnds(n: nat)
    ensures Decimal(n) != "" && '0' <= Decimal(n)[|Decimal(n)| - 1] <= '9'
  {
  }

  /** No element of an array stands under a word. */
  lemma {:induction false} NoWordIndex(items: seq<Json>, key: string)
    requires key != "" && !('0' <= key[|key| - 1] <= '9')
    ensures key !in Indexed(items)
  {
    if items != [] {
      NoWordIndex(items[..|items| - 1], key);
      DecimalEnds(|items| - 1);
    }
  }

  lemma ModeOf(v: Json)
    requires v.Obj? || v.Arr? || v.Null? || v.Undefined?
    ensures Prop(v, "mode") == Member(v, "mode")
  {
    if v.Arr? { NoWordIndex(v.items, "mode"); }
  }

  // ---- The sandbox ------------------------------------------------------------------------

  /** The sandbox mode of a manifest: the one under its agent defaults, else that of a
      sandbox at the top level. */
  function GivenMode(base: Sections): Json {
    var own := Member(Member(base.agents, "defaults"), "sandbox");
    if own.Obj? && "mode" in own.fields then own.fields["mode"] else Member(base.sandbox, "mode")
  }

  lemma PlacedMode(base: Sections)
    requires Typed(base)
    ensures Prop(Get(Placed(DefaultsOf(base.agents), base.sandbox), "sandbox"), "mode") == GivenMode(base)
  {
    var own := Member(Member(base.agents, "defaults"), "sandbox");
    assert own == Sandbox(base.agents);
    if base.sandbox.Arr? || base.sandbox.Obj? {
      ModeOf(base.sandbox);
      var merged := Spread(base.sandbox) + Spread(own);
      assert Get(Placed(DefaultsOf(base.agents), base.sandbox), "sandbox") == Obj(merged);
    }
  }

  lemma HousedMode(placed: Record, name: string)
    ensures Prop(Get(Known(Housed(placed, name)), "sandbox"), "mode") == Prop(Get(placed, "sandbox"), "mode")
  {
    var housed := Housed(placed, name);
    assert Get(housed, "sandbox") == Get(placed, "sandbox");
    assert Prop(Get(Known(housed), "sandbox"), "mode") == Prop(Get(housed, "sandbox"), "mode");
  }

  lemma BoxedMode(defaults: Record, m: Metadata)
    ensures var given := Prop(Get(defaults, "sandbox"), "mode");
            Prop(Get(Boxed(defaults, m), "sandbox"), "mode")
            == if (m.environment == "prod" || m.environment == "staging") && !m.allowSandboxOff
                  && (Falsy(given) || given == Str("off"))
               then Str("all") else given
  {
    var boxed := Spread(Get(defaults, "sandbox"))["mode" := Str("all")];
    assert Prop(Obj(boxed), "mode") == Str("all");
  }

  /** The sandbox mode that comes out is "all" in prod and staging if there is no override
      and none or "off" was given; in every other case it is the one given. */
  lemma {:induction false} SandboxMode(base: Sections, m: Metadata, token: string)
    requires Typed(base)
    ensures var out, given := Configured(base, m, token), GivenMode(base);
            Member(Member(Member(out.agents, "defaults"), "sandbox"), "mode")
            == if (m.environment == "prod" || m.environment == "staging") && !m.allowSandboxOff
                  && (Falsy(given) || given == Str("off"))
               then Str("all") else given
  {
    var placed := Placed(DefaultsOf(base.agents), base.sandbox);
    PlacedMode(base);
    HousedMode(placed, m.name);
    BoxedMode(Known(Housed(placed, m.name)), m);
    AgentsSettle(base, m);
    ModeOf(Get(Defaults(base, m), "sandbox"));
    assert Member(Configured(base, m, token).agents, "defaults") == Obj(Defaults(base, m));
  }

  // ---- Settings with defaults ----------------------------------------------------------------

  predicate Credentialed(base: Sections) {
    var auth := Member(base.gateway, "auth");
    !Falsy(Member(auth, "token")) || !Falsy(Member(auth, "password"))
  }

  lemma BoundValues(gateway: Json)
    requires Section(gateway)
    ensures var b := Obj(BoundGateway(gateway));
            && Member(b, "host") == Undefined && Member(b, "auth") == Member(gateway, "auth")
            && Member(b, "mode") == (if gateway.Obj? && "mode" in gateway.fields then gateway.fields["mode"]
                                     else Str("local"))
            && Member(b, "bind") == (if Falsy(Member(gateway, "bind")) then Str("lan") else Member(gateway, "bind"))
            && Member(b, "port") == if gateway.Obj? && "port" in gateway.fields then gateway.fields["port"]
                                    else Num(18789.0)
  {
  }

  lemma AuthedValues(g: Record, m: Metadata, token: string)
    requires Section(Get(g, "auth"))
    ensures var auth, after := Member(Obj(g), "auth"), Obj(AuthedGateway(g, m, token));
            var open := !Falsy(Member(auth, "token")) || !Falsy(Member(auth, "password")) || m.allowOpenGateway;
            && (forall key | key != "port" && key != "auth" :: Member(after, key) == Member(Obj(g), key))
            && Member(after, "port") == (if open || !Missing(Member(Obj(g), "port")) then Member(Obj(g), "port")
                                         else Num(18789.0))
            && (if open then Member(after, "auth") == auth
                else Member(after, "auth").Obj? && Member(Member(after, "auth"), "token") == Str(token))
  {
    var auth := Spread(Get(g, "auth"))["token" := Str(token)];
    assert Member(Obj(auth), "token") == Str(token);
  }

  /** The gateway: local unless given otherwise, bound to the LAN unless bound, on port
      18789 unless given one, and with the random token unless it has a credential or may
      go without. */
  lemma {:induction false} GatewayValues(base: Sections, m: Metadata, token: string)
    requires Typed(base)
    ensures var before, after := base.gateway, Configured(base, m, token).gateway;
            var open := Credentialed(base) || m.allowOpenGateway;
            && Member(after, "host") == Undefined
            && Member(after, "mode") == (if before.Obj? && "mode" in before.fields then before.fields["mode"]
                                         else Str("local"))
            && Member(after, "bind") == (if Falsy(Member(before, "bind")) then Str("lan") else Member(before, "bind"))
            && Member(after, "port") == (if !Missing(Member(before, "port")) then Member(before, "port")
                                         else if open && before.Obj? && "port" in before.fields then
                                           before.fields["port"]
                                         else Num(18789.0))
            && (if open then Member(after, "auth") == Member(before, "auth")
                else Member(Member(after, "auth"), "token") == Str(token))
  {
    BoundValues(base.gateway);
    AuthedValues(BoundGateway(base.gateway), m, token);
  }

  /** The log level that an environment gets without one. */
  function EnvironmentLevel(environment: string): Json {
    if environment == "prod" then Str("warn") else if environment == "staging" then Str("info") else Str("debug")
  }

  lemma LeveledValues(logging: Json, m: Metadata)
    requires Section(logging)
    ensures var l := Obj(LeveledLogging(logging, m));
            && "level" in l.fields && Member(l, "redactSensitive") == Member(logging, "redactSensitive")
            && Member(l, "level") == if logging.Obj? && "level" in logging.fields then logging.fields["level"]
                                     else EnvironmentLevel(m.environment)
  {
  }

  lemma RedactedValues(l: Record)
    requires "level" in l
    ensures var after, redact := Obj(RedactedLogging(l)), Member(Obj(l), "redactSensitive");
            && Member(after, "redactSensitive") == (if Falsy(redact) then Str("tools") else redact)
            && Member(after, "level") == if Falsy(redact) && Missing(l["level"]) then Str("info") else l["level"]
  {
  }

  /** Logging: the environment's level unless one is given, and "tools" redacted unless
      told otherwise; a level given as null counts as "info" then. */
  lemma {:induction false} LoggingValues(base: Sections, m: Metadata, token: string)
    requires Typed(base)
    ensures var before, after := base.logging, Configured(base, m, token).logging;
            var redact := Member(before, "redactSensitive");
            && Member(after, "redactSensitive") == (if Falsy(redact) then Str("tools") else redact)
            && Member(after, "level") == if !Missing(Member(before, "level")) then Member(before, "level")
                                         else if !(before.Obj? && "level" in before.fields) then
                                           EnvironmentLevel(m.environment)
                                         else if Falsy(redact) then Str("info") else before.fields["level"]
  {
    LeveledValues(base.logging, m);
    RedactedValues(LeveledLogging(base.logging, m));
  }

  /** The workspace is one of the manifest's name unless one is given, and elevated tools
      are off if they were on for nobody in particular. */
  lemma {:induction false} OtherValues(base: Sections, m: Metadata, token: string)
    requires Typed(base)
    ensures var out := Configured(base, m, token);
            var workspace := Member(Member(base.agents, "defaults"), "workspace");
            var elevated := Member(base.tools, "elevated");
            var allowed := Member(elevated, "allowFrom");
            && Member(Member(out.agents, "defaults"), "workspace")
               == (if Falsy(workspace) then Str("/var/openclaw/workspaces/" + m.name) else workspace)
            && Member(Member(out.tools, "elevated"), "enabled")
               == if !Falsy(Member(elevated, "enabled"))
                     && (Falsy(allowed) || allowed == Arr([])
                         || (allowed.Obj? && Member(allowed, "length") == Num(0.0)))
                  then Bool(false) else Member(elevated, "enabled")
  {
    WorkspaceValue(base, m);
    ElevatedValue(base.tools);
    assert Member(Configured(base, m, token).agents, "defaults") == Obj(Defaults(base, m));
  }

  lemma WorkspaceValue(base: Sections, m: Metadata)
    requires Typed(base)
    ensures var workspace := Member(Member(base.agents, "defaults"), "workspace");
            Get(Defaults(base, m), "workspace")
            == if Falsy(workspace) then Str("/var/openclaw/workspaces/" + m.name) else workspace
  {
    var placed := Placed(DefaultsOf(base.agents), base.sandbox);
    assert Get(placed, "workspace") == Member(Member(base.agents, "defaults"), "workspace");
    var housed := Housed(placed, m.name);
    assert Get(Known(housed), "workspace") == Get(housed, "workspace");
    assert Get(Boxed(Known(housed), m), "workspace") == Get(housed, "workspace");
  }

  lemma ElevatedValue(tools: Json)
    requires Section(tools) && Section(Prop(tools, "elevated"))
    ensures var elevated := Member(tools, "elevated");
            var allowed := Member(elevated, "allowFrom");
            Member(Member(GuardedTools(tools), "elevated"), "enabled")
            == if !Falsy(Member(elevated, "enabled"))
                  && (Falsy(allowed) || allowed == Arr([]) || (allowed.Obj? && Member(allowed, "length") == Num(0.0)))
               then Bool(false) else Member(elevated, "enabled")
  {
    var elevated := Prop(tools, "elevated");
    assert elevated == Member(tools, "elevated");
    var off := Spread(elevated)["enabled" := Bool(false)];
    assert Member(Obj(off), "enabled") == Bool(false);
  }
}
