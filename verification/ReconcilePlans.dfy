/** What the reconcile loop may count on from the generator: the hash of the config that
    apps/api/src/reconciler/config-generator.service.ts makes of a manifest. */
module ReconcilePlans {
  import opened JsonValues
  import opened SortedDocs
  import opened JsonText
  import opened JsonReader
  import opened ConfigHash
  import opened ConfigGenerator
  import opened ConfigGuarantees
  import opened ReconcileSteps

  /** The manifest has a gateway credential, or does without one. */
  predicate Deterministic(base: Sections, m: Metadata) {
    HasCredential(Prop(base.gateway, "auth")) || m.allowOpenGateway
  }

  function Present(key: string, v: Json): Record {
    if v.Undefined? then map[] else map[key := v]
  }

  /** The config as one object. */
  function AsObject(c: Sections): Json {
    Obj(c.others + Present("sandbox", c.sandbox) + Present("logging", c.logging) + Present("agents", c.agents)
        + Present("skills", c.skills) + Present("tools", c.tools) + Present("channels", c.channels)
        + Present("gateway", c.gateway))
  }

  lemma PresentHeld(m: Record, name: string, v: Json, key: string)
    ensures Get(m + Present(name, v), key) == if key == name && !v.Undefined? then v else Get(m, key)
  {
  }

  /** The object has every section under its name, and the other members beside them. */
  lemma {:induction false} SectionsHeld(c: Sections, key: string)
    requires c.others.Keys !! {"sandbox", "gateway", "logging", "agents", "skills", "tools", "channels"}
    ensures Get(AsObject(c).fields, key)
            == if key == "sandbox" then c.sandbox else if key == "gateway" then c.gateway
               else if key == "logging" then c.logging else if key == "agents" then c.agents
               else if key == "skills" then c.skills else if key == "tools" then c.tools
               else if key == "channels" then c.channels else Get(c.others, key)
  {
    var one := c.others + Present("sandbox", c.sandbox);
    var two := one + Present("logging", c.logging);
    var three := two + Present("agents", c.agents);
    var four := three + Present("skills", c.skills);
    var five := four + Present("tools", c.tools);
    var six := five + Present("channels", c.channels);
    PresentHeld(c.others, "sandbox", c.sandbox, key);
    PresentHeld(one, "logging", c.logging, key);
    PresentHeld(two, "agents", c.agents, key);
    PresentHeld(three, "skills", c.skills, key);
    PresentHeld(four, "tools", c.tools, key);
    PresentHeld(five, "channels", c.channels, key);
    PresentHeld(six, "gateway", c.gateway, key);
  }

  /** The document is the config generated with this token, its keys in whatever order. */
  predicate Writes(d: Doc, base: Sections, m: Metadata, token: string) {
    WellFormed(d) && CleanJson(Meaning(d)) == CleanJson(AsObject(Configured(base, m, token)))
  }

  /** The plan for a manifest; `d` is the config generated from it once. */
  function PlanOf(base: Sections, m: Metadata, d: Doc, number: Numbers, digest: string -> string): Plan {
    Plan(Deterministic(base, m), HashOf(d, number, digest))
  }

  lemma CleanProp(v: Json, key: string)
    requires v.Obj? && !Prop(v, key).Undefined?
    ensures CleanJson(v).Obj? && Prop(CleanJson(v), key) == CleanJson(Prop(v, key))
  {
  }

  lemma CleanPath(v: Json, a: string, b: string, c: string)
    requires v.Obj? && Prop(v, a).Obj? && Prop(Prop(v, a), b).Obj? && !Prop(Prop(Prop(v, a), b), c).Undefined?
    ensures Prop(Prop(Prop(CleanJson(v), a), b), c) == CleanJson(Prop(Prop(Prop(v, a), b), c))
  {
    CleanProp(v, a);
    CleanProp(Prop(v, a), b);
    CleanProp(Prop(Prop(v, a), b), c);
  }

  lemma {:induction false} TokenSet(base: Sections, m: Metadata, token: string)
    requires !Deterministic(base, m)
    ensures var gateway := Configured(base, m, token).gateway;
            gateway.Obj? && Prop(gateway, "auth").Obj? && Prop(Prop(gateway, "auth"), "token") == Str(token)
  {
    var b := BoundGateway(base.gateway);
    assert Get(b, "auth") == Prop(base.gateway, "auth");
    var auth := Spread(Get(b, "auth"))["token" := Str(token)];
    assert Get(AuthedGateway(b, m, token), "auth") == Obj(auth);
  }

  lemma GatewayAt(c: Sections)
    requires c.gateway.Obj?
    ensures AsObject(c).Obj? && Prop(AsObject(c), "gateway") == c.gateway
  {
  }

  lemma TokenIn(c: Sections, token: string)
    requires c.gateway.Obj? && Prop(c.gateway, "auth").Obj? && Prop(Prop(c.gateway, "auth"), "token") == Str(token)
    ensures Prop(Prop(Prop(CleanJson(AsObject(c)), "gateway"), "auth"), "token") == Str(token)
  {
    GatewayAt(c);
    CleanPath(AsObject(c), "gateway", "auth", "token");
  }

  /** The token a config carries, read off its cleaned form. */
  lemma TokenShows(base: Sections, m: Metadata, token: string)
    requires !Deterministic(base, m)
    ensures Prop(Prop(Prop(CleanJson(AsObject(Configured(base, m, token))), "gateway"), "auth"), "token") == Str(token)
  {
    TokenSet(base, m, token);
    TokenIn(Configured(base, m, token), token);
  }

  /** Whatever token is drawn and in whatever order keys are inserted, the hash of the
      generated config is the one the plan gives. */
  lemma PlanGenerates(base: Sections, m: Metadata, t: string, t': string, d: Doc, d': Doc, number: Numbers,
                      digest: string -> string)
    requires Typed(base) && Writes(d, base, m, t) && Writes(d', base, m, t')
    ensures var hash := HashOf(d', number, digest);
            Generated(PlanOf(base, m, d, number, digest), hash) == hash
  {
    if Deterministic(base, m) {
      if t != t' { TokenMatters(base, m, t, t'); }
      PrintedAlike(d, d', number);
    }
  }

  /** And a plan is deterministic exactly if different tokens give the same hash, where
      the digest and the texts of numbers tell the two configs apart if they differ. */
  lemma DrawnHashesDiffer(base: Sections, m: Metadata, t: string, t': string, d: Doc, d': Doc, number: Numbers,
                          digest: string -> string)
    requires Typed(base) && Writes(d, base, m, t) && Writes(d', base, m, t') && t != t'
    requires TellsApart(number, NumbersIn(Clean(SortKeys(d))) + NumbersIn(Clean(SortKeys(d'))))
    requires HashOf(d, number, digest) == HashOf(d', number, digest) ==> Printed(d, number) == Printed(d', number)
    ensures HashOf(d, number, digest) == HashOf(d', number, digest) <==> Deterministic(base, m)
  {
    HashAgrees(d, d', number, digest);
    if Deterministic(base, m) {
      TokenMatters(base, m, t, t');
    } else {
      TokenShows(base, m, t);
      TokenShows(base, m, t');
    }
  }
}
