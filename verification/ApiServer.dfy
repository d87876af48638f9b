/** The Kubernetes API and the Mimir API as the reconcilers call them, one shared world behind both. */
module ApiServer {
  import opened Text
  import opened Api
  import opened RuleCompiler
  import opened Conditions
  import opened MimirTranslation
  import opened ObjectStore
  import opened Cluster

  /** Before each call others may change the world; then the call runs under the environment's fault. */
  class Server {
    const env: Environment
    var world: World
    var calls: nat

    constructor (env: Environment, world: World)
      ensures this.env == env && this.world == world && calls == 0
    {
      this.env, this.world, this.calls := env, world, 0;
    }

    /** The world the next call meets, and how that call fares. */
    ghost function Met(): World
      reads this
    {
      env.disturb(calls, world)
    }

    ghost function Fate(): Fault
      reads this
    {
      env.fault(calls)
    }

    method Begin() returns (w: World, f: Fault)
      modifies this
      ensures calls == old(calls) + 1 && w == old(Met()) && f == old(Fate()) && world == w
    {
      w, f := env.disturb(calls, world), env.fault(calls);
      world, calls := w, calls + 1;
    }

    // ----- Reads -----

    method GetSlo() returns (r: Found<Slo>)
      modifies this
      ensures calls == old(calls) + 1 && world == old(Met()) && r == Read(world.slo, old(Fate()))
    {
      var w, f := Begin();
      r := Read(w.slo, f);
    }

    method GetSloNamed(name: string) returns (r: Found<Slo>)
      modifies this
      ensures calls == old(calls) + 1 && world == old(Met()) && r == ReadSloNamed(world, name, old(Fate()))
    {
      var w, f := Begin();
      r := ReadSloNamed(w, name, f);
    }

    method GetProm() returns (r: Found<PrometheusRule>)
      modifies this
      ensures calls == old(calls) + 1 && world == old(Met()) && r == Read(world.prom, old(Fate()))
    {
      var w, f := Begin();
      r := Read(w.prom, f);
    }

    method GetRule() returns (r: Found<MimirRule>)
      modifies this
      ensures calls == old(calls) + 1 && world == old(Met()) && r == Read(world.rule, old(Fate()))
    {
      var w, f := Begin();
      r := Read(w.rule, f);
    }

    method GetAlerting() returns (r: Found<AlertManagerConfig>)
      modifies this
      ensures calls == old(calls) + 1 && world == old(Met()) && r == Read(world.alerting, old(Fate()))
    {
      var w, f := Begin();
      r := Read(w.alerting, f);
    }

    method GetSli(name: string) returns (r: Found<Sli>)
      modifies this
      ensures calls == old(calls) + 1 && world == old(Met()) && r == Read(Lookup(world.slis, name), old(Fate()))
    {
      var w, f := Begin();
      r := Read(Lookup(w.slis, name), f);
    }

    method GetSource(name: string) returns (r: Found<Datasource>)
      modifies this
      ensures calls == old(calls) + 1 && world == old(Met()) && r == Read(Lookup(world.sources, name), old(Fate()))
    {
      var w, f := Begin();
      r := Read(Lookup(w.sources, name), f);
    }

    // ----- Writes -----

    method UpdateSlo(o: Slo) returns (reply: Reply<Slo>)
      modifies this
      ensures calls == old(calls) + 1 && (world, reply) == PutSlo(old(Met()), o, old(Fate()))
    {
      var w, f := Begin();
      var r := PutSlo(w, o, f);
      world, reply := r.0, r.1;
    }

    method UpdateSloStatus(o: Slo) returns (reply: Reply<Slo>)
      modifies this
      ensures calls == old(calls) + 1 && (world, reply) == PutSloStatus(old(Met()), o, old(Fate()))
    {
      var w, f := Begin();
      var r := PutSloStatus(w, o, f);
      world, reply := r.0, r.1;
    }

    /** `UpdateStatus` on an SLO: the Ready condition, stamped with the time of the call, and the Ready text. */
    method UpdateSloReady(o: Slo, status: string, message: string) returns (reply: Reply<Slo>)
      modifies this
      ensures calls == old(calls) + 1
      ensures (world, reply)
           == PutSloStatus(old(Met()), o.(status := WithCondition(o.status, "Ready", status, message, old(Met()).now)),
                           old(Fate()))
    {
      var w, f := Begin();
      var conditions := UpdateCondition(o.status.conditions, NewCondition("Ready", status, message, w.now), w.now);
      var r := PutSloStatus(w, o.(status := SloStatus(conditions, status)), f);
      world, reply := r.0, r.1;
    }

    method CreateProm(o: PrometheusRule) returns (reply: Reply<PrometheusRule>)
      modifies this
      ensures calls == old(calls) + 1 && (world, reply) == Cluster.CreateProm(old(Met()), o, old(Fate()))
    {
      var w, f := Begin();
      var r := Cluster.CreateProm(w, o, f);
      world, reply := r.0, r.1;
    }

    method UpdateProm(o: PrometheusRule) returns (reply: Reply<PrometheusRule>)
      modifies this
      ensures calls == old(calls) + 1 && (world, reply) == PutProm(old(Met()), o, old(Fate()))
    {
      var w, f := Begin();
      var r := PutProm(w, o, f);
      world, reply := r.0, r.1;
    }

    method UpdatePromStatus(o: PrometheusRule) returns (reply: Reply<PrometheusRule>)
      modifies this
      ensures calls == old(calls) + 1 && (world, reply) == PutPromStatus(old(Met()), o, old(Fate()))
    {
      var w, f := Begin();
      var r := PutPromStatus(w, o, f);
      world, reply := r.0, r.1;
    }

    method CreateRule(o: MimirRule) returns (reply: Reply<MimirRule>)
      modifies this
      ensures calls == old(calls) + 1 && (world, reply) == Cluster.CreateRule(old(Met()), o, old(Fate()))
    {
      var w, f := Begin();
      var r := Cluster.CreateRule(w, o, f);
      world, reply := r.0, r.1;
    }

    method UpdateRule(o: MimirRule) returns (reply: Reply<MimirRule>)
      modifies this
      ensures calls == old(calls) + 1 && (world, reply) == PutRule(old(Met()), o, old(Fate()))
    {
      var w, f := Begin();
      var r := PutRule(w, o, f);
      world, reply := r.0, r.1;
    }

    method UpdateRuleStatus(o: MimirRule) returns (reply: Reply<MimirRule>)
      modifies this
      ensures calls == old(calls) + 1 && (world, reply) == PutRuleStatus(old(Met()), o, old(Fate()))
    {
      var w, f := Begin();
      var r := PutRuleStatus(w, o, f);
      world, reply := r.0, r.1;
    }

    method CreateAlerting(o: AlertManagerConfig) returns (reply: Reply<AlertManagerConfig>)
      modifies this
      ensures calls == old(calls) + 1 && (world, reply) == Cluster.CreateAlerting(old(Met()), o, old(Fate()))
    {
      var w, f := Begin();
      var r := Cluster.CreateAlerting(w, o, f);
      world, reply := r.0, r.1;
    }

    method UpdateAlerting(o: AlertManagerConfig) returns (reply: Reply<AlertManagerConfig>)
      modifies this
      ensures calls == old(calls) + 1 && (world, reply) == PutAlerting(old(Met()), o, old(Fate()))
    {
      var w, f := Begin();
      var r := PutAlerting(w, o, f);
      world, reply := r.0, r.1;
    }

    method CreateSli(o: Sli) returns (reply: Reply<Sli>)
      modifies this
      ensures calls == old(calls) + 1 && (world, reply) == Cluster.CreateSli(old(Met()), o, old(Fate()))
    {
      var w, f := Begin();
      var r := Cluster.CreateSli(w, o, f);
      world, reply := r.0, r.1;
    }

    method UpdateSli(o: Sli) returns (reply: Reply<Sli>)
      modifies this
      ensures calls == old(calls) + 1 && (world, reply) == PutSli(old(Met()), o, old(Fate()))
    {
      var w, f := Begin();
      var r := PutSli(w, o, f);
      world, reply := r.0, r.1;
    }

    // ----- Mimir -----

    method CreateRuleGroup(client: Client, g: PushedGroup) returns (ok: bool)
      modifies this
      ensures calls == old(calls) + 1 && (world, ok) == PushGroup(old(Met()), client, g, old(Fate()))
    {
      var w, f := Begin();
      var r := PushGroup(w, client, g, f);
      world, ok := r.0, r.1;
    }

    method DeleteRuleGroup(client: Client, name: string) returns (ok: bool)
      modifies this
      ensures calls == old(calls) + 1 && (world, ok) == DeleteGroup(old(Met()), client, name, old(Fate()))
    {
      var w, f := Begin();
      var r := DeleteGroup(w, client, name, f);
      world, ok := r.0, r.1;
    }
  }
}
