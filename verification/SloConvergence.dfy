/**
 Failure-free passes of the SLO controller with everyone else idle: a stage measure falls on every
 pass until all children exist and the Ready condition is True, and then a pass changes nothing.
 */
module SloConvergence {
  import opened Text
  import opened Selectors
  import opened Api
  import opened RuleCompiler
  import opened RuleInputs
  import opened Conditions
  import opened MimirTranslation
  import opened ObjectStore
  import opened Cluster
  import opened SloController
  import EmittedRules

  /** The end of a failure-free pass from `pc`. */
  function Run(cfg: Config, pc: Pc, w: World): (Outcome, World)
    decreases Stage(pc)
  {
    if pc.Stop? then (pc.outcome, w)
    else
      AdvanceProgresses(cfg, pc, w, Fine);
      Run(cfg, Advance(cfg, pc, w, Fine).0, Advance(cfg, pc, w, Fine).1)
  }

  lemma {:induction false} CalmPassIsRun(cfg: Config, pc: Pc, w: World, t: nat)
    ensures Pass(cfg, pc, w, CALM, t).outcome == Run(cfg, pc, w).0
    ensures Pass(cfg, pc, w, CALM, t).world == Run(cfg, pc, w).1
    decreases Stage(pc)
  {
    hide Advance;
    if !pc.Stop? {
      AdvanceProgresses(cfg, pc, w, Fine);
      var (pc', w') := Advance(cfg, pc, w, Fine);
      assert CALM.disturb(t, w) == w && CALM.fault(t) == Fine;
      CalmPassIsRun(cfg, pc', w', t + 1);
    }
  }

  // ----- The setting -----

  /** The name and spec of the SLI the controller will use. */
  function SliName(slo: Slo): string
  {
    match slo.spec.indicatorRef
    case Some(name) => name
    case None =>
      match slo.spec.indicator
      case Some(indicator) => InlineName(slo, indicator)
      case None => ""
  }

  predicate Inline(slo: Slo)
  {
    slo.spec.indicatorRef.None? && slo.spec.indicator.Some?
  }

  /** A referenced SLI exists; an inline one is named, and not on its way out if it exists. */
  predicate Resolvable(w: World, slo: Slo)
  {
    if slo.spec.indicatorRef.Some? then SliName(slo) in w.slis
    else
      && slo.spec.indicator.Some? && SliName(slo) != ""
      && (SliName(slo) in w.slis ==>
            w.slis[SliName(slo)].meta.name == SliName(slo) && !w.slis[SliName(slo)].meta.deleting)
  }

  function SliSpecOf(w: World, slo: Slo): SliSpec
    requires Resolvable(w, slo)
  {
    if slo.spec.indicatorRef.Some? then w.slis[SliName(slo)].spec else slo.spec.indicator.value.spec
  }

  /** That SLI, as far as the rules depend on it. */
  function UsedSli(w: World, slo: Slo): Sli
    requires Resolvable(w, slo)
  {
    if slo.spec.indicatorRef.Some? then w.slis[SliName(slo)]
    else NO_SLI.(meta := NO_META.(name := SliName(slo)), spec := slo.spec.indicator.value.spec)
  }

  /** The SLO compiles with an SLI of this spec. */
  predicate Compiles(cfg: Config, slo: Slo, spec: SliSpec)
  {
    && IsPrometheusSource(spec) && slo.spec.targets != []
    && var target := cfg.parseFloat(slo.spec.targets[0]);
       target.Some? && ValidTarget(target.value)
  }

  lemma CompilesIff(cfg: Config, slo: Slo, sli: Sli)
    ensures Compiles(cfg, slo, sli.spec) <==> CreatePrometheusRule(cfg, slo, sli).Success?
    ensures CreatePrometheusRule(cfg, slo, sli).Success? ==>
      var p := CreatePrometheusRule(cfg, slo, sli).value;
      && p.meta.name == slo.meta.name && !p.meta.deleting && RuleGroups(cfg, slo, sli) == Success(p.spec)
  {
    hide MonitoringRuleSet.Groups, IsPrometheusSource;
  }

  /** A live SLO with its datasource, a resolvable SLI and a compilable spec. */
  ghost predicate Live(cfg: Config, w: World)
  {
    && w.slo.Some?
    && var slo := w.slo.value;
       && !slo.meta.deleting && slo.meta.name != ""
       && Get(slo.meta.annotations, "osko.dev/datasourceRef") in w.sources
       && Resolvable(w, slo) && Compiles(cfg, slo, SliSpecOf(w, slo))
       && (w.prom.Some? ==> w.prom.value.meta.name == slo.meta.name)
  }

  /** The inline SLI, if there is one, is stored as the SLO has it. */
  predicate InlineStored(w: World, slo: Slo)
  {
    Inline(slo) ==> SliName(slo) in w.slis && w.slis[SliName(slo)].spec == slo.spec.indicator.value.spec
  }

  predicate Concluded(w: World)
    requires w.slo.Some?
  {
    var slo := w.slo.value;
    ReadyTrue(slo.status) && slo.status.ready == "True" && InlineStored(w, slo)
    && (WantsAlerting(slo) ==> w.alerting.Some?)
  }

  function OneIf(b: bool): nat
  {
    if b then 1 else 0
  }

  /** The stages still ahead: finalizer, PrometheusRule, MimirRule, conclusion. */
  function Ahead(w: World): nat
    requires w.slo.Some?
  {
    OneIf(SLO_FINALIZER !in w.slo.value.meta.finalizers) + OneIf(w.prom.None?) + OneIf(w.rule.None?)
    + OneIf(!Concluded(w))
  }

  // ----- What is made -----

  /** Metadata like `like`'s, owned by the SLO, and fresh otherwise. */
  predicate MadeLike(made: Meta, like: Meta, slo: Slo)
  {
    made == Meta(like.name, like.namespace, like.labels, like.annotations,
                 [OwnerRef("SLO", slo.meta.name, slo.meta.uid, false)], [], false, made.uid, made.version)
  }

  /** The AlertManagerConfig: it names its SLO and its datasource, and points at the secret of its configuration. */
  predicate AlertingFor(a: AlertManagerConfig, slo: Slo)
  {
    && a.spec == SecretRef(slo.meta.name + "-alerting-config", slo.meta.namespace)
    && a.meta == Meta(
         slo.meta.name + "-alerting", slo.meta.namespace,
         map["app.kubernetes.io/name" := "osko", "app.kubernetes.io/managed-by" := "osko-controller",
             "osko.dev/slo" := slo.meta.name],
         map["osko.dev/datasourceRef" := Get(slo.meta.annotations, "osko.dev/datasourceRef")],
         [OwnerRef("SLO", slo.meta.name, slo.meta.uid, false)], [], false, a.meta.uid, a.meta.version)
  }

  /** Of the SLIs only an inline one is written: its spec, or if there was none a new object owned by the SLO. */
  predicate SlisWritten(a: map<string, Sli>, b: map<string, Sli>, slo: Slo)
  {
    if slo.spec.indicatorRef.Some? || slo.spec.indicator.None? then b == a
    else
      var indicator := slo.spec.indicator.value;
      var name := if indicator.name != "" then indicator.name else slo.meta.name + "-sli";
      && name in b && b == a[name := b[name]] && b[name].spec == indicator.spec
      && b[name].meta ==
         if name in a then a[name].meta.(version := b[name].meta.version)
         else Meta(name, slo.meta.namespace, map[], map[], [OwnerRef("SLO", slo.meta.name, slo.meta.uid, false)], [],
                   false, b[name].meta.uid, b[name].meta.version)
  }

  // ----- Store effects without faults -----

  lemma StatusStored(w: World, slo: Slo, status: SloStatus)
    requires w.slo == Some(slo) && !slo.meta.deleting
    ensures var (w', reply) := PutSloStatus(w, slo.(status := status), Fine);
      && reply.Done? && w'.slo.Some?
      && w' == w.(slo := w'.slo, clock := w'.clock)
      && w'.slo.value == slo.(status := status, meta := slo.meta.(version := w'.slo.value.meta.version))
      && (slo.status == status ==> w' == w)
  {
    if slo.status == status {
      assert slo.(status := status) == slo;
    }
  }

  lemma FinalizerStored(w: World, slo: Slo)
    requires w.slo == Some(slo) && !slo.meta.deleting && SLO_FINALIZER !in slo.meta.finalizers
    ensures var (w', reply) := PutSlo(w, WithFinalizer(slo, SLO_FINALIZER), Fine);
      && reply.Done? && w'.slo.Some?
      && w' == w.(slo := w'.slo, clock := w'.clock)
      && w'.slo.value == slo.(meta := slo.meta.(
           finalizers := slo.meta.finalizers + [SLO_FINALIZER], version := w'.slo.value.meta.version))
  {
    hide AddsFinalizer;
  }

  lemma PromCreated(w: World, p: PrometheusRule)
    requires w.prom.None? && p.meta.name != ""
    ensures var (w', reply) := CreateProm(w, p, Fine);
      && reply.Done? && w'.prom == Some(reply.obj)
      && w' == w.(prom := w'.prom, clock := w'.clock)
      && reply.obj == p.(meta := p.meta.(uid := w.clock + 1, version := w.clock + 1, deleting := false))
  {
  }

  lemma PromOwned(w: World, p: PrometheusRule, slo: Slo)
    requires w.prom == Some(p) && !p.meta.deleting
    ensures var (w', reply) := PutProm(w, Owned(p, slo), Fine);
      && reply.Done? && w'.prom.Some? && w' == w.(prom := w'.prom, clock := w'.clock)
      && w'.prom.value.spec == p.spec
      && w'.prom.value.meta == p.meta.(owners := WithOwner(p.meta.owners, OwnerOf(slo)),
                                       version := w'.prom.value.meta.version)
  {
    hide AddsFinalizer, WithOwner;
  }

  lemma RuleCreated(w: World, m: MimirRule)
    requires w.rule.None? && m.meta.name != ""
    ensures var (w', reply) := CreateRule(w, m, Fine);
      && reply.Done? && w'.rule == Some(reply.obj)
      && w' == w.(rule := w'.rule, clock := w'.clock)
      && reply.obj == m.(meta := m.meta.(uid := w.clock + 1, version := w.clock + 1, deleting := false))
  {
  }

  lemma RuleOwned(w: World, m: MimirRule, slo: Slo)
    requires w.rule == Some(m) && !m.meta.deleting
    ensures var (w', reply) := PutRule(w, Owned(m, slo), Fine);
      && reply.Done? && w'.rule == Some(reply.obj) && reply.obj.spec == m.spec
      && reply.obj.meta == m.meta.(owners := WithOwner(m.meta.owners, OwnerOf(slo)), version := reply.obj.meta.version)
      && w' == w.(rule := w'.rule, clock := w'.clock)
  {
    hide AddsFinalizer, WithOwner;
  }

  lemma RuleMarked(w: World, m: MimirRule)
    requires w.rule == Some(m) && !m.meta.deleting
    ensures var (w', reply) := PutRuleStatus(w, m.(status := "True"), Fine);
      && reply.Done? && w'.rule.Some? && w' == w.(rule := w'.rule, clock := w'.clock)
      && w'.rule.value == m.(status := "True", meta := m.meta.(version := w'.rule.value.meta.version))
  {
  }

  lemma AlertingCreated(w: World, slo: Slo)
    requires w.alerting.None?
    ensures var (w', reply) := CreateAlerting(w, NewAlerting(slo), Fine);
      && reply.Done? && w'.alerting == Some(reply.obj)
      && reply.obj.spec == NewAlerting(slo).spec && !reply.obj.meta.deleting
      && reply.obj.meta == NewAlerting(slo).meta.(uid := reply.obj.meta.uid, version := reply.obj.meta.version)
      && w' == w.(alerting := w'.alerting, clock := w'.clock)
  {
    assert |slo.meta.name + "-alerting"| > 0;
  }

  lemma AlertingOwned(w: World, a: AlertManagerConfig, slo: Slo)
    requires w.alerting == Some(a) && !a.meta.deleting
    ensures var (w', reply) := PutAlerting(w, Owned(a, slo), Fine);
      && reply.Done? && w'.alerting.Some? && w' == w.(alerting := w'.alerting, clock := w'.clock)
      && w'.alerting.value.spec == a.spec
      && w'.alerting.value.meta == a.meta.(owners := WithOwner(a.meta.owners, OwnerOf(slo)),
                                           version := w'.alerting.value.meta.version)
  {
    hide AddsFinalizer, WithOwner;
  }

  lemma InlineCreated(w: World, slo: Slo, indicator: Indicator)
    requires InlineName(slo, indicator) != "" && InlineName(slo, indicator) !in w.slis
    ensures var (w', reply) := CreateSli(w, NewInlineSli(slo, indicator), Fine);
      && reply.Done? && reply.obj.spec == indicator.spec
      && reply.obj.meta == Meta(
           InlineName(slo, indicator), slo.meta.namespace, map[], map[],
           [OwnerRef("SLO", slo.meta.name, slo.meta.uid, false)], [], false, reply.obj.meta.uid, reply.obj.meta.version)
      && w' == w.(slis := w.slis[InlineName(slo, indicator) := reply.obj], clock := w'.clock)
  {
    hide InlineName;
  }

  lemma InlineUpdated(w: World, name: string, sli: Sli, spec: SliSpec)
    requires name in w.slis && w.slis[name] == sli && sli.meta.name == name && !sli.meta.deleting
    ensures var (w', reply) := PutSli(w, sli.(spec := spec), Fine);
      && reply.Done? && reply.obj.spec == spec
      && reply.obj.meta == sli.meta.(version := reply.obj.meta.version)
      && w' == w.(slis := w.slis[name := reply.obj], clock := w'.clock)
  {
    hide AddsFinalizer;
  }

  // ----- From the SLO to its SLI -----

  /** The SLI step leaves everything but the SLIs alone and stores the inline SLI. */
  ghost predicate SliStep(w: World, v: World, slo: Slo)
  {
    && v == w.(slis := v.slis, clock := v.clock)
    && InlineStored(v, slo) && SlisWritten(w.slis, v.slis, slo)
    && (InlineStored(w, slo) ==> v == w)
    && (!Inline(slo) ==> v == w)
    && (Resolvable(w, slo) ==> Resolvable(v, slo) && SliSpecOf(v, slo) == SliSpecOf(w, slo))
  }

  /** The pass reaches the PrometheusRule stage with the SLI the setting names. */
  lemma RunToProm(cfg: Config, w: World) returns (v: World, sli: Sli)
    requires Live(cfg, w) && SLO_FINALIZER in w.slo.value.meta.finalizers
    ensures var slo := w.slo.value; var source := w.sources[Get(slo.meta.annotations, "osko.dev/datasourceRef")];
      && Run(cfg, GetSlo, w) == Run(cfg, GetProm(slo, source, sli), v)
      && SliStep(w, v, slo) && sli.spec == SliSpecOf(w, slo) && sli.meta.name == UsedSli(w, slo).meta.name
  {
    hide AdvanceMakingProm, AdvanceMakingRule, AdvanceConcluding, Compiles, CreateSli, PutSli, NewInlineSli,
      SlisWritten;
    var slo := w.slo.value;
    var source := w.sources[Get(slo.meta.annotations, "osko.dev/datasourceRef")];
    assert Run(cfg, GetSlo, w) == Run(cfg, GetSource(slo), w);
    assert Run(cfg, GetSource(slo), w) == Run(cfg, ChooseSli(slo, source), w);
    if slo.spec.indicatorRef.Some? {
      v, sli := w, w.slis[SliName(slo)];
      NoneWritten(w.slis, slo);
      assert Run(cfg, ChooseSli(slo, source), w) == Run(cfg, GetProm(slo, source, sli), v);
    } else {
      v, sli := RunInline(cfg, w, slo, source, slo.spec.indicator.value);
    }
  }

  lemma NoneWritten(a: map<string, Sli>, slo: Slo)
    requires !Inline(slo)
    ensures SlisWritten(a, a, slo)
  {
  }

  lemma InlineWritten(a: map<string, Sli>, slo: Slo, sli: Sli)
    requires Inline(slo) && sli.spec == slo.spec.indicator.value.spec
    requires sli.meta ==
      if SliName(slo) in a then a[SliName(slo)].meta.(version := sli.meta.version)
      else Meta(SliName(slo), slo.meta.namespace, map[], map[], [OwnerRef("SLO", slo.meta.name, slo.meta.uid, false)],
                [], false, sli.meta.uid, sli.meta.version)
    ensures SlisWritten(a, a[SliName(slo) := sli], slo)
  {
  }

  lemma RunInline(
    cfg: Config, w: World, slo: Slo, source: Datasource, indicator: Indicator) returns (v: World, sli: Sli)
    requires Resolvable(w, slo) && slo.spec.indicatorRef.None? && slo.spec.indicator == Some(indicator)
    ensures Run(cfg, GetInline(slo, source, indicator), w) == Run(cfg, GetProm(slo, source, sli), v)
    ensures SliStep(w, v, slo) && sli.meta.name == SliName(slo) && sli.spec == indicator.spec
  {
    hide AdvanceFinalizing, AdvanceMakingProm, AdvanceMakingRule, AdvanceConcluding, CreateSli, PutSli,
      NewInlineSli, InlineName, SlisWritten;
    var name := InlineName(slo, indicator);
    assert name == SliName(slo);
    if name !in w.slis {
      assert Run(cfg, GetInline(slo, source, indicator), w) == Run(cfg, CreateInline(slo, source, indicator), w);
      InlineCreated(w, slo, indicator);
      v, sli := CreateSli(w, NewInlineSli(slo, indicator), Fine).0,
        CreateSli(w, NewInlineSli(slo, indicator), Fine).1.obj;
      InlineWritten(w.slis, slo, sli);
      assert Run(cfg, CreateInline(slo, source, indicator), w) == Run(cfg, GetProm(slo, source, sli), v);
    } else if w.slis[name].spec == indicator.spec {
      v, sli := w, w.slis[name];
      assert w.slis == w.slis[name := w.slis[name]];
      InlineWritten(w.slis, slo, sli);
      assert Run(cfg, GetInline(slo, source, indicator), w) == Run(cfg, GetProm(slo, source, sli), v);
    } else {
      var stored := w.slis[name];
      assert Run(cfg, GetInline(slo, source, indicator), w)
          == Run(cfg, UpdateInline(slo, source, indicator, stored), w);
      InlineUpdated(w, name, stored, indicator.spec);
      v, sli := PutSli(w, stored.(spec := indicator.spec), Fine).0,
        PutSli(w, stored.(spec := indicator.spec), Fine).1.obj;
      InlineWritten(w.slis, slo, sli);
      assert Run(cfg, UpdateInline(slo, source, indicator, stored), w) == Run(cfg, GetProm(slo, source, sli), v);
    }
  }

  // ----- One pass per stage -----

  /** The same SLO spec, names, annotations, sources and SLIs keep the setting live. */
  lemma LiveAgain(cfg: Config, w: World, v: World)
    requires Live(cfg, w) && v.slo.Some? && v.sources == w.sources
    requires var a, b := w.slo.value, v.slo.value;
      && b.spec == a.spec && b.meta.name == a.meta.name && b.meta.annotations == a.meta.annotations && !b.meta.deleting
    requires v.slis == w.slis || (Resolvable(v, w.slo.value) && SliSpecOf(v, w.slo.value) == SliSpecOf(w, w.slo.value))
    requires v.prom.Some? ==> v.prom.value.meta.name == w.slo.value.meta.name
    ensures Live(cfg, v)
  {
    hide IsPrometheusSource, InlineName;
    var a, b := w.slo.value, v.slo.value;
    assert SliName(a) == SliName(b) by { SameSliName(a, b); }
  }

  lemma SameSliName(a: Slo, b: Slo)
    requires a.spec == b.spec && a.meta.name == b.meta.name
    ensures SliName(a) == SliName(b)
  {
  }

  /** Stage one: the finalizer. */
  lemma FinalizerPass(cfg: Config, w: World)
    requires Live(cfg, w) && SLO_FINALIZER !in w.slo.value.meta.finalizers
    ensures var (outcome, w') := Run(cfg, GetSlo, w);
      && outcome == RequeueNow && w'.slo.Some? && w' == w.(slo := w'.slo, clock := w'.clock)
      && w'.slo.value == w.slo.value.(meta := w'.slo.value.meta)
      && w'.slo.value.meta == w.slo.value.meta.(
           finalizers := w.slo.value.meta.finalizers + [SLO_FINALIZER], version := w'.slo.value.meta.version)
      && Live(cfg, w')
  {
    hide AdvanceResolving, AdvanceMakingProm, AdvanceMakingRule, AdvanceConcluding, Compiles, PutSlo, SliName,
      Resolvable, SliSpecOf, WithFinalizer;
    var slo := w.slo.value;
    LiveSlo(cfg, w);
    assert Run(cfg, GetSlo, w) == Run(cfg, Finalize(slo), w);
    FinalizerStored(w, slo);
    var w1 := PutSlo(w, WithFinalizer(slo, SLO_FINALIZER), Fine).0;
    assert Run(cfg, Finalize(slo), w) == (RequeueNow, w1);
    LiveAgain(cfg, w, w1);
  }

  lemma LiveSlo(cfg: Config, w: World)
    requires Live(cfg, w)
    ensures w.slo.Some? && !w.slo.value.meta.deleting && w.slo.value.meta.name != ""
    ensures Get(w.slo.value.meta.annotations, "osko.dev/datasourceRef") in w.sources
    ensures Resolvable(w, w.slo.value) && Compiles(cfg, w.slo.value, SliSpecOf(w, w.slo.value))
    ensures w.prom.Some? ==> w.prom.value.meta.name == w.slo.value.meta.name
  {
  }

  /** What the passes after the first leave of the SLO object: only its status and version move. */
  ghost predicate StatusMoved(a: Slo, b: Slo, status: SloStatus)
  {
    b == a.(status := status, meta := a.meta.(version := b.meta.version))
  }

  /** Stage two: the SLI and the PrometheusRule. */
  lemma PromPass(cfg: Config, w: World)
    requires Live(cfg, w) && SLO_FINALIZER in w.slo.value.meta.finalizers && w.prom.None?
    ensures var (outcome, w') := Run(cfg, GetSlo, w); var slo := w.slo.value;
      && outcome == Settled && w'.prom.Some? && w'.rule == w.rule
      && w'.alerting == w.alerting && w'.sources == w.sources
      && RuleGroups(cfg, slo, UsedSli(w, slo)) == Success(w'.prom.value.spec)
      && MadeLike(w'.prom.value.meta, slo.meta, slo)
      && (!Inline(slo) ==> w'.slis == w.slis) && SlisWritten(w.slis, w'.slis, slo)
      && w'.slo.Some? && StatusMoved(slo, w'.slo.value, slo.status.(ready := "True"))
      && InlineStored(w', slo) && Live(cfg, w')
  {
    hide AdvanceFinalizing, AdvanceResolving, AdvanceMakingRule, AdvanceConcluding, Compiles, CreateProm, PutProm,
      PutSloStatus, CreatePrometheusRule, SliName, Resolvable, SliSpecOf, Owned, InlineStored, UsedSli, RuleGroups,
      SlisWritten;
    var slo := w.slo.value;
    LiveSlo(cfg, w);
    var v, sli := RunToProm(cfg, w);
    CompilesIff(cfg, slo, sli);
    UsedSliSpec(w, slo);
    SameRuleGroups(cfg, slo, slo, sli, UsedSli(w, slo));
    var p := CreatePrometheusRule(cfg, slo, sli).value;
    var source := w.sources[Get(slo.meta.annotations, "osko.dev/datasourceRef")];
    assert Run(cfg, GetProm(slo, source, sli), v) == Run(cfg, MakeProm(slo, p), v);
    PromCreated(v, p);
    var p1, v1 := CreateProm(v, p, Fine).1.obj, CreateProm(v, p, Fine).0;
    assert Run(cfg, MakeProm(slo, p), v) == Run(cfg, OwnProm(slo, p1), v1);
    PromOwned(v1, p1, slo);
    EmittedRules.EmittedObject(cfg, slo, sli);
    assert WithOwner([OwnerRef("SLO", slo.meta.name, slo.meta.uid, true)], OwnerOf(slo)) == [OwnerOf(slo)];
    var v2 := PutProm(v1, Owned(p1, slo), Fine).0;
    assert Run(cfg, OwnProm(slo, p1), v1) == Run(cfg, MarkReady(slo), v2);
    StatusStored(v2, slo, slo.status.(ready := "True"));
    var v3 := PutSloStatus(v2, Ready(slo, "True"), Fine).0;
    assert Run(cfg, MarkReady(slo), v2) == (Settled, v3);
    SameSlis(v, v3, slo);
    LiveAgain(cfg, w, v3);
  }

  lemma UsedSliSpec(w: World, slo: Slo)
    requires Resolvable(w, slo)
    ensures UsedSli(w, slo).spec == SliSpecOf(w, slo)
  {
  }

  lemma SameSlis(v: World, v': World, slo: Slo)
    requires v.slis == v'.slis
    ensures InlineStored(v, slo) <==> InlineStored(v', slo)
    ensures Resolvable(v, slo) <==> Resolvable(v', slo)
    ensures Resolvable(v, slo) ==> SliSpecOf(v, slo) == SliSpecOf(v', slo)
  {
  }

  /** From the PrometheusRule on, when it is there. */
  lemma RunToRule(cfg: Config, w: World) returns (v: World, source: Datasource)
    requires Live(cfg, w) && SLO_FINALIZER in w.slo.value.meta.finalizers && w.prom.Some?
    ensures var slo := w.slo.value;
      && Run(cfg, GetSlo, w) == Run(cfg, GetRule(slo, source, w.prom.value), v) && SliStep(w, v, slo)
      && source == w.sources[Get(slo.meta.annotations, "osko.dev/datasourceRef")]
  {
    hide AdvanceFinalizing, AdvanceResolving, AdvanceMakingRule, AdvanceConcluding, Compiles, SliName, Resolvable,
      SliSpecOf, InlineStored, SlisWritten;
    LiveSlo(cfg, w);
    var slo := w.slo.value;
    var sli;
    v, sli := RunToProm(cfg, w);
    source := w.sources[Get(slo.meta.annotations, "osko.dev/datasourceRef")];
    assert Run(cfg, GetProm(slo, source, sli), v) == Run(cfg, GetRule(slo, source, w.prom.value), v);
  }

  /** Stage three: the MimirRule. */
  lemma RulePass(cfg: Config, w: World)
    requires Live(cfg, w) && SLO_FINALIZER in w.slo.value.meta.finalizers && w.prom.Some? && w.rule.None?
    ensures var (outcome, w') := Run(cfg, GetSlo, w); var slo := w.slo.value;
      var connection := w.sources[Get(slo.meta.annotations, "osko.dev/datasourceRef")].spec;
      && outcome == Settled && w'.prom == w.prom && w'.rule.Some?
      && w'.alerting == w.alerting && w'.sources == w.sources
      && MadeLike(w'.rule.value.meta, w.prom.value.meta, slo) && w'.rule.value.status == "True"
      && w'.rule.value.spec == MimirRuleSpec(connection, ToMimirGroups(w.prom.value.spec, connection))
      && (!Inline(slo) ==> w'.slis == w.slis) && SlisWritten(w.slis, w'.slis, slo)
      && w'.slo.Some? && StatusMoved(slo, w'.slo.value, slo.status.(ready := "True"))
      && InlineStored(w', slo) && Live(cfg, w')
  {
    hide AdvanceFinalizing, AdvanceResolving, AdvanceMakingProm, AdvanceConcluding, Compiles, CreateRule, PutRule,
      PutRuleStatus, PutSloStatus, NewMimirRule, SliName, Resolvable, SliSpecOf, Owned, InlineStored, WithOwner,
      ToMimirGroups, SlisWritten;
    var slo := w.slo.value;
    LiveSlo(cfg, w);
    var v, source := RunToRule(cfg, w);
    var m := NewMimirRule(slo, w.prom.value, source.spec);
    RuleNamed(slo, w.prom.value, source.spec);
    assert Run(cfg, GetRule(slo, source, w.prom.value), v) == Run(cfg, MakeRule(slo, m), v);
    RuleCreated(v, m);
    var m1, v1 := CreateRule(v, m, Fine).1.obj, CreateRule(v, m, Fine).0;
    assert Run(cfg, MakeRule(slo, m), v) == Run(cfg, OwnRule(slo, m1), v1);
    var v3 := RunAdopt(cfg, v1, slo, m1);
    SameSlis(v, v3, slo);
    LiveAgain(cfg, w, v3);
  }

  lemma RuleNamed(slo: Slo, p: PrometheusRule, connection: Connection)
    ensures var meta := NewMimirRule(slo, p, connection).meta;
      MadeLike(meta.(owners := WithOwner(meta.owners, OwnerOf(slo))), p.meta, slo)
    ensures NewMimirRule(slo, p, connection).spec == MimirRuleSpec(connection, ToMimirGroups(p.spec, connection))
  {
    hide ToMimirGroups;
  }

  lemma RunAdopt(cfg: Config, v: World, slo: Slo, m: MimirRule) returns (v': World)
    requires v.rule == Some(m) && !m.meta.deleting && v.slo == Some(slo) && !slo.meta.deleting
    ensures Run(cfg, OwnRule(slo, m), v) == (Settled, v')
    ensures v'.rule.Some? && v'.slo.Some? && StatusMoved(slo, v'.slo.value, slo.status.(ready := "True"))
    ensures v' == v.(rule := v'.rule, slo := v'.slo, clock := v'.clock)
    ensures v'.rule.value.spec == m.spec && v'.rule.value.status == "True"
    ensures v'.rule.value.meta == m.meta.(owners := WithOwner(m.meta.owners, OwnerOf(slo)),
                                          version := v'.rule.value.meta.version)
  {
    hide AdvanceFinalizing, AdvanceResolving, AdvanceMakingProm, AdvanceConcluding, PutRule, PutRuleStatus,
      PutSloStatus, Owned, WithOwner;
    RuleOwned(v, m, slo);
    var m1, v1 := PutRule(v, Owned(m, slo), Fine).1.obj, PutRule(v, Owned(m, slo), Fine).0;
    assert Run(cfg, OwnRule(slo, m), v) == Run(cfg, ReadySlo(slo, m1), v1);
    StatusStored(v1, slo, slo.status.(ready := "True"));
    var v2 := PutSloStatus(v1, Ready(slo, "True"), Fine).0;
    assert Run(cfg, ReadySlo(slo, m1), v1) == Run(cfg, ReadyRule(m1), v2);
    RuleMarked(v2, m1);
    v' := PutRuleStatus(v2, m1.(status := "True"), Fine).0;
    assert Run(cfg, ReadyRule(m1), v2) == (Settled, v');
  }

  // ----- The last stage -----

  /** The status a concluding call leaves. */
  function ConcludedStatus(status: SloStatus, now: int): SloStatus
  {
    WithCondition(status, "Ready", "True", "PrometheusRule created", now)
  }

  lemma ConcludedReady(status: SloStatus, now: int)
    ensures ReadyTrue(ConcludedStatus(status, now)) && ConcludedStatus(status, now).ready == "True"
    ensures ReadyTrue(status) && status.ready == "True" ==> ConcludedStatus(status, now) == status
  {
    hide Updated, Find;
    FindUpdated(status.conditions, NewCondition("Ready", "True", "PrometheusRule created", now), now);
  }

  lemma AlertingMade(slo: Slo, a: AlertManagerConfig, b: AlertManagerConfig)
    requires a.spec == NewAlerting(slo).spec && b.spec == a.spec
    requires a.meta == NewAlerting(slo).meta.(uid := a.meta.uid, version := a.meta.version)
    requires b.meta == a.meta.(owners := WithOwner(a.meta.owners, OwnerOf(slo)), version := b.meta.version)
    ensures AlertingFor(b, slo)
  {
  }

  lemma RunMakeAlerting(cfg: Config, v: World, slo: Slo) returns (v': World)
    requires v.alerting.None?
    ensures Run(cfg, MakeAlerting(slo), v) == Run(cfg, Conclude(slo), v')
    ensures v' == v.(alerting := v'.alerting, clock := v'.clock)
    ensures v'.alerting.Some? && AlertingFor(v'.alerting.value, slo)
  {
    hide AdvanceFinalizing, AdvanceResolving, AdvanceMakingProm, AdvanceMakingRule, PutSloStatus, CreateAlerting,
      PutAlerting, NewAlerting, Owned, WithCondition, AlertingFor, WithOwner;
    AlertingCreated(v, slo);
    var a, u := CreateAlerting(v, NewAlerting(slo), Fine).1.obj, CreateAlerting(v, NewAlerting(slo), Fine).0;
    assert Run(cfg, MakeAlerting(slo), v) == Run(cfg, OwnAlerting(slo, a), u);
    AlertingOwned(u, a, slo);
    v' := PutAlerting(u, Owned(a, slo), Fine).0;
    AlertingMade(slo, a, v'.alerting.value);
    assert Run(cfg, OwnAlerting(slo, a), u) == Run(cfg, Conclude(slo), v');
  }

  /** The alerting configuration, if it is wanted and not there. */
  lemma RunAlerting(cfg: Config, v: World, slo: Slo) returns (v': World)
    ensures Run(cfg, AfterRule(slo), v) == Run(cfg, Conclude(slo), v')
    ensures v' == v.(alerting := v'.alerting, clock := v'.clock)
    ensures
      if Get(slo.meta.annotations, "osko.dev/magicAlerting") == "true" && v.alerting.None? then
        v'.alerting.Some? && AlertingFor(v'.alerting.value, slo)
      else v' == v
  {
    hide AdvanceFinalizing, AdvanceResolving, AdvanceMakingProm, AdvanceMakingRule, PutSloStatus, CreateAlerting,
      PutAlerting, NewAlerting, Owned, WithCondition, AlertingFor;
    v' := v;
    if WantsAlerting(slo) && v.alerting.None? {
      assert Run(cfg, AfterRule(slo), v) == Run(cfg, MakeAlerting(slo), v);
      v' := RunMakeAlerting(cfg, v, slo);
    } else if WantsAlerting(slo) {
      assert Run(cfg, AfterRule(slo), v) == Run(cfg, Conclude(slo), v);
    }
  }

  /** The end of the last stage: the alerting configuration, if wanted, and the Ready condition. */
  lemma RunConclude(cfg: Config, v: World, slo: Slo) returns (v': World)
    requires v.slo == Some(slo) && !slo.meta.deleting
    ensures Run(cfg, AfterRule(slo), v) == (Settled, v')
    ensures v' == v.(alerting := v'.alerting, slo := v'.slo, clock := v'.clock)
    ensures
      if Get(slo.meta.annotations, "osko.dev/magicAlerting") == "true" && v.alerting.None? then
        v'.alerting.Some? && AlertingFor(v'.alerting.value, slo)
      else v'.alerting == v.alerting
    ensures v'.slo.Some? && StatusMoved(slo, v'.slo.value, ConcludedStatus(slo.status, v.now))
    ensures (WantsAlerting(slo) ==> v.alerting.Some?) && ConcludedStatus(slo.status, v.now) == slo.status ==> v' == v
  {
    hide AdvanceFinalizing, AdvanceResolving, AdvanceMakingProm, AdvanceMakingRule, PutSloStatus, CreateAlerting,
      PutAlerting, NewAlerting, Owned, WithCondition, AlertingFor, AfterRule;
    var v1 := RunAlerting(cfg, v, slo);
    StatusStored(v1, slo, ConcludedStatus(slo.status, v1.now));
    v' := PutSloStatus(v1, slo.(status := ConcludedStatus(slo.status, v1.now)), Fine).0;
    assert Run(cfg, Conclude(slo), v1) == (Settled, v');
  }

  lemma ConcludedMarks(a: Slo, b: Slo, now: int)
    requires StatusMoved(a, b, ConcludedStatus(a.status, now))
    ensures Marked(a, b, "True", "PrometheusRule created", now)
  {
    hide Marked, WithCondition;
    MarkedBy(a, "True", "PrometheusRule created", now, b.meta.version);
  }

  /** Stage four: everything exists, and the Ready condition becomes or stays True. */
  lemma LastPass(cfg: Config, w: World)
    requires Live(cfg, w) && SLO_FINALIZER in w.slo.value.meta.finalizers && w.prom.Some? && w.rule.Some?
    ensures var (outcome, w') := Run(cfg, GetSlo, w); var slo := w.slo.value;
      && outcome == Settled && w'.prom == w.prom && w'.rule == w.rule
      && w'.slo.Some? && Marked(slo, w'.slo.value, "True", "PrometheusRule created", w.now)
      && w'.sources == w.sources && (!Inline(slo) ==> w'.slis == w.slis) && SlisWritten(w.slis, w'.slis, slo)
      && (if Get(slo.meta.annotations, "osko.dev/magicAlerting") == "true" && w.alerting.None? then
            w'.alerting.Some? && AlertingFor(w'.alerting.value, slo)
          else w'.alerting == w.alerting)
      && Concluded(w') && Live(cfg, w')
      && (Concluded(w) ==> w' == w)
  {
    hide AdvanceFinalizing, AdvanceResolving, AdvanceMakingProm, AdvanceConcluding, Compiles, SliName, Resolvable,
      Marked, SliSpecOf, InlineStored, ConcludedStatus, ReadyTrue, AfterRule, SlisWritten;
    var slo := w.slo.value;
    LiveSlo(cfg, w);
    var v, source := RunToRule(cfg, w);
    assert Run(cfg, GetRule(slo, source, w.prom.value), v) == Run(cfg, AfterRule(slo), v);
    var v' := RunConclude(cfg, v, slo);
    ConcludedReady(slo.status, v.now);
    ConcludedMarks(slo, v'.slo.value, v.now);
    SameSlis(v, v', slo);
    SameStored(v', slo, v'.slo.value);
    LiveAgain(cfg, w, v');
  }

  lemma SameStored(v: World, a: Slo, b: Slo)
    requires a.spec == b.spec && a.meta.name == b.meta.name
    ensures InlineStored(v, a) <==> InlineStored(v, b)
  {
    SameSliName(a, b);
    hide SliName;
  }

  // ----- Convergence -----

  /** Each failure-free pass strictly lowers the number of stages ahead, or changes nothing at zero. */
  lemma PassAdvances(cfg: Config, w: World)
    requires Live(cfg, w)
    ensures var w' := Run(cfg, GetSlo, w).1;
      && Live(cfg, w')
      && (Ahead(w) > 0 ==> Ahead(w') < Ahead(w))
      && (Ahead(w) == 0 ==> w' == w)
  {
    hide Live, Run, InlineStored, ReadyTrue;
    LiveSlo(cfg, w);
    var slo := w.slo.value;
    var w' := Run(cfg, GetSlo, w).1;
    if SLO_FINALIZER !in slo.meta.finalizers {
      FinalizerPass(cfg, w);
      SameSlis(w, w', slo);
      SameStored(w', slo, w'.slo.value);
    } else if w.prom.None? {
      PromPass(cfg, w);
      SameStored(w', slo, w'.slo.value);
      SameReady(slo.status);
    } else if w.rule.None? {
      RulePass(cfg, w);
      SameStored(w', slo, w'.slo.value);
      SameReady(slo.status);
    } else {
      LastPass(cfg, w);
    }
  }

  lemma SameReady(status: SloStatus)
    ensures ReadyTrue(status.(ready := "True")) <==> ReadyTrue(status)
  {
  }

  /** The world after n failure-free passes, the k-th run at time `times(k)`. */
  function Passes(cfg: Config, w: World, times: nat -> int, n: nat): World
  {
    if n == 0 then w else Run(cfg, GetSlo, Passes(cfg, w, times, n - 1).(now := times(n))).1
  }

  lemma TimeIrrelevant(cfg: Config, w: World, now: int)
    ensures Live(cfg, w.(now := now)) <==> Live(cfg, w)
    ensures w.slo.Some? ==> Ahead(w.(now := now)) == Ahead(w)
  {
    hide Compiles, InlineName, ReadyTrue;
    if w.slo.Some? {
      SameSlis(w, w.(now := now), w.slo.value);
    }
  }

  lemma {:induction false} PassesAdvance(cfg: Config, w: World, times: nat -> int, n: nat)
    requires Live(cfg, w)
    ensures Live(cfg, Passes(cfg, w, times, n))
    ensures Passes(cfg, w, times, n).slo.Some?
    ensures Ahead(Passes(cfg, w, times, n)) <= (if Ahead(w) <= n then 0 else Ahead(w) - n)
    decreases n
  {
    hide Live, Run, Ahead;
    LiveSlo(cfg, w);
    if n > 0 {
      PassesAdvance(cfg, w, times, n - 1);
      var v := Passes(cfg, w, times, n - 1);
      TimeIrrelevant(cfg, v, times(n));
      PassAdvances(cfg, v.(now := times(n)));
      LiveSlo(cfg, Passes(cfg, w, times, n));
    }
  }

  /**
   Four failure-free passes create every child and make the Ready condition True; every further pass,
   however much later, changes nothing, versions and timestamps included.
   */
  lemma {:induction false} FourPassesConverge(cfg: Config, w: World, times: nat -> int, n: nat)
    requires Live(cfg, w) && n >= 4
    ensures var done := Passes(cfg, w, times, 4);
      && done.slo.Some? && ReadyTrue(done.slo.value.status) && done.slo.value.status.ready == "True"
      && done.prom.Some? && done.rule.Some? && (WantsAlerting(done.slo.value) ==> done.alerting.Some?)
      && InlineStored(done, done.slo.value)
      && (n > 4 ==> Passes(cfg, w, times, n) == done.(now := times(n)))
    decreases n
  {
    hide Live, Run, InlineStored, ReadyTrue;
    LiveSlo(cfg, w);
    PassesAdvance(cfg, w, times, 4);
    assert Ahead(w) <= 4;
    var done := Passes(cfg, w, times, 4);
    assert Ahead(done) == 0;
    if n > 4 {
      FourPassesConverge(cfg, w, times, n - 1);
      var v := Passes(cfg, w, times, n - 1);
      assert v.(now := times(n)) == done.(now := times(n));
      TimeIrrelevant(cfg, done, times(n));
      PassAdvances(cfg, done.(now := times(n)));
    }
  }
}
