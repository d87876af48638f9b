/** The Kubernetes objects the operator reads and writes, and its process-wide configuration. */
module Api {
  import opened Text
  import opened Selectors

  datatype OwnerRef = OwnerRef(kind: string, name: string, uid: nat, controller: bool)

  /** Object metadata; uid and version 0 stand for "not set". */
  datatype Meta = Meta(
    name: string, namespace: string, labels: Labels, annotations: Labels,
    owners: seq<OwnerRef>, finalizers: seq<string>, deleting: bool, uid: nat, version: nat)

  datatype Object<S, T> = Object(meta: Meta, spec: S, status: T)

  const NO_META := Meta("", "", map[], map[], [], [], false, 0, 0)

  // ----- OpenSLO objects -----

  /** `kind` is the metric source type: prometheus, mimir, and so on. */
  datatype MetricSource = MetricSource(ref: string, kind: string, query: string)

  datatype RatioMetric = RatioMetric(
    raw: MetricSource, rawType: string, good: MetricSource, bad: MetricSource, total: MetricSource, counter: bool)

  datatype SliSpec = SliSpec(description: string, threshold: MetricSource, ratio: RatioMetric)

  /** An SLI written inside an SLO. */
  datatype Indicator = Indicator(name: string, spec: SliSpec)

  /** `timeWindows` holds the window durations, `targets` the objectives' target texts. */
  datatype SloSpec = SloSpec(
    service: string, indicator: Option<Indicator>, indicatorRef: Option<string>,
    timeWindows: seq<string>, targets: seq<string>)

  datatype Condition = Condition(kind: string, status: string, reason: string, message: string, time: int)

  datatype SloStatus = SloStatus(conditions: seq<Condition>, ready: string)

  type Slo = Object<SloSpec, SloStatus>
  type Sli = Object<SliSpec, ()>

  const NO_SOURCE := MetricSource("", "", "")
  const NO_SLI_SPEC := SliSpec("", NO_SOURCE, RatioMetric(NO_SOURCE, "", NO_SOURCE, NO_SOURCE, NO_SOURCE, false))
  const NO_SLI: Sli := Object(NO_META, NO_SLI_SPEC, ())
  const NO_SLO: Slo := Object(NO_META, SloSpec("", None, None, [], []), SloStatus([], ""))

  datatype Connection = Connection(address: string, targetTenant: string, sourceTenants: seq<string>, sync: bool)

  type Datasource = Object<Connection, ()>

  /** The secret an AlertManagerConfig points at. */
  datatype SecretRef = SecretRef(name: string, namespace: string)

  type AlertManagerConfig = Object<SecretRef, ()>

  /** Reading a missing map key gives the empty string. */
  function Get(m: Labels, key: string): string
  {
    if key in m then m[key] else ""
  }

  // ----- Configuration and library calls -----

  /**
   Environment settings and the library functions the operator calls: number and duration parsing,
   the severity lookup of the alerting tool, and whether a Mimir client can be built for an address.
   */
  datatype Config = Config(
    parseFloat: string -> Option<real>,
    parseDuration: string -> Option<nat>,
    severity: (string, Severity) -> string,
    validAddress: string -> bool,
    pageShortWindow: real, pageLongWindow: real, ticketShortWindow: real, ticketLongWindow: real,
    defaultBaseWindow: string,
    alertingTool: string)

  datatype Severity = PageCritical | PageHigh | TicketHigh | TicketMedium
}
