/**
 * The monitoring session's records: interactions captured by the performance
 * observer, the per-component aggregates folded into them, and the monitor
 * and session singletons the flush reads and updates.
 */
module MonitorTypes {
  import opened Common
  import opened Fibers

  /** The fields of a performance entry that the store and the flush read. */
  datatype PerformanceEntry = PerformanceEntry(entryType: string, startTime: real, duration: real, timestamp: real)

  /** Per-component aggregate inside one interaction. */
  datatype Component = Component(
    fibers: set<FiberId>,
    name: string,
    renders: int,
    totalTime: real,
    retiresAllowed: int)

  /** A captured interaction; `renders` is the extra field the flush writes onto it. */
  datatype Interaction = Interaction(
    entry: PerformanceEntry,
    componentPath: string,
    componentName: string,
    components: OMap<string, Component>,
    renders: Option<int>)

  datatype Monitor = Monitor(
    pendingRequests: int,
    url: Option<string>,
    apiKey: Option<string>,
    interactions: seq<Interaction>,
    route: Option<string>,
    path: string)

  /** The session fields the flush overwrites; the rest of the session is carried in `info`. */
  datatype Session = Session(info: nat, url: string, route: Option<string>)

  /** Every interaction's component map is a well-formed ordered map. */
  ghost predicate ValidInteractions(xs: seq<Interaction>) {
    forall i :: 0 <= i < |xs| ==> ValidOMap(xs[i].components)
  }
}
