/**
 * The logs page: the raw event log lines, narrowed by a type tab. The page's only
 * state change is picking a tab, which starts at `All`.
 */
module Logs {
  import opened Lists

  datatype LogEntry = LogEntry(id: int, kind: string, service: string, timestamp: string, message: string)

  /** The tab selected when the page opens. */
  const InitialFilter := "All"

  /** The lines shown under the tab `activeFilter`. */
  function FilteredLogs(logs: seq<LogEntry>, activeFilter: string): (r: seq<LogEntry>)
    // `All` passes the list through untouched.
    ensures activeFilter == "All" ==> r == logs
    // Any other tab shows only lines of its type ...
    ensures activeFilter != "All" ==> forall i :: 0 <= i < |r| ==> r[i].kind == activeFilter
    // ... drops none of them ...
    ensures activeFilter != "All" ==>
      forall l :: multiset(r)[l] == if l.kind == activeFilter then multiset(logs)[l] else 0
    // ... and keeps their order.
    ensures IsSubsequence(r, logs)
  {
    if activeFilter == "All" then
      SubsequenceReflexive(logs);
      logs
    else
      Filter((l: LogEntry) => l.kind == activeFilter, logs)
  }

  /** The page opens showing every line. */
  lemma InitialFilterShowsAll(logs: seq<LogEntry>)
    ensures FilteredLogs(logs, InitialFilter) == logs
  {
  }

  /** A tab whose type every line already has shows the whole list as well. */
  lemma UniformTypeShowsAll(logs: seq<LogEntry>, activeFilter: string)
    requires forall i :: 0 <= i < |logs| ==> logs[i].kind == activeFilter
    ensures FilteredLogs(logs, activeFilter) == logs
  {
    if activeFilter != "All" {
      FilterAll((l: LogEntry) => l.kind == activeFilter, logs);
    }
  }
}
