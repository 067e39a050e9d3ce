/**
 * The alerts page: a list of security alerts that can be resolved or deleted,
 * a type filter chosen from tabs, and a detail view of one selected alert.
 */
module Alerts {
  import opened Common
  import opened Lists

  datatype Alert = Alert(
    id: int,
    kind: string,
    severity: string,
    title: string,
    details: string,
    timestamp: string,
    resolved: bool)

  /** The four colour schemes an alert card can take. */
  datatype Tone = Red | Orange | Yellow | Blue

  /** `getSeverityStyling`: one scheme per named severity, a shared default for the rest. */
  function SeverityTone(severity: string): (t: Tone)
    ensures t == Red <==> severity == "Critical"
    ensures t == Orange <==> severity == "High"
    ensures t == Yellow <==> severity == "Medium"
    ensures t == Blue <==> severity !in {"Critical", "High", "Medium"}
  {
    match severity
    case "Critical" => Red
    case "High" => Orange
    case "Medium" => Yellow
    case _ => Blue
  }

  /** The alert list after `handleResolve(id)`. */
  function Resolve(alerts: seq<Alert>, id: int): (r: seq<Alert>)
    ensures |r| == |alerts|
    // Every alert with that id is now resolved; the others keep their flag ...
    ensures forall i :: 0 <= i < |alerts| ==>
      r[i].resolved == (alerts[i].resolved || alerts[i].id == id)
    // ... and nothing but the flag changes, position by position.
    ensures forall i :: 0 <= i < |alerts| ==> r[i].(resolved := alerts[i].resolved) == alerts[i]
  {
    Map((a: Alert) => if a.id == id then a.(resolved := true) else a, alerts)
  }

  /** Resolving twice is resolving once. */
  lemma ResolveIdempotent(alerts: seq<Alert>, id: int)
    ensures Resolve(Resolve(alerts, id), id) == Resolve(alerts, id)
  {
  }

  /** The alert list after `handleDelete(id)`. */
  function Delete(alerts: seq<Alert>, id: int): (r: seq<Alert>)
    // Exactly the alerts with that id are gone, each other alert as often as before ...
    ensures forall a :: multiset(r)[a] == if a.id == id then 0 else multiset(alerts)[a]
    // ... and in the same relative order.
    ensures IsSubsequence(r, alerts)
  {
    Filter((a: Alert) => a.id != id, alerts)
  }

  /** An id that no alert carries leaves the list as it is. */
  lemma DeleteAbsentId(alerts: seq<Alert>, id: int)
    requires forall i :: 0 <= i < |alerts| ==> alerts[i].id != id
    ensures Delete(alerts, id) == alerts
  {
    FilterAll((a: Alert) => a.id != id, alerts);
  }

  /** The alerts shown under the active filter tab. */
  function VisibleAlerts(alerts: seq<Alert>, activeFilter: string): (r: seq<Alert>)
    ensures activeFilter == "All" ==> r == alerts
    ensures activeFilter != "All" ==>
      && (forall i :: 0 <= i < |r| ==> r[i].kind == activeFilter)
      && (forall a :: multiset(r)[a] == if a.kind == activeFilter then multiset(alerts)[a] else 0)
      && IsSubsequence(r, alerts)
  {
    if activeFilter == "All" then alerts else Filter((a: Alert) => a.kind == activeFilter, alerts)
  }

  /** The detail view offers "Resolve Alert" only for an alert not yet resolved. */
  predicate ResolveOffered(selected: Option<Alert>): (offered: bool)
    ensures offered ==> selected.Some?
    ensures selected.Some? ==> (offered <==> !selected.value.resolved)
  {
    selected.Some? && !selected.value.resolved
  }

  /** Once an id is resolved, none of its alerts, when opened, offers Resolve again. */
  lemma ResolvedAlertNotOffered(alerts: seq<Alert>, id: int, i: int)
    requires 0 <= i < |alerts| && alerts[i].id == id
    ensures !ResolveOffered(Some(Resolve(alerts, id)[i]))
  {
  }

  class AlertsPage {
    var alerts: seq<Alert>
    var selectedAlert: Option<Alert>
    var activeFilter: string

    constructor (initialAlerts: seq<Alert>)
      ensures alerts == initialAlerts && selectedAlert == None && activeFilter == "All"
    {
      alerts := initialAlerts;
      selectedAlert := None;
      activeFilter := "All";
    }

    /** Clicking a filter tab. */
    method SetFilter(name: string)
      modifies this`activeFilter
      ensures activeFilter == name
    {
      activeFilter := name;
    }

    /** Clicking a card opens its alert; only shown cards can be clicked. */
    method Select(a: Alert)
      requires a in VisibleAlerts(alerts, activeFilter)
      modifies this`selectedAlert
      ensures selectedAlert == Some(a)
    {
      selectedAlert := Some(a);
    }

    /** Closing the detail view. */
    method CloseDetails()
      modifies this`selectedAlert
      ensures selectedAlert == None
    {
      selectedAlert := None;
    }

    method HandleResolve(id: int)
      modifies this`alerts, this`selectedAlert
      ensures alerts == Resolve(old(alerts), id)
      // The detail view closes when its alert was the one acted on, and only then.
      ensures old(selectedAlert).Some? && old(selectedAlert).value.id == id ==> selectedAlert == None
      ensures !(old(selectedAlert).Some? && old(selectedAlert).value.id == id) ==>
        selectedAlert == old(selectedAlert)
    {
      alerts := Resolve(alerts, id);
      if selectedAlert.Some? && selectedAlert.value.id == id {
        selectedAlert := None;
      }
    }

    method HandleDelete(id: int)
      modifies this`alerts, this`selectedAlert
      ensures alerts == Delete(old(alerts), id)
      // The detail view closes when its alert was the one acted on, and only then.
      ensures old(selectedAlert).Some? && old(selectedAlert).value.id == id ==> selectedAlert == None
      ensures !(old(selectedAlert).Some? && old(selectedAlert).value.id == id) ==>
        selectedAlert == old(selectedAlert)
    {
      alerts := Delete(alerts, id);
      if selectedAlert.Some? && selectedAlert.value.id == id {
        selectedAlert := None;
      }
    }

    /** The detail view's "Resolve Alert" button: present only while the alert is unresolved. */
    method ClickResolve()
      requires ResolveOffered(selectedAlert)
      modifies this`alerts, this`selectedAlert
      ensures alerts == Resolve(old(alerts), old(selectedAlert).value.id)
      ensures selectedAlert == None
    {
      HandleResolve(selectedAlert.value.id);
    }

    /** The detail view's "Delete" button. */
    method ClickDelete()
      requires selectedAlert.Some?
      modifies this`alerts, this`selectedAlert
      ensures alerts == Delete(old(alerts), old(selectedAlert).value.id)
      ensures selectedAlert == None
    {
      HandleDelete(selectedAlert.value.id);
    }
  }
}
