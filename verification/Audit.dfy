/**
 Reading a case back from the audit trail: a fold over the events of one case that knows
 nothing of the store. Event sourcing says that it yields what the store holds.
 */
module Audit {
  import opened Wrappers
  import opened Models
  import opened Lifecycle
  import Lhp = LhpHandoff

  /** The part of a case that its events determine; free texts up to the bound on payloads. */
  datatype Trail = Trail(
    status: CaseStatus, passCount: nat, degraded: bool,
    handoffIds: seq<string>, handoffStatus: Option<Lhp.HandoffStatus>,
    issueUrl: string, issueId: string, acknowledgedBy: string, resolutionReason: string)

  function Project(c: SecurityCase): Trail {
    Trail(c.status, c.passCount, c.scanDegraded, c.handoffIds, c.handoffStatus,
          BoundText(c.issueUrl), BoundText(c.issueId), BoundText(c.acknowledgedBy), BoundText(c.resolutionReason))
  }

  function AddId(ids: seq<string>, id: string): seq<string> {
    if id in ids then ids else ids + [id]
  }

  function Unborn(): Trail {
    Trail(Open, 0, false, [], None, BoundText(""), BoundText(""), BoundText(""), BoundText(""))
  }

  /** What one event does to a trail. */
  function Advance(t: Trail, e: EventKind): Trail {
    match e
    case CaseOpened(_, _) => Unborn()
    case Reopened(_, _) => t.(status := Open, passCount := 0, degraded := false)
    case RefreshFailing(_, _) => t.(passCount := 0, degraded := false)
    case PositiveRecheck(_, _) => t.(passCount := t.passCount + 1, degraded := false)
    case ScanDegraded(_) => t.(degraded := true)
    case MovedToTriaged(_) => t.(status := Triaged)
    case MovedToNeedsHuman(_, _) => t.(status := NeedsHuman)
    case Acknowledged(operator) => t.(acknowledgedBy := operator)
    case HandoffAsked(handoffId, _) =>
      t.(status := if t.status == HandoffInProgress then t.status else HandoffRequested,
         handoffIds := AddId(t.handoffIds, handoffId), handoffStatus := Some(Lhp.Requested))
    case IssueOpened(url, id) => t.(issueUrl := url, issueId := id)
    case EngineeringUpdated(updateType, handoffStatus, _) =>
      t.(status := StatusAfterUpdate(t.status, updateType, handoffStatus), handoffStatus := Some(handoffStatus))
    case CaseResolved(_, _, _, reason) =>
      t.(status := Resolved, resolutionReason := reason,
         handoffStatus := if t.handoffIds != [] then Some(Lhp.Resolved) else t.handoffStatus)
  }

  function Replay(log: seq<Event>): Trail {
    if log == [] then Unborn() else Advance(Replay(log[..|log| - 1]), log[|log| - 1].kind)
  }

  /** The events of one case, in order. */
  function LogOf(events: seq<Event>, caseId: string): seq<Event> {
    if events == [] then []
    else
      var n := |events| - 1;
      LogOf(events[..n], caseId) + if events[n].caseId == caseId then [events[n]] else []
  }

  lemma {:induction false} LogOfAppend(a: seq<Event>, b: seq<Event>, caseId: string)
    ensures LogOf(a + b, caseId) == LogOf(a, caseId) + LogOf(b, caseId)
  {
    if b == [] {
      assert a + b == a;
    } else {
      var n := |b| - 1;
      assert (a + b)[..|a| + n] == a + b[..n];
      LogOfAppend(a, b[..n], caseId);
    }
  }

  lemma {:induction false} LogOfOthers(events: seq<Event>, caseId: string)
    requires forall e | e in events :: e.caseId != caseId
    ensures LogOf(events, caseId) == []
  {
    if events != [] {
      LogOfOthers(events[..|events| - 1], caseId);
    }
  }

  lemma {:induction false} LogOfOwn(events: seq<Event>, caseId: string)
    requires forall e | e in events :: e.caseId == caseId
    ensures LogOf(events, caseId) == events
  {
    if events != [] {
      var n := |events| - 1;
      LogOfOwn(events[..n], caseId);
      assert events[n] in events;
      assert LogOf(events, caseId) == LogOf(events[..n], caseId) + [events[n]];
      hide LogOf;
    }
  }

  lemma ReplayOne(log: seq<Event>, e: Event)
    ensures Replay(log + [e]) == Advance(Replay(log), e.kind)
  {
    hide Advance;
    assert (log + [e])[..|log|] == log;
  }

  lemma ReplayTwo(log: seq<Event>, e0: Event, e1: Event)
    ensures Replay(log + [e0, e1]) == Advance(Advance(Replay(log), e0.kind), e1.kind)
  {
    hide Advance;
    ReplayOne(log, e0);
    ReplayOne(log + [e0], e1);
    assert log + [e0, e1] == log + [e0] + [e1];
  }
}
