/** The in-memory store (app/cases/store.py): dictionaries and an event list, changed in place. */
module CaseStore {
  import opened Wrappers
  import opened Dicts
  import opened Models
  import opened Lifecycle
  import opened WriteLog
  import Audit
  import Sorting

  class InMemoryStore {
    var cases: Dict<string, SecurityCase>
    var events: seq<Event>
    var findings: Dict<string, Finding>
    var handoffs: Dict<string, Handoff>
    var objectives: Dict<string, Objective>
    var callbacks: Dict<string, Callback>

    /** Every put so far, in order: what the durable store has appended to its files. */
    ghost var written: seq<Write>

    /** The store's content as a value. Records are values: what callers get or put is a copy. */
    function View(): State
      reads this
    {
      State(cases, events, findings, handoffs, objectives, callbacks)
    }

    /** Every record sits under its own id. */
    ghost predicate Valid()
      reads this
    {
      && (forall k | k in cases.m :: cases.m[k].caseId == k)
      && (forall k | k in findings.m :: findings.m[k].findingId == k)
      && (forall k | k in handoffs.m :: handoffs.m[k].handoffId == k)
      && (forall k | k in objectives.m :: objectives.m[k].objectiveId == k)
      && (forall k | k in callbacks.m :: callbacks.m[k].eventId == k)
    }

    lemma ObjectivesUnderOwnIds()
      requires Valid()
      ensures forall k | k in View().objectives.m :: View().objectives.m[k].objectiveId == k
    {
    }

    constructor ()
      ensures Valid() && View() == EmptyState() && written == []
    {
      cases, events, findings := Empty<string, SecurityCase>(), [], Empty<string, Finding>();
      handoffs, objectives, callbacks := Empty<string, Handoff>(), Empty<string, Objective>(), Empty<string, Callback>();
      written := [];
    }

    // --- cases ---

    method GetCase(id: string) returns (r: Option<SecurityCase>)
      requires Valid()
      ensures r == View().cases.Get(id) && (r.Some? ==> r.value.caseId == id)
    {
      r := cases.Get(id);
    }

    /** The first case in insertion order with the fingerprint. */
    method GetCaseByFingerprint(fingerprint: string) returns (r: Option<SecurityCase>)
      requires Valid()
      ensures r == CaseByFingerprint(View(), fingerprint)
      ensures r.Some? ==> View().cases.Get(r.value.caseId) == r
    {
      if fingerprint == "" {
        return None;
      }
      for i := 0 to |cases.keys|
        invariant FindCase(cases.keys, cases.m, fingerprint) == FindCase(cases.keys[i..], cases.m, fingerprint)
      {
        var c := cases.m[cases.keys[i]];
        if c.fingerprint == fingerprint {
          return Some(c);
        }
      }
      r := None;
    }

    method PutCase(c: SecurityCase)
      requires Valid()
      modifies this
      ensures Valid() && View() == old(View()).(cases := old(View()).cases.Put(c.caseId, c))
      ensures written == old(written) + [CaseWrite(c)]
    {
      cases := cases.Put(c.caseId, c);
      written := written + [CaseWrite(c)];
    }

    /** All cases, or those of one status, oldest first. */
    method ListCases(status: Option<CaseStatus>) returns (r: seq<SecurityCase>)
      ensures r == Lifecycle.ListCases(View(), status)
    {
      var found := [];
      var keys := cases.keys;
      for i := 0 to |keys|
        invariant found == SelectCases(keys[..i], cases.m, status)
      {
        assert keys[..i + 1][..i] == keys[..i];
        var c := cases.m[keys[i]];
        if status.None? || c.status == status.value {
          found := found + [c];
        }
      }
      assert keys[..|keys|] == keys;
      r := Sorting.SortBy(found, OpenedAt);
    }

    // --- audit ---

    method AppendEvent(e: Event)
      requires Valid()
      modifies this
      ensures Valid() && View() == old(View()).(events := old(View()).events + [e])
      ensures written == old(written) + [EventWrite(e)]
    {
      events := events + [e];
      written := written + [EventWrite(e)];
    }

    method ListEvents(caseId: string) returns (r: seq<Event>)
      ensures r == Audit.LogOf(View().events, caseId)
    {
      r := [];
      for i := 0 to |events|
        invariant r == Audit.LogOf(events[..i], caseId)
      {
        assert events[..i + 1][..i] == events[..i];
        if events[i].caseId == caseId {
          r := r + [events[i]];
        }
      }
      assert events[..|events|] == events;
    }

    // --- findings ---

    method PutFinding(f: Finding)
      requires Valid()
      modifies this
      ensures Valid() && View() == old(View()).(findings := old(View()).findings.Put(f.findingId, f))
      ensures written == old(written) + [FindingWrite(f)]
    {
      findings := findings.Put(f.findingId, f);
      written := written + [FindingWrite(f)];
    }

    // --- handoffs and objectives ---

    method PutHandoff(h: Handoff)
      requires Valid()
      modifies this
      ensures Valid() && View() == old(View()).(handoffs := old(View()).handoffs.Put(h.handoffId, h))
      ensures written == old(written) + [HandoffWrite(h)]
    {
      handoffs := handoffs.Put(h.handoffId, h);
      written := written + [HandoffWrite(h)];
    }

    method GetHandoff(id: string) returns (r: Option<Handoff>)
      requires Valid()
      ensures r == View().handoffs.Get(id) && (r.Some? ==> r.value.handoffId == id)
    {
      r := handoffs.Get(id);
    }

    method GetHandoffByIdempotencyKey(key: string) returns (r: Option<Handoff>)
      ensures r == HandoffByKey(View(), key)
    {
      if key == "" {
        return None;
      }
      for i := 0 to |handoffs.keys|
        invariant FindHandoff(handoffs.keys, handoffs.m, key) == FindHandoff(handoffs.keys[i..], handoffs.m, key)
      {
        var h := handoffs.m[handoffs.keys[i]];
        if h.idempotencyKey == key {
          return Some(h);
        }
      }
      r := None;
    }

    method PutObjective(o: Objective)
      requires Valid()
      modifies this
      ensures Valid() && View() == old(View()).(objectives := old(View()).objectives.Put(o.objectiveId, o))
      ensures written == old(written) + [ObjectiveWrite(o)]
    {
      objectives := objectives.Put(o.objectiveId, o);
      written := written + [ObjectiveWrite(o)];
    }

    method ListObjectives(handoffId: Option<string>, caseId: Option<string>) returns (r: seq<Objective>)
      ensures r == Lifecycle.ListObjectives(View(), handoffId, caseId)
    {
      var found := [];
      var keys := objectives.keys;
      for i := 0 to |keys|
        invariant found == SelectObjectives(keys[..i], objectives.m, handoffId, caseId)
      {
        assert keys[..i + 1][..i] == keys[..i];
        var o := objectives.m[keys[i]];
        if Concerns(o, handoffId, caseId) {
          found := found + [o];
        }
      }
      assert keys[..|keys|] == keys;
      r := Sorting.SortBy(found, CreatedAt);
    }

    // --- callbacks ---

    method GetCallback(eventId: string) returns (r: Option<Callback>)
      ensures r == CallbackFor(View(), eventId)
    {
      r := if eventId == "" then None else callbacks.Get(eventId);
    }

    method PutCallback(record: Callback)
      requires Valid()
      modifies this
      ensures Valid() && View() == old(View()).(callbacks := old(View()).callbacks.Put(record.eventId, record))
      ensures written == old(written) + [CallbackWrite(record)]
    {
      callbacks := callbacks.Put(record.eventId, record);
      written := written + [CallbackWrite(record)];
    }
  }
}
