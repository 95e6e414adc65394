/** Diagnostic Event Manager (Dem.c): a fixed table of ten diagnostic events
    with report (deduplicating), clear and check. */
module Dem {
  import opened StdTypes

  const MAX_DIAGNOSTIC_EVENTS: nat := 10

  /** event_description is a char[50]; strncpy copies at most 49 characters,
      leaving the last byte as the terminator. */
  const DESCRIPTION_LENGTH: nat := 49

  /** The id Init writes into every slot: -1 stored in a uint16. */
  const UNUSED_ID: uint16 := ToUint16(-1)

  /** Dem_EventType. */
  datatype Event = Event(id: uint16, description: string, active: bool)

  /** diagnostic_events and event_count. */
  datatype Table = Table(events: seq<Event>, count: nat)

  /** The shape the C globals always have: ten slots, at most ten in use. */
  predicate WellFormed(t: Table) {
    |t.events| == MAX_DIAGNOSTIC_EVENTS && t.count <= MAX_DIAGNOSTIC_EVENTS
  }

  /** The table invariant: well formed, and the ids of the slots in use are
      pairwise distinct. */
  predicate Valid(t: Table) {
    WellFormed(t) &&
    forall i, j :: 0 <= i < j < t.count ==> t.events[i].id != t.events[j].id
  }

  /** The slot the C loops over the first event_count entries stop at, if any. */
  function Lookup(t: Table, id: uint16): (r: Option<nat>)
    requires WellFormed(t)
    ensures r.None? <==> forall j :: 0 <= j < t.count ==> t.events[j].id != id
    ensures r.Some? ==> r.value < t.count && t.events[r.value].id == id &&
                        forall j :: 0 <= j < r.value ==> t.events[j].id != id
  {
    var k := FirstIndex(t.events[..t.count], (e: Event) => e.id == id);
    if k < t.count then Some(k) else None
  }

  /** The characters strncpy leaves in event_description. */
  function Truncate(description: string): (d: string)
    ensures |d| <= DESCRIPTION_LENGTH
    ensures d <= description
    ensures |description| <= DESCRIPTION_LENGTH ==> d == description
    ensures |description| > DESCRIPTION_LENGTH ==> |d| == DESCRIPTION_LENGTH
  {
    if |description| <= DESCRIPTION_LENGTH then description
    else description[..DESCRIPTION_LENGTH]
  }

  /** Dem_Init: every slot gets id 65535, inactive, empty description. */
  function Init(): (t: Table)
    ensures Valid(t) && t.count == 0
    ensures forall i :: 0 <= i < |t.events| ==> t.events[i] == Event(UNUSED_ID, "", false)
  {
    Table(seq(MAX_DIAGNOSTIC_EVENTS, _ => Event(UNUSED_ID, "", false)), 0)
  }

  /** Dem_ReportErrorStatus: a full table ignores the report; a known id is
      re-activated in place; a new id is appended as active. */
  function Report(t: Table, id: uint16, description: string): (r: Table)
    requires WellFormed(t)
    ensures WellFormed(r)
    ensures t.count >= MAX_DIAGNOSTIC_EVENTS ==> r == t
    ensures t.count < MAX_DIAGNOSTIC_EVENTS && Lookup(t, id).Some? ==>
      r.count == t.count &&
      r.events == t.events[Lookup(t, id).GetOr(0) := t.events[Lookup(t, id).GetOr(0)].(active := true)]
    ensures t.count < MAX_DIAGNOSTIC_EVENTS && Lookup(t, id).None? ==>
      r.count == t.count + 1 &&
      r.events == t.events[t.count := Event(id, Truncate(description), true)]
  {
    if t.count >= MAX_DIAGNOSTIC_EVENTS then t
    else
      match Lookup(t, id)
      case Some(i) => t.(events := t.events[i := t.events[i].(active := true)])
      case None => Table(t.events[t.count := Event(id, Truncate(description), true)], t.count + 1)
  }

  /** Dem_ClearErrorStatus: the matching event becomes inactive; an unknown id
      changes nothing. */
  function Clear(t: Table, id: uint16): (r: Table)
    requires WellFormed(t)
    ensures WellFormed(r) && r.count == t.count
    ensures Lookup(t, id).None? ==> r == t
    ensures Lookup(t, id).Some? ==>
      r.events == t.events[Lookup(t, id).GetOr(0) := t.events[Lookup(t, id).GetOr(0)].(active := false)]
  {
    match Lookup(t, id)
    case Some(i) => t.(events := t.events[i := t.events[i].(active := false)])
    case None => t
  }

  /** Dem_CheckErrorStatus: 1 active, 0 inactive, -1 unknown. */
  function Check(t: Table, id: uint16): (status: int)
    requires WellFormed(t)
    ensures status == -1 <==> forall j :: 0 <= j < t.count ==> t.events[j].id != id
    ensures status == 1 <==> exists j :: 0 <= j < t.count && t.events[j].id == id && t.events[j].active &&
                                         forall k :: 0 <= k < j ==> t.events[k].id != id
    ensures status == 0 <==> exists j :: 0 <= j < t.count && t.events[j].id == id && !t.events[j].active &&
                                         forall k :: 0 <= k < j ==> t.events[k].id != id
  {
    match Lookup(t, id)
    case Some(i) => if t.events[i].active then 1 else 0
    case None => -1
  }

  /** In a valid table an id occurs at most once, so Check answers 1 exactly
      when some slot in use holds the id and is active. */
  lemma CheckActiveIffPresent(t: Table, id: uint16)
    requires Valid(t)
    ensures Check(t, id) == 1 <==>
      exists j :: 0 <= j < t.count && t.events[j].id == id && t.events[j].active
  {
    if j :| 0 <= j < t.count && t.events[j].id == id && t.events[j].active {
      assert forall k :: 0 <= k < j ==> t.events[k].id != id;
    }
  }

  /** After Init no id is known. */
  lemma InitKnowsNothing(id: uint16)
    ensures Check(Init(), id) == -1
  {
  }

  /** Report keeps the table invariant: at most ten events, distinct ids. */
  lemma ReportPreservesValid(t: Table, id: uint16, description: string)
    requires Valid(t)
    ensures Valid(Report(t, id, description))
  {
    var r := Report(t, id, description);
    if t.count < MAX_DIAGNOSTIC_EVENTS && Lookup(t, id).None? {
      forall i, j | 0 <= i < j < r.count
        ensures r.events[i].id != r.events[j].id
      {
        if j == t.count {
          assert r.events[i] == t.events[i];
        }
      }
    }
  }

  /** Clear keeps the table invariant. */
  lemma ClearPreservesValid(t: Table, id: uint16)
    requires Valid(t)
    ensures Valid(Clear(t, id))
  {
    var r := Clear(t, id);
    assert forall i :: 0 <= i < |t.events| ==> r.events[i].id == t.events[i].id;
  }

  /** Reporting an id while the table has room makes Check answer 1. */
  lemma ReportThenCheck(t: Table, id: uint16, description: string)
    requires WellFormed(t)
    requires t.count < MAX_DIAGNOSTIC_EVENTS
    ensures Check(Report(t, id, description), id) == 1
  {
    var r := Report(t, id, description);
    match Lookup(t, id)
    case Some(i) =>
      assert r.events[i].active && forall k :: 0 <= k < i ==> r.events[k].id != id;
    case None =>
      assert r.events[t.count].active && forall k :: 0 <= k < t.count ==> r.events[k].id != id;
  }

  /** Clearing a known id makes Check answer 0; an unknown id stays unknown. */
  lemma ClearThenCheck(t: Table, id: uint16)
    requires WellFormed(t)
    ensures Check(Clear(t, id), id) == if Check(t, id) == -1 then -1 else 0
  {
    var r := Clear(t, id);
    match Lookup(t, id)
    case Some(i) =>
      assert !r.events[i].active && forall k :: 0 <= k < i ==> r.events[k].id == t.events[k].id;
    case None =>
  }

  /** Clearing one id leaves what Check answers for every other id. */
  lemma ClearLeavesOthers(t: Table, id: uint16, other: uint16)
    requires WellFormed(t)
    requires other != id
    ensures Check(Clear(t, id), other) == Check(t, other)
  {
    var r := Clear(t, id);
    assert forall k :: 0 <= k < |t.events| ==> r.events[k].id == t.events[k].id;
    assert forall k :: 0 <= k < |t.events| && t.events[k].id == other ==> r.events[k] == t.events[k];
  }

  /** Reporting one id leaves what Check answers for every other id. */
  lemma ReportLeavesOthers(t: Table, id: uint16, description: string, other: uint16)
    requires WellFormed(t)
    requires other != id
    ensures Check(Report(t, id, description), other) == Check(t, other)
  {
    var r := Report(t, id, description);
    if t.count < MAX_DIAGNOSTIC_EVENTS {
      assert forall k :: 0 <= k < t.count ==> r.events[k].id == t.events[k].id;
      assert forall k :: 0 <= k < t.count && t.events[k].id == other ==> r.events[k] == t.events[k];
    }
  }
}
