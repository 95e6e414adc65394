/** Diagnostic Communication Manager (Dcm.c): dispatches a diagnostic request
    on its service id, answers it, and for Clear DTC clears events in the Dem
    table. */
module Dcm {
  import opened StdTypes
  import Dem

  const DIAGNOSTIC_SESSION_CONTROL: uint16 := 0x10
  const ECU_RESET: uint16 := 0x11
  const READ_DTC: uint16 := 0x19
  const CLEAR_DTC: uint16 := 0x14

  /** Dcm_MessageType: the service id and its (unused) payload. */
  datatype Message = Message(serviceId: uint16, data: string)

  /** What Dcm_SendResponse is given: the service id and the response text. */
  datatype Response = Response(serviceId: uint16, text: string)

  /** Clears event ids 0, 1, ..., n - 1 in that order. */
  function ClearIds(t: Dem.Table, n: nat): (r: Dem.Table)
    requires Dem.WellFormed(t)
    requires n <= 0x1_0000
    ensures Dem.WellFormed(r) && r.count == t.count
  {
    if n == 0 then t else Dem.Clear(ClearIds(t, n - 1), n - 1)
  }

  /** Dcm_ProcessRequest: the response for the request's service and the Dem
      table afterwards. */
  function ProcessRequest(t: Dem.Table, request: Message): (r: (Dem.Table, Response))
    requires Dem.WellFormed(t)
    ensures r.1.serviceId == request.serviceId
    ensures request.serviceId == DIAGNOSTIC_SESSION_CONTROL <==> r.1.text == "Session Control Acknowledged"
    ensures request.serviceId == ECU_RESET <==> r.1.text == "ECU Reset Acknowledged"
    ensures request.serviceId == READ_DTC <==> r.1.text == "Read DTC Acknowledged"
    ensures request.serviceId == CLEAR_DTC <==> r.1.text == "Clear DTC Acknowledged"
    ensures request.serviceId !in {DIAGNOSTIC_SESSION_CONTROL, ECU_RESET, READ_DTC, CLEAR_DTC} <==>
      r.1.text == "Unknown Service ID"
    ensures request.serviceId != CLEAR_DTC ==> r.0 == t
    ensures Dem.WellFormed(r.0) && r.0.count == t.count
  {
    var id := request.serviceId;
    if id == DIAGNOSTIC_SESSION_CONTROL then (t, Response(id, "Session Control Acknowledged"))
    else if id == ECU_RESET then (t, Response(id, "ECU Reset Acknowledged"))
    else if id == READ_DTC then (t, Response(id, "Read DTC Acknowledged"))
    else if id == CLEAR_DTC then
      (ClearIds(t, Dem.MAX_DIAGNOSTIC_EVENTS), Response(id, "Clear DTC Acknowledged"))
    else (t, Response(id, "Unknown Service ID"))
  }

  /** After clearing ids 0..n-1, each of those that was known reads inactive;
      every other id answers Check as before. */
  lemma {:induction false} ClearIdsEffect(t: Dem.Table, n: nat, id: uint16)
    requires Dem.WellFormed(t)
    requires n <= 0x1_0000
    ensures Dem.Check(ClearIds(t, n), id) ==
      if id < n && Dem.Check(t, id) != -1 then 0 else Dem.Check(t, id)
  {
    if n > 0 {
      var before := ClearIds(t, n - 1);
      ClearIdsEffect(t, n - 1, id);
      if id == n - 1 {
        Dem.ClearThenCheck(before, id);
      } else {
        Dem.ClearLeavesOthers(before, n - 1, id);
      }
    }
  }

  /** Clear DTC clears by event id, not by slot: events whose id is 0..9
      become inactive, every other event keeps its status, and no event is
      removed. */
  lemma ClearDtcByEventId(t: Dem.Table, data: string, id: uint16)
    requires Dem.WellFormed(t)
    ensures var r := ProcessRequest(t, Message(CLEAR_DTC, data)).0;
      r.count == t.count &&
      Dem.Check(r, id) == if id < 10 && Dem.Check(t, id) != -1 then 0 else Dem.Check(t, id)
  {
    ClearIdsEffect(t, Dem.MAX_DIAGNOSTIC_EVENTS, id);
  }

  /** An active event with an id of 10 or more survives Clear DTC. */
  lemma HighIdSurvivesClearDtc(t: Dem.Table, data: string, id: uint16)
    requires Dem.WellFormed(t)
    requires id >= 10 && Dem.Check(t, id) == 1
    ensures Dem.Check(ProcessRequest(t, Message(CLEAR_DTC, data)).0, id) == 1
  {
    ClearDtcByEventId(t, data, id);
  }
}
