/**
 * The component's push-event handler. Each event name it recognises
 * overwrites a fixed group of fields with values that depend only on the
 * event and its payload, never on the current state; every other name is
 * ignored. The handler is therefore modelled as a blind write.
 */
module PushEvents {
  import opened Wrappers
  import opened SessionState

  /** The two payload fields the handler reads: `call.id` and `call.phone`. */
  datatype Payload = Payload(callId: Option<string>, phone: Option<string>)

  /** One delivered event: its name and its payload. */
  datatype Push = Push(name: string, payload: Payload)

  /** The five event names the handler reacts to. */
  datatype EventKind = AgentIsConnected | AgentEnteredManual | CallWasConnected | CallEnded | SocketDisconnected

  function EventName(k: EventKind): string
  {
    match k
    case AgentIsConnected => "agent-is-connected"
    case AgentEnteredManual => "agent-entered-manual"
    case CallWasConnected => "call-was-connected"
    case CallEnded => "call-ended"
    case SocketDisconnected => "disconnected"
  }

  /** Recognises an event name; any other string is not handled. */
  function Classify(name: string): (k: Option<EventKind>)
    ensures k.Some? ==> EventName(k.value) == name
    ensures k.None? ==> forall e: EventKind :: EventName(e) != name
  {
    if name == "agent-is-connected" then Some(AgentIsConnected)
    else if name == "agent-entered-manual" then Some(AgentEnteredManual)
    else if name == "call-was-connected" then Some(CallWasConnected)
    else if name == "call-ended" then Some(CallEnded)
    else if name == "disconnected" then Some(SocketDisconnected)
    else None
  }

  lemma ClassifyEventName(k: EventKind)
    ensures Classify(EventName(k)) == Some(k)
  {
  }

  /** The call id stored on `call-was-connected`: `payload?.call?.id || null`. */
  function CallIdOf(p: Payload): (id: Option<string>)
    ensures HasCall(id) <==> HasCall(p.callId)
    ensures id.Some? ==> id == p.callId
    ensures id != Some("")
  {
    if HasCall(p.callId) then p.callId else None
  }

  /** A partial overwrite of the three fields the handler sets. */
  datatype Write = Write(agentStatus: Option<AgentStatus>, activeCallId: Option<Option<string>>, status: Option<Status>)

  const NoWrite := Write(None, None, None)

  /** What a recognised event writes; every one of them sets the status and a message. */
  function EventWrite(k: EventKind, p: Payload): (w: Write)
    ensures w.agentStatus.Some? && w.status.Some?
    ensures w.status.value.message != NoMessage && w.status.value.severity.Some?
    ensures w.activeCallId.Some? ==> w.activeCallId.value != Some("")
  {
    match k
    case AgentIsConnected =>
      Write(Some(Connected), None, Some(Status(ExtensionConnected, Some(Success))))
    case AgentEnteredManual =>
      Write(Some(LoggedIn), None, Some(Status(CampaignJoined, Some(Success))))
    case CallWasConnected =>
      Write(Some(Calling), Some(CallIdOf(p)), Some(Status(CallingNumber(p.phone), Some(Success))))
    case CallEnded =>
      Write(Some(Finished), Some(None), Some(Status(CallOver, Some(Info))))
    case SocketDisconnected =>
      Write(Some(Disconnected), None, Some(Status(ServerDisconnected, Some(Error))))
  }

  /** What an arbitrary event name writes: nothing when it is not recognised. */
  function Written(name: string, p: Payload): Write
  {
    match Classify(name)
    case None => NoWrite
    case Some(k) => EventWrite(k, p)
  }

  function Apply(s: State, w: Write): (r: State)
    ensures r == s.(agentStatus := r.agentStatus, activeCallId := r.activeCallId, status := r.status)
  {
    s.(agentStatus := Or(w.agentStatus, s.agentStatus),
       activeCallId := Or(w.activeCallId, s.activeCallId),
       status := Or(w.status, s.status))
  }

  /** `w1` followed by `w2`: every field `w2` writes wins. */
  function Then(w1: Write, w2: Write): Write
  {
    Write(if w2.agentStatus.Some? then w2.agentStatus else w1.agentStatus,
          if w2.activeCallId.Some? then w2.activeCallId else w1.activeCallId,
          if w2.status.Some? then w2.status else w1.status)
  }

  /** The `onEvent` callback. */
  function OnEvent(s: State, name: string, p: Payload): (r: State)
    ensures Classify(name).None? ==> r == s
    ensures r == s.(agentStatus := r.agentStatus, activeCallId := r.activeCallId, status := r.status)
    ensures name == "agent-is-connected" ==>
              && r.agentStatus == Connected && r.activeCallId == s.activeCallId
              && r.status == Status(ExtensionConnected, Some(Success))
    ensures name == "agent-entered-manual" ==>
              && r.agentStatus == LoggedIn && r.activeCallId == s.activeCallId
              && r.status == Status(CampaignJoined, Some(Success))
    ensures name == "call-was-connected" ==>
              && r.agentStatus == Calling
              && r.status == Status(CallingNumber(p.phone), Some(Success))
              && (HasCall(r.activeCallId) <==> HasCall(p.callId))
              && (HasCall(r.activeCallId) ==> r.activeCallId == p.callId)
              && r.activeCallId != Some("")
    ensures name == "call-ended" ==>
              r.agentStatus == Finished && r.activeCallId == None && r.status == Status(CallOver, Some(Info))
    ensures name == "disconnected" ==>
              && r.agentStatus == Disconnected && r.activeCallId == s.activeCallId
              && r.status == Status(ServerDisconnected, Some(Error))
    ensures WellFormed(s) ==> WellFormed(r)
  {
    Apply(s, Written(name, p))
  }

  /** No event is guarded: a recognised event sets the status the same way from every state. */
  lemma NoGuards(s: State, t: State, name: string, p: Payload)
    requires Classify(name).Some?
    ensures OnEvent(s, name, p).agentStatus == OnEvent(t, name, p).agentStatus
    ensures OnEvent(s, name, p).status == OnEvent(t, name, p).status
  {
  }

  /** For instance `call-ended` while disconnected, with no call ever placed, yields `finished`. */
  lemma CallEndedWhileDisconnected(p: Payload)
    ensures OnEvent(Initial(), "call-ended", p).agentStatus == Finished
  {
  }

  lemma OnEventIdempotent(s: State, name: string, p: Payload)
    ensures OnEvent(OnEvent(s, name, p), name, p) == OnEvent(s, name, p)
  {
  }

  /** The state after the events `ps`, delivered in order. */
  function Replay(s: State, ps: seq<Push>): State
  {
    if ps == [] then s
    else OnEvent(Replay(s, ps[..|ps| - 1]), ps[|ps| - 1].name, ps[|ps| - 1].payload)
  }

  /** The overwrite that the events `ps` amount to together. */
  function Combined(ps: seq<Push>): Write
  {
    if ps == [] then NoWrite
    else Then(Combined(ps[..|ps| - 1]), Written(ps[|ps| - 1].name, ps[|ps| - 1].payload))
  }

  lemma ApplyThen(s: State, w1: Write, w2: Write)
    ensures Apply(Apply(s, w1), w2) == Apply(s, Then(w1, w2))
  {
  }

  /** Any sequence of events acts like one blind write. */
  lemma {:induction false} ReplayIsOneWrite(s: State, ps: seq<Push>)
    ensures Replay(s, ps) == Apply(s, Combined(ps))
  {
    if ps != [] {
      var init, last := ps[..|ps| - 1], ps[|ps| - 1];
      ReplayIsOneWrite(s, init);
      ApplyThen(s, Combined(init), Written(last.name, last.payload));
    }
  }

  /** Delivering the same events a second time changes nothing. */
  lemma {:induction false} ReplayIdempotent(s: State, ps: seq<Push>)
    ensures Replay(Replay(s, ps), ps) == Replay(s, ps)
  {
    ReplayIsOneWrite(s, ps);
    ReplayIsOneWrite(Replay(s, ps), ps);
  }

  lemma {:induction false} CombinedWritesStatus(ps: seq<Push>, i: nat)
    requires i < |ps| && Classify(ps[i].name).Some?
    ensures Combined(ps).agentStatus.Some? && Combined(ps).status.Some?
  {
    var init, last := ps[..|ps| - 1], ps[|ps| - 1];
    if i < |ps| - 1 {
      CombinedWritesStatus(init, i);
    }
  }

  /**
   * Once any recognised event has been delivered, the agent status and the
   * status message no longer depend on where the session started.
   */
  lemma {:induction false} ReplayForgetsStart(s: State, t: State, ps: seq<Push>, i: nat)
    requires i < |ps| && Classify(ps[i].name).Some?
    ensures Replay(s, ps).agentStatus == Replay(t, ps).agentStatus
    ensures Replay(s, ps).status == Replay(t, ps).status
  {
    ReplayIsOneWrite(s, ps);
    ReplayIsOneWrite(t, ps);
    CombinedWritesStatus(ps, i);
  }
}
