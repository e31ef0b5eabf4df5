/**
 * The component itself: its state hooks as fields that the handler and the
 * commands update by sequential setter calls. Every method is proved to
 * leave the state that the corresponding function of `PushEvents` or
 * `Commands` gives, and to record the side effects it issues.
 */
module Component {
  import opened Wrappers
  import opened SessionState
  import PushEvents
  import opened Commands

  class ClickToCallSystem {
    var agentToken: string
    var campaignId: string
    var phoneNumber: string
    var agentStatus: AgentStatus
    var activeCallId: Option<string>
    var status: Status
    var isLoading: bool
    /** Every effect issued so far, with the state shown while it was outstanding. */
    ghost var effects: seq<Sent>

    function Snapshot(): State
      reads this
    {
      State(agentToken, campaignId, phoneNumber, agentStatus, activeCallId, status, isLoading)
    }

    ghost predicate Valid()
      reads this
    {
      WellFormed(Snapshot())
    }

    constructor ()
      ensures Valid() && Snapshot() == Initial() && effects == []
    {
      agentToken, campaignId, phoneNumber := "", "", "";
      agentStatus := Disconnected;
      activeCallId := None;
      status := Status(NoMessage, None);
      isLoading := false;
      effects := [];
    }

    /** The `onChange` handlers of the three inputs. */
    method SetAgentToken(v: string)
      requires Valid()
      modifies this`agentToken
      ensures Valid() && Snapshot() == old(Snapshot()).(agentToken := v)
    {
      agentToken := v;
    }

    method SetCampaignId(v: string)
      requires Valid()
      modifies this`campaignId
      ensures Valid() && Snapshot() == old(Snapshot()).(campaignId := v)
    {
      campaignId := v;
    }

    method SetPhoneNumber(v: string)
      requires Valid()
      modifies this`phoneNumber
      ensures Valid() && Snapshot() == old(Snapshot()).(phoneNumber := v)
    {
      phoneNumber := v;
    }

    /** The `onEvent` callback: five independent tests of the event name. */
    method OnEvent(event: string, payload: PushEvents.Payload)
      requires Valid()
      modifies this`agentStatus, this`activeCallId, this`status
      ensures Valid() && Snapshot() == PushEvents.OnEvent(old(Snapshot()), event, payload)
    {
      if event == "agent-is-connected" {
        agentStatus := Connected;
        status := Status(ExtensionConnected, Some(Success));
      }
      if event == "agent-entered-manual" {
        agentStatus := LoggedIn;
        status := Status(CampaignJoined, Some(Success));
      }
      if event == "call-was-connected" {
        var callId := payload.callId;
        activeCallId := if HasCall(callId) then callId else None;
        agentStatus := Calling;
        status := Status(CallingNumber(payload.phone), Some(Success));
      }
      if event == "call-ended" {
        agentStatus := Finished;
        status := Status(CallOver, Some(Info));
        activeCallId := None;
      }
      if event == "disconnected" {
        agentStatus := Disconnected;
        status := Status(ServerDisconnected, Some(Error));
      }
    }

    method RegisterExtension()
      requires Valid()
      modifies this`status, this`effects
      ensures Valid() && Snapshot() == Commands.RegisterExtension(old(Snapshot())).final
      ensures effects == old(effects) + Issued(Commands.RegisterExtension(old(Snapshot())))
    {
      if !Filled(agentToken) {
        status := Status(TokenRequired, Some(Error));
        return;
      }
      effects := effects + [Sent(OpenExtensionWindow(agentToken), Snapshot())];
      status := Status(ExtensionWindowOpened, Some(Info));
    }

    /**
     * `ok` is true exactly when the `try` block completes: the fetch resolves,
     * the response's `ok` is set and its body is read; anything else is `false`.
     */
    method Login(ok: bool)
      requires Valid()
      modifies this`status, this`isLoading, this`effects
      ensures Valid() && Snapshot() == Commands.Login(old(Snapshot()), ok).final
      ensures effects == old(effects) + Issued(Commands.Login(old(Snapshot()), ok))
    {
      if !Filled(agentToken) || !Filled(campaignId) {
        status := Status(TokenAndCampaignRequired, Some(Error));
        return;
      }
      isLoading := true;
      status := Status(LoggingIn, Some(Info));
      effects := effects + [Sent(LoginRequest(agentToken, campaignId), Snapshot())];
      if ok {
        status := Status(LoginSucceeded, Some(Success));
      } else {
        status := Status(LoginFailed, Some(Error));
      }
      isLoading := false;
    }

    method MakeCall(ok: bool)
      requires Valid()
      modifies this`status, this`isLoading, this`effects
      ensures Valid() && Snapshot() == Commands.MakeCall(old(Snapshot()), ok).final
      ensures effects == old(effects) + Issued(Commands.MakeCall(old(Snapshot()), ok))
    {
      if !Filled(phoneNumber) {
        status := Status(PhoneRequired, Some(Error));
        return;
      }
      isLoading := true;
      status := Status(Dialing, Some(Info));
      effects := effects + [Sent(DialRequest(agentToken, phoneNumber), Snapshot())];
      if ok {
        status := Status(DialSucceeded, Some(Success));
      } else {
        status := Status(DialFailed, Some(Error));
      }
      isLoading := false;
    }

    method HangupCall(ok: bool)
      requires Valid()
      modifies this`status, this`isLoading, this`agentStatus, this`activeCallId, this`phoneNumber, this`effects
      ensures Valid() && Snapshot() == Commands.Hangup(old(Snapshot()), ok).final
      ensures effects == old(effects) + Issued(Commands.Hangup(old(Snapshot()), ok))
    {
      if !HasCall(activeCallId) {
        return;
      }
      isLoading := true;
      status := Status(HangingUp, Some(Info));
      effects := effects + [Sent(HangupRequest(agentToken, activeCallId.value), Snapshot())];
      if ok {
        status := Status(HangupSucceeded, Some(Success));
        agentStatus := Finished;
        activeCallId := None;
        phoneNumber := "";
      } else {
        status := Status(HangupFailed, Some(Error));
      }
      isLoading := false;
    }
  }

  /** The effects a command outcome adds to the log. */
  function Issued(o: Outcome): (log: seq<Sent>)
    ensures |log| <= 1
    ensures o.sent.None? <==> log == []
  {
    if o.sent.Some? then [o.sent.value] else []
  }
}
