/**
 * The four user commands of the component. Each validates its inputs, then
 * issues one side effect and settles on a flag `ok`: true exactly when the
 * `try` block completed, that is the response's `ok` was set and its body
 * was read without throwing. The network round trip is atomic here: a command's result is the state shown
 * while the request is outstanding, and the state once it has settled.
 */
module Commands {
  import opened Wrappers
  import opened SessionState

  /** The side effects the commands issue: the registration popup and three POST requests. */
  datatype Effect =
    | OpenExtensionWindow(token: string)
    | LoginRequest(token: string, campaign: string)
    | DialRequest(token: string, phone: string)
    | HangupRequest(token: string, callId: string)

  /** An issued effect with the state the component shows while it is outstanding. */
  datatype Sent = Sent(effect: Effect, during: State)

  /** What a command did: the effect it issued, if any, and the state it left. */
  datatype Outcome = Outcome(sent: Option<Sent>, final: State)

  /** The state shown while a request is outstanding: loading, with an informational message. */
  function Awaiting(s: State, m: Message): (p: State)
    ensures p.isLoading && p.status == Status(m, Some(Info))
    ensures OnlyStatusAndLoadingChanged(s, p)
  {
    s.(isLoading := true, status := Status(m, Some(Info)))
  }

  /** The `try`/`catch`/`finally` of a request that only reports its result. */
  function Settled(p: State, ok: bool, done: Message, failed: Message): (r: State)
    ensures !r.isLoading
    ensures r.status == if ok then Status(done, Some(Success)) else Status(failed, Some(Error))
    ensures OnlyStatusAndLoadingChanged(p, r)
  {
    p.(isLoading := false, status := if ok then Status(done, Some(Success)) else Status(failed, Some(Error)))
  }

  /** `registerExtension`: opens the provider's popup when a token is present. */
  function RegisterExtension(s: State): (o: Outcome)
    ensures o.sent.Some? <==> Filled(s.agentToken)
    ensures o.sent.Some? ==> o.sent.value == Sent(OpenExtensionWindow(s.agentToken), s)
    ensures OnlyStatusChanged(s, o.final)
    ensures o.final.status.severity == Some(if o.sent.Some? then Info else Error)
    ensures WellFormed(s) ==> WellFormed(o.final)
  {
    if !Filled(s.agentToken) then
      Outcome(None, s.(status := Status(TokenRequired, Some(Error))))
    else
      Outcome(Some(Sent(OpenExtensionWindow(s.agentToken), s)), s.(status := Status(ExtensionWindowOpened, Some(Info))))
  }

  /** `login`: needs a token and a campaign; a successful login reports success and nothing more. */
  function Login(s: State, ok: bool): (o: Outcome)
    ensures o.sent.Some? <==> Filled(s.agentToken) && Filled(s.campaignId)
    ensures o.sent.None? ==> OnlyStatusChanged(s, o.final) && o.final.status.severity == Some(Error)
    ensures o.sent.Some? ==>
              && o.sent.value.effect == LoginRequest(s.agentToken, s.campaignId)
              && o.sent.value.during.isLoading
              && o.sent.value.during.status.severity == Some(Info)
              && OnlyStatusAndLoadingChanged(s, o.sent.value.during)
    ensures o.sent.Some? ==>
              && OnlyStatusAndLoadingChanged(s, o.final)
              && !o.final.isLoading
              && o.final.status.severity == Some(if ok then Success else Error)
    ensures WellFormed(s) ==> WellFormed(o.final)
  {
    if !Filled(s.agentToken) || !Filled(s.campaignId) then
      Outcome(None, s.(status := Status(TokenAndCampaignRequired, Some(Error))))
    else
      var p := Awaiting(s, LoggingIn);
      Outcome(Some(Sent(LoginRequest(s.agentToken, s.campaignId), p)), Settled(p, ok, LoginSucceeded, LoginFailed))
  }

  /** `makeCall`: needs only a phone number (the token is sent as it is, even empty). */
  function MakeCall(s: State, ok: bool): (o: Outcome)
    ensures o.sent.Some? <==> Filled(s.phoneNumber)
    ensures o.sent.None? ==> OnlyStatusChanged(s, o.final) && o.final.status.severity == Some(Error)
    ensures o.sent.Some? ==>
              && o.sent.value.effect == DialRequest(s.agentToken, s.phoneNumber)
              && o.sent.value.during.isLoading
              && o.sent.value.during.status.severity == Some(Info)
              && OnlyStatusAndLoadingChanged(s, o.sent.value.during)
    ensures o.sent.Some? ==>
              && OnlyStatusAndLoadingChanged(s, o.final)
              && !o.final.isLoading
              && o.final.status.severity == Some(if ok then Success else Error)
    ensures WellFormed(s) ==> WellFormed(o.final)
  {
    if !Filled(s.phoneNumber) then
      Outcome(None, s.(status := Status(PhoneRequired, Some(Error))))
    else
      var p := Awaiting(s, Dialing);
      Outcome(Some(Sent(DialRequest(s.agentToken, s.phoneNumber), p)), Settled(p, ok, DialSucceeded, DialFailed))
  }

  /**
   * `hangupCall`: does nothing without an active call. On success the call is
   * over and the phone field is cleared; on failure only the message reports it.
   */
  function Hangup(s: State, ok: bool): (o: Outcome)
    ensures !HasCall(s.activeCallId) ==> o == Outcome(None, s)
    ensures HasCall(s.activeCallId) ==>
              && o.sent.Some?
              && o.sent.value.effect == HangupRequest(s.agentToken, s.activeCallId.value)
              && o.sent.value.during.isLoading
              && o.sent.value.during.status.severity == Some(Info)
              && OnlyStatusAndLoadingChanged(s, o.sent.value.during)
              && !o.final.isLoading
    ensures HasCall(s.activeCallId) && ok ==>
              && o.final.agentStatus == Finished
              && o.final.activeCallId == None
              && o.final.phoneNumber == ""
              && o.final.agentToken == s.agentToken && o.final.campaignId == s.campaignId
              && o.final.status.severity == Some(Success)
    ensures HasCall(s.activeCallId) && !ok ==>
              OnlyStatusAndLoadingChanged(s, o.final) && o.final.status.severity == Some(Error)
    ensures WellFormed(s) ==> WellFormed(o.final)
  {
    if !HasCall(s.activeCallId) then
      Outcome(None, s)
    else
      var p := Awaiting(s, HangingUp);
      var r :=
        if ok then p.(status := Status(HangupSucceeded, Some(Success)), agentStatus := Finished, activeCallId := None, phoneNumber := "")
        else p.(status := Status(HangupFailed, Some(Error)));
      Outcome(Some(Sent(HangupRequest(s.agentToken, s.activeCallId.value), p)), r.(isLoading := false))
  }
}
