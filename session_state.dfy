/**
 * The state of the click-to-call component: the React state hooks it declares,
 * gathered into one value.
 */
module SessionState {
  import opened Wrappers

  /** The five values the `agentStatus` hook can take. */
  datatype AgentStatus = Disconnected | Connected | LoggedIn | Calling | Finished

  /** The `type` of a status message; the hook's initial `null` is `None`. */
  datatype Severity = Success | Error | Info

  /**
   * The status texts the component shows, one tag per text. Only `NoMessage`
   * (the initial empty string) is empty; `CallingNumber` carries the phone
   * interpolated into its text (absent when the payload has none).
   */
  datatype Message =
    | NoMessage
    | ExtensionConnected
    | CampaignJoined
    | CallingNumber(phone: Option<string>)
    | CallOver
    | ServerDisconnected
    | TokenRequired
    | ExtensionWindowOpened
    | TokenAndCampaignRequired
    | LoggingIn
    | LoginSucceeded
    | LoginFailed
    | PhoneRequired
    | Dialing
    | DialSucceeded
    | DialFailed
    | HangingUp
    | HangupSucceeded
    | HangupFailed

  datatype Status = Status(message: Message, severity: Option<Severity>)

  /** The component's state: three input fields and the four status hooks. */
  datatype State = State(
    agentToken: string,
    campaignId: string,
    phoneNumber: string,
    agentStatus: AgentStatus,
    activeCallId: Option<string>,
    status: Status,
    isLoading: bool)

  /** JavaScript truthiness of a string: only the empty string is falsy. */
  predicate Filled(v: string)
  {
    v != ""
  }

  /** Truthiness of the `string | null` call id. */
  predicate HasCall(id: Option<string>)
  {
    id.Some? && Filled(id.value)
  }

  /** `r` differs from `s` at most in the status message. */
  predicate OnlyStatusChanged(s: State, r: State)
  {
    r == s.(status := r.status)
  }

  /** `r` differs from `s` at most in the status message and the loading flag. */
  predicate OnlyStatusAndLoadingChanged(s: State, r: State)
  {
    r == s.(status := r.status, isLoading := r.isLoading)
  }

  /**
   * What holds between user actions: a stored call id is never the falsy
   * empty string, no request is outstanding, and the severity is `null`
   * exactly while no message has been set.
   */
  predicate WellFormed(s: State)
  {
    && s.activeCallId != Some("")
    && !s.isLoading
    && (s.status.severity.None? <==> s.status.message == NoMessage)
  }

  /** The state on first render: empty inputs, disconnected, no call, no message. */
  function Initial(): (s: State)
    ensures WellFormed(s)
    ensures s.agentStatus == Disconnected && !HasCall(s.activeCallId)
    ensures s.status == Status(NoMessage, None)
    ensures !Filled(s.agentToken) && !Filled(s.campaignId) && !Filled(s.phoneNumber)
  {
    State("", "", "", Disconnected, None, Status(NoMessage, None), false)
  }
}
