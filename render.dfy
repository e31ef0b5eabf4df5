/**
 * What the component renders from its state: the header description, the
 * input fields, the status alert and the single footer button.
 */
module Render {
  import opened Wrappers
  import opened SessionState
  import Commands

  /** One header description per agent status. */
  datatype Description = ConnectExtensionHint | LoginHint | ReadyToDialHint | RingingHint | CallOverHint

  /**
   * The header description: an invitation to connect the extension before
   * connection, to log in once connected, to dial once logged in, and the
   * ringing and call-over notices for the two call statuses.
   */
  function DescriptionOf(st: AgentStatus): (d: Description)
    ensures d == ConnectExtensionHint <==> st == Disconnected
    ensures d == LoginHint <==> st == Connected
    ensures d == ReadyToDialHint <==> st == LoggedIn
    ensures d == RingingHint <==> st == Calling
    ensures d == CallOverHint <==> st == Finished
  {
    match st
    case Disconnected => ConnectExtensionHint
    case Connected => LoginHint
    case LoggedIn => ReadyToDialHint
    case Calling => RingingHint
    case Finished => CallOverHint
  }

  /** Each agent status has its own description, so the header tells them apart. */
  lemma DescriptionDistinguishes(a: AgentStatus, b: AgentStatus)
    ensures DescriptionOf(a) == DescriptionOf(b) ==> a == b
  {
  }

  datatype Field = TokenField | CampaignField | PhoneField

  /** The input fields shown: the credentials before login, the phone once logged in. */
  function VisibleFields(st: AgentStatus): (f: set<Field>)
    ensures TokenField in f <==> st == Disconnected || st == Connected
    ensures CampaignField in f <==> TokenField in f
    ensures PhoneField in f <==> st == LoggedIn
    ensures PhoneField in f ==> TokenField !in f
  {
    if st == Disconnected || st == Connected then {TokenField, CampaignField}
    else if st == LoggedIn then {PhoneField}
    else {}
  }

  datatype Icon = CheckIcon | AlertIcon

  datatype AlertView = AlertView(text: Message, destructive: bool, icon: Option<Icon>)

  /** The status alert: shown when there is a message, red and marked for errors, ticked for successes. */
  function AlertOf(st: Status): (a: Option<AlertView>)
    ensures a.Some? <==> st.message != NoMessage
    ensures a.Some? ==> a.value.text == st.message
    ensures a.Some? ==> (a.value.destructive <==> st.severity == Some(Error))
    ensures a.Some? ==> (a.value.icon == Some(AlertIcon) <==> st.severity == Some(Error))
    ensures a.Some? ==> (a.value.icon == Some(CheckIcon) <==> st.severity == Some(Success))
  {
    if st.message == NoMessage then None
    else
      var icon := if st.severity == Some(Success) then Some(CheckIcon)
                  else if st.severity == Some(Error) then Some(AlertIcon)
                  else None;
      Some(AlertView(st.message, st.severity == Some(Error), icon))
  }

  /** The footer buttons; `busy` selects the in-progress label. */
  datatype Button =
    | RegisterButton(enabled: bool)
    | LoginButton(enabled: bool, busy: bool)
    | DialButton(enabled: bool, busy: bool)
    | HangupButton

  /**
   * The single footer button offered for the current state. An enabled
   * button never runs into its command's own input check.
   */
  function Footer(s: State): (b: Option<Button>)
    ensures b.Some? <==> s.agentStatus != Finished && (s.agentStatus == Calling ==> HasCall(s.activeCallId))
    ensures b.Some? && b.value.RegisterButton? <==> s.agentStatus == Disconnected
    ensures b.Some? && b.value.LoginButton? <==> s.agentStatus == Connected
    ensures b.Some? && b.value.DialButton? <==> s.agentStatus == LoggedIn
    ensures b == Some(HangupButton) <==> s.agentStatus == Calling && HasCall(s.activeCallId)
    ensures b.Some? && b.value.RegisterButton? ==> (b.value.enabled <==> Filled(s.agentToken))
    ensures b.Some? && b.value.LoginButton? ==>
              (b.value.enabled <==> !s.isLoading && Filled(s.agentToken) && Filled(s.campaignId))
    ensures b.Some? && b.value.DialButton? ==> (b.value.enabled <==> !s.isLoading && Filled(s.phoneNumber))
    ensures b.Some? && (b.value.LoginButton? || b.value.DialButton?) ==>
              (b.value.busy <==> s.isLoading)
    ensures b.Some? && b.value.RegisterButton? && b.value.enabled ==> Commands.RegisterExtension(s).sent.Some?
    ensures forall ok: bool :: b.Some? && b.value.LoginButton? && b.value.enabled ==> Commands.Login(s, ok).sent.Some?
    ensures forall ok: bool :: b.Some? && b.value.DialButton? && b.value.enabled ==> Commands.MakeCall(s, ok).sent.Some?
    ensures forall ok: bool :: b == Some(HangupButton) ==> Commands.Hangup(s, ok).sent.Some?
  {
    match s.agentStatus
    case Disconnected => Some(RegisterButton(Filled(s.agentToken)))
    case Connected => Some(LoginButton(!s.isLoading && Filled(s.agentToken) && Filled(s.campaignId), s.isLoading))
    case LoggedIn => Some(DialButton(!s.isLoading && Filled(s.phoneNumber), s.isLoading))
    case Calling => if HasCall(s.activeCallId) then Some(HangupButton) else None
    case Finished => None
  }
}
