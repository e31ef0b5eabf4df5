/**
 * Whole sessions: any interleaving of push events, edits of the input
 * fields and button clicks, each applied atomically.
 */
module Runs {
  import opened SessionState
  import opened PushEvents
  import Commands
  import Render

  datatype Action =
    | Event(push: Push)
    | EditToken(token: string)
    | EditCampaign(campaign: string)
    | EditPhone(phone: string)
    | ClickRegister
    | ClickLogin(loginOk: bool)
    | ClickDial(dialOk: bool)
    | ClickHangup(hangupOk: bool)

  /**
   * One action. Only push events and a successful hang-up move the agent
   * status; the commands never move it anywhere but `finished`.
   */
  function Step(s: State, a: Action): (r: State)
    ensures WellFormed(s) ==> WellFormed(r)
    ensures !a.Event? ==> r.agentStatus == s.agentStatus || r.agentStatus == Finished
    ensures a.Event? && Classify(a.push.name).None? ==> r == s
  {
    match a
    case Event(p) => OnEvent(s, p.name, p.payload)
    case EditToken(v) => s.(agentToken := v)
    case EditCampaign(v) => s.(campaignId := v)
    case EditPhone(v) => s.(phoneNumber := v)
    case ClickRegister => Commands.RegisterExtension(s).final
    case ClickLogin(ok) => Commands.Login(s, ok).final
    case ClickDial(ok) => Commands.MakeCall(s, ok).final
    case ClickHangup(ok) => Commands.Hangup(s, ok).final
  }

  function Run(s: State, actions: seq<Action>): State
  {
    if actions == [] then s
    else Step(Run(s, actions[..|actions| - 1]), actions[|actions| - 1])
  }

  /** Every reachable state is well formed: between actions nothing is loading. */
  lemma {:induction false} RunPreservesWellFormed(s: State, actions: seq<Action>)
    requires WellFormed(s)
    ensures WellFormed(Run(s, actions))
  {
    if actions != [] {
      RunPreservesWellFormed(s, actions[..|actions| - 1]);
    }
  }

  /** The names the socket hook forwards to the handler (`connect` and `disconnect` renamed). */
  const HookEventNames: set<string> := {"connected", "call-was-connected", "call-ended", "disconnected"}

  predicate HookOnly(actions: seq<Action>)
  {
    forall i :: 0 <= i < |actions| && actions[i].Event? ==> actions[i].push.name in HookEventNames
  }

  predicate BeforeLogin(st: AgentStatus)
  {
    st != Connected && st != LoggedIn
  }

  /**
   * With only the names the socket hook delivers, an agent that is neither
   * connected nor logged in never becomes either: `connected` is not a name
   * the handler recognises, and nothing else leads there.
   */
  lemma {:induction false} HookOnlyNeverLogsIn(s: State, actions: seq<Action>)
    requires BeforeLogin(s.agentStatus) && HookOnly(actions)
    ensures BeforeLogin(Run(s, actions).agentStatus)
  {
    if actions != [] {
      var init, last := actions[..|actions| - 1], actions[|actions| - 1];
      assert HookOnly(init) by {
        forall i | 0 <= i < |init| && init[i].Event?
          ensures init[i].push.name in HookEventNames
        {
          assert init[i] == actions[i];
        }
      }
      HookOnlyNeverLogsIn(s, init);
      if last.Event? {
        assert last == actions[|actions| - 1];
      }
    }
  }

  /** Hence, starting from the first render, the login and dial buttons are never offered. */
  lemma {:induction false} LoginAndDialNeverOffered(actions: seq<Action>)
    requires HookOnly(actions)
    ensures var b := Render.Footer(Run(Initial(), actions));
            !(b.Some? && (b.value.LoginButton? || b.value.DialButton?))
  {
    HookOnlyNeverLogsIn(Initial(), actions);
  }
}
