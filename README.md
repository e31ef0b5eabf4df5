# Click-to-call session state, modelled in Dafny

This project models the agent and call status machine of the 3C Plus
click-to-call component (`ClickToCallSystem`). The component holds seven
pieces of React state:

- the three input fields `agentToken`, `campaignId` and `phoneNumber`;
- `agentStatus`, one of `disconnected`, `connected`, `logged_in`, `calling` or `finished`;
- `activeCallId`;
- `status`, a message with a severity;
- `isLoading`.

Two things change that state:

- a push-event handler (`onEvent`) that the socket hook calls;
- four user commands: `registerExtension`, `login`, `makeCall` and `hangupCall`.
  Each request's outcome is a flag `ok`. It is true exactly when the
  command's `try` block completes, with no exception thrown.

The render shows one description, the input fields, a status alert and
one footer button, all chosen by that state.

Modules:

- `SessionState` defines the state as one value, `State`. The predicate
  `WellFormed` holds between user actions.
- `PushEvents` models `onEvent` as a *blind write*. Each recognised event
  name overwrites a fixed group of fields. The values written depend only
  on the event and its payload, never on the current state. Any other
  name changes nothing. `Replay` delivers a sequence of events. The
  lemmas show that any such sequence acts as one write. From this follow
  idempotence, and that once a recognised event arrives the starting
  state no longer matters.
- `Commands` models each command as a function of the state and the
  flag `ok`. The result has two parts:
  - the side effect it issued, if any, paired with the state shown while
    the request is outstanding;
  - the state once the request has settled.
- `Render` gives the description, the visible fields, the alert and the
  footer button.
- `Runs` models whole sessions as any interleaving of events, edits and
  clicks. It proves that every reachable state is well formed. It also
  proves that, with only the event names the socket hook forwards, the
  agent never becomes `connected` or `logged_in`. So the login and dial
  buttons are never offered.
- `Component` is the class `ClickToCallSystem`. Its fields are the state
  hooks, and its methods make the same sequential setter calls as the
  source. Each method is proved to leave exactly the state that the
  matching function gives. A ghost log `effects` records each effect the
  method issues.

## Where the code does less than expected

Where the code does less than a reader might expect of a call-control
client, the model follows the code:

- No push event is guarded. For example, `call-ended` while
  `disconnected` yields `finished`, and `call-was-connected` before any
  login yields `calling`.
- A successful `login` or `makeCall` changes only the status message.
  `agentStatus` does not become `logged_in`, and there is no dialling
  state.
- The handler recognises `agent-is-connected`, but the socket hook
  forwards `connected`. The hook never forwards `agent-is-connected` or
  `agent-entered-manual` at all (`Runs.HookOnlyNeverLogsIn`).
- The code has no qualifications, no telephony id, no campaign lookup
  and no delayed reset after a call ends.
- `makeCall` checks only the phone number. It sends the dial request
  even when the token is empty.

## Model

| member | source | states |
|---|---|---|
| SessionState.Initial | components/click-to-call-system.tsx:14-23 | The first render has empty inputs, is `disconnected`, has no call, an empty message with a null severity, and is not loading; this state is well formed |
| PushEvents.Classify | components/click-to-call-system.tsx:27-57 | A recognised name is the name of its event kind; any other string matches none of the five names the handler tests |
| PushEvents.ClassifyEventName | components/click-to-call-system.tsx:30-53 | Each of the five handled names is recognised as its own event kind (round trip with the name table) |
| PushEvents.CallIdOf | components/click-to-call-system.tsx:41-42 | The stored call id is present exactly when the payload's `call.id` is truthy; it is then that id, and never the empty string |
| PushEvents.EventWrite | components/click-to-call-system.tsx:30-56 | Every handled event sets the agent status and a non-empty message with a severity; a call id it writes is never the empty string |
| PushEvents.OnEvent | components/click-to-call-system.tsx:27-57 | Unknown names change nothing. Only status, call id and message change. `agent-is-connected` gives `connected`, `agent-entered-manual` gives `logged_in`, both with a success message and both keeping the call id. `call-was-connected` gives `calling`, a success message naming the payload's phone, and stores the payload's call id, or null when it is falsy. `call-ended` gives `finished` with an informational message and clears the call id. `disconnected` gives `disconnected` with the server-disconnected error message, keeping the call id. Well-formedness is preserved |
| PushEvents.NoGuards | components/click-to-call-system.tsx:30-56 | A recognised event produces the same agent status and message from any two states |
| PushEvents.CallEndedWhileDisconnected | components/click-to-call-system.tsx:47-51 | `call-ended` on the first render, with no call placed, yields `finished` |
| PushEvents.OnEventIdempotent | components/click-to-call-system.tsx:30-56 | Handling the same event with the same payload twice equals handling it once |
| PushEvents.ReplayIsOneWrite | components/click-to-call-system.tsx:27-57 | Delivering any sequence of events equals applying one combined overwrite to the starting state |
| PushEvents.ReplayIdempotent | components/click-to-call-system.tsx:27-57 | Delivering the same sequence of events a second time changes nothing |
| PushEvents.ReplayForgetsStart | components/click-to-call-system.tsx:30-56 | Once a sequence contains a recognised event, its final agent status and message are the same from every starting state |
| Commands.Awaiting | components/click-to-call-system.tsx:78-79 | While a request is outstanding the component is loading, shows an informational message, and nothing else differs |
| Commands.Settled | components/click-to-call-system.tsx:91-98 | After the response, loading is off and the message reports success or failure according to `ok`; nothing else differs |
| Commands.RegisterExtension | components/click-to-call-system.tsx:60-70 | The popup opens exactly when a token is present, with that token. Only the message changes: an error without a token, information otherwise |
| Commands.Login | components/click-to-call-system.tsx:72-100 | A request is sent exactly when token and campaign are both present, carrying them, while loading with an informational message. Rejected: only an error message changes. Sent: only message and loading change, loading ends off, and the severity follows `ok`; the agent status never changes |
| Commands.MakeCall | components/click-to-call-system.tsx:102-130 | A dial request is sent exactly when the phone is present, carrying the token as it is and the phone, while loading with an informational message. Rejected: only an error message changes. Sent: only message and loading change, loading ends off, and the severity follows `ok` |
| Commands.Hangup | components/click-to-call-system.tsx:132-154 | With no truthy call id nothing happens. Otherwise a hang-up request for that call is sent while loading with an informational message. On success the agent is `finished`, the call id and phone are cleared and the credentials kept. On failure only an error message and loading change. Loading ends off |
| Render.DescriptionOf | components/click-to-call-system.tsx:160-166 | Each agent status has its own header description, in both directions: connect-the-extension exactly when `disconnected`, log-in exactly when `connected`, ready-to-dial exactly when `logged_in`, ringing exactly when `calling`, call-over exactly when `finished`; `Render.DescriptionDistinguishes` states the resulting injectivity |
| Render.DescriptionDistinguishes | components/click-to-call-system.tsx:160-166 | Different agent statuses show different header descriptions |
| Render.VisibleFields | components/click-to-call-system.tsx:178-193 | Token and campaign fields show exactly when `disconnected` or `connected`; the phone field exactly when `logged_in`; never both groups |
| Render.AlertOf | components/click-to-call-system.tsx:170-176 | The alert shows exactly when there is a message and shows that message. It is destructive and carries the alert icon exactly on errors, and carries the check icon exactly on successes |
| Render.Footer | components/click-to-call-system.tsx:196-219 | One button per status: register when `disconnected`, login when `connected`, dial when `logged_in`, hang-up when `calling` with a truthy call id, none otherwise. Register is enabled exactly when there is a token. Login is enabled exactly when nothing is loading and token and campaign are present. Dial is enabled exactly when nothing is loading and a phone is present. Login and dial show busy exactly while loading. An enabled button's command always passes its own input check and issues its effect |
| Runs.Step | components/click-to-call-system.tsx:25-154 | Any single action preserves well-formedness. Commands and edits leave the agent status as it was or make it `finished`. Unknown events change nothing |
| Runs.RunPreservesWellFormed | components/click-to-call-system.tsx:17-23 | Along any session from a well-formed state, loading is off between actions, a stored call id is never empty, and the severity is null exactly while there is no message |
| Runs.HookOnlyNeverLogsIn | hooks/useCallSocket.ts:25-39 | With only the names the socket hook forwards, an agent that is neither `connected` nor `logged_in` never becomes either, whatever commands and edits are interleaved |
| Runs.LoginAndDialNeverOffered | components/click-to-call-system.tsx:201-212 | From the first render, with only hook-forwarded events, the footer never offers the login or dial button |
| Component.ClickToCallSystem.constructor | components/click-to-call-system.tsx:14-23 | The fields start in the initial state with an empty effect log |
| Component.ClickToCallSystem.SetAgentToken | components/click-to-call-system.tsx:181 | Editing the token field changes only the token |
| Component.ClickToCallSystem.SetCampaignId | components/click-to-call-system.tsx:184 | Editing the campaign field changes only the campaign |
| Component.ClickToCallSystem.SetPhoneNumber | components/click-to-call-system.tsx:191 | Editing the phone field changes only the phone |
| Component.ClickToCallSystem.OnEvent | components/click-to-call-system.tsx:27-57 | The five sequential name tests leave the state `PushEvents.OnEvent` gives and keep the object well formed |
| Component.ClickToCallSystem.RegisterExtension | components/click-to-call-system.tsx:60-70 | Leaves the state `Commands.RegisterExtension` gives and logs the popup it opens |
| Component.ClickToCallSystem.Login | components/click-to-call-system.tsx:72-100 | Leaves the state `Commands.Login` gives, and logs the request together with the loading state shown while it is outstanding |
| Component.ClickToCallSystem.MakeCall | components/click-to-call-system.tsx:102-130 | Leaves the state `Commands.MakeCall` gives, and logs the dial request together with the loading state shown while it is outstanding |
| Component.ClickToCallSystem.HangupCall | components/click-to-call-system.tsx:132-154 | Leaves the state `Commands.Hangup` gives, and logs the hang-up request together with the loading state shown while it is outstanding |

## Left out

- The HTTP requests are not modelled as network calls. That covers URLs, query strings, `encodeURIComponent`, JSON bodies and reading the response. Each request is recorded as an `Effect` and answered by a flag `ok`.
- `ok` is not the response's `ok` field alone. The source's `catch` also catches a failed body read after a 2xx response: `response.text()` for login (components/click-to-call-system.tsx:93) and `response.json()` for dial (components/click-to-call-system.tsx:123). An example is a 2xx dial response whose body is not JSON, which shows the dial error. The model does not separate the response status from the body read. `ok` is true exactly when the fetch resolved, `response.ok` was set and the body was read. A fetch that throws, a non-2xx response and a failed body read are all `ok == false`.
- `window.open` is a browser side effect. It is recorded as the `OpenExtensionWindow` effect only.
- Each command is one atomic step. Push events that arrive while a request is outstanding are not interleaved with it.
- The message texts are Portuguese strings in the source. Here each is an abstract `Message` tag. Only the interpolated phone of the "calling" message is kept.
- The payload's call id is modelled as a string whose only falsy value is the empty string. A numeric id such as `0`, which JavaScript also treats as falsy, is not modelled.
- The socket hook's connection setup, its module-level socket, its auth options and its effect cleanup are network plumbing. Only the set of event names it forwards is modelled.
- React's batching of setter calls is not modelled. The state recorded with each request is the one rendered while the request awaits its response.
- Console logging, layout, icons beyond their kind, and the unused HubSpot import are not modelled.
- `app/page.tsx` only wraps the component in a dynamic import, so it is not part of this model.
- The qualification buffer, telephony ids, campaign lookup and delayed post-call reset do not exist in this code. They are not modelled.
