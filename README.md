# OctoRelay push-message handler, modelled in Dafny

OctoRelay is an OctoPrint plugin that switches relays. Its browser-side view
model receives pushed state updates from the server and keeps one control per
relay on the page: a toggle button that is shown while the relay is on, and an
icon with content and a title. A click on the icon sends the server an
`update` command for that relay. When the server has flagged the relay with
`confirmOff`, the click first opens a shared confirmation dialog instead.

The model has three parts:

- `RelayState` (relay_state.dfy) holds the page state as values.
  - `relays` maps each relay key that has controls on the page to its record: visibility, icon content, title, and the list of bound click handlers. Each handler holds the update snapshot its closure captured.
  - `dialog` is the shared dialog: shown flag, title, text, and the handlers on its cancel and confirm buttons.
  - `log` lists the commands sent, in order.
  - Each event is a step function: `OnMessage` for a pushed message, `ClickIcon` for an icon click, and `CancelDialog` / `ConfirmDialog` for the two dialog buttons.
- `RelayProperties` (relay_properties.dfy) proves what the handler promises:
  - a partial-update merge;
  - handlers replaced, never accumulated;
  - idempotence and order independence of a batch;
  - zero or one command per action;
  - a second dialog session supersedes the first.
- `OctoRelayViewModel` (view_model.dfy) is the imperative form. The class `ViewModel` holds the same three fields and updates them in place. Each method is proved to reach exactly the state its step function gives, and to keep the invariant `Valid`: at most one handler per icon and per dialog button. `ConfirmAfterTwoGatedClicks` is a client that drives the class through one message, two gated clicks and a confirm.

jQuery's handler list on an element is modelled as a sequence that `.off("click")` empties and `.on("click", …)` extends. So "one handler per relay" is an invariant the proofs establish, not a fact of the types. A click runs every handler bound on the element, in order (`FireIcon`, `FireConfirm`).

Where the code's behaviour is easy to misread, the model follows the code:

- `active` is compared with `=== 1` (octorelay.js:38). A boolean `true` sent as `active` would therefore hide the button. `active` is an `Option<int>`.
- With `labelText` absent from the snapshot, the dialog reads `Turning undefined off`. JavaScript concatenates `undefined` that way (octorelay.js:18, 21), and `Label` returns `"undefined"` in that case.
- The confirm and cancel handlers are never unbound after they are used (octorelay.js:22-32). Only the next gated click replaces them. The model keeps them bound, so firing confirm again after a cancel sends the closed session's command (`ConfirmHandlerOutlivesCancel`).

## Model

| member | source | states |
|---|---|---|
| RelayState.OnMessage | octoprint_octorelay/static/js/octorelay.js:8-11 | a message from any plugin other than `octorelay` leaves relays, dialog and log unchanged; a message never changes the dialog or the log, nor which relays exist |
| RelayState.Merge | octoprint_octorelay/static/js/octorelay.js:37-47 | one relay's new record: visibility is `active == 1` when `active` is present and kept otherwise; icon content and title are replaced only when `iconText` / `labelText` are present; the click handlers become exactly the one holding this snapshot |
| RelayState.ApplyEntry | octoprint_octorelay/static/js/octorelay.js:36-47 | one loop iteration: the named relay, if it has controls, gets its merged record; every other relay is unchanged; no relay is added |
| RelayState.ApplyEntries | octoprint_octorelay/static/js/octorelay.js:35-48 | the loop over the payload's entries never adds or removes relays; a key with no controls on the page is skipped |
| RelayState.ApplyBatch | octoprint_octorelay/static/js/octorelay.js:35-47 | reference semantics: every relay is merged with its own update independently; keeps the set of relays |
| RelayProperties.ApplyEntriesMatchesBatch | octoprint_octorelay/static/js/octorelay.js:35-48 | visiting distinct-key entries one by one equals merging each relay with the payload's mapping |
| RelayProperties.EntryMerged | octoprint_octorelay/static/js/octorelay.js:37-47 | for a relay in the batch: visibility becomes `active == 1` when `active` is present and is kept otherwise; icon content and title are replaced only when `iconText` / `labelText` are present; the icon ends with exactly one click handler, holding this batch's snapshot |
| RelayProperties.KeyOutsideBatchUntouched | octoprint_octorelay/static/js/octorelay.js:35-48 | a relay the batch does not name keeps its whole record, handler included |
| RelayProperties.OnMessageIdempotent | octoprint_octorelay/static/js/octorelay.js:35-48 | applying the same message twice gives the same relays, dialog and log as applying it once |
| RelayProperties.EntryOrderIrrelevant | octoprint_octorelay/static/js/octorelay.js:35 | two orderings of the same entries give the same state |
| RelayProperties.OnMessagePreservesValid | octoprint_octorelay/static/js/octorelay.js:47 | after a message every icon still has at most one click handler: rebinding replaces, never accumulates |
| RelayProperties.LaterBatchWins | octoprint_octorelay/static/js/octorelay.js:47 | after two batches naming the same relay, a click on it runs only the second batch's snapshot, and so uses the later `confirmOff` |
| RelayState.UpdateCommand | octoprint_octorelay/static/js/octorelay.js:13 | the command is `simpleApiCommand("octorelay", "update", {pin: key})` for the clicked key |
| RelayState.Gated | octoprint_octorelay/static/js/octorelay.js:14 | a click is gated exactly when `confirmOff` is present and true; absent or false is falsy |
| RelayState.Label | octoprint_octorelay/static/js/octorelay.js:18-21 | the label the dialog strings use: `labelText` when present, `undefined` as JavaScript renders it otherwise |
| RelayState.DialogTitle | octoprint_octorelay/static/js/octorelay.js:18 | the title is `Turning <labelText> off`, or `Turning undefined off` without a label |
| RelayState.DialogText | octoprint_octorelay/static/js/octorelay.js:19-21 | the body is `Are you sure you want to turn the <labelText> off?`, with `undefined` for an absent label |
| RelayState.OpenDialog | octoprint_octorelay/static/js/octorelay.js:17-33 | a new session: dialog shown with that title and text, exactly one cancel handler and exactly one confirm handler, bound to this key |
| RelayState.HandleClick | octoprint_octorelay/static/js/octorelay.js:12-34 | `handleClick` leaves the relays alone and either sends one `update` command for the key or sends nothing |
| RelayState.FireIcon | octoprint_octorelay/static/js/octorelay.js:47 | running the bound icon handlers only appends to the log, at most one command per handler, each one for the clicked relay |
| RelayState.ClickIcon | octoprint_octorelay/static/js/octorelay.js:47 | in a valid state a click appends at most one command to the log and never touches the relays |
| RelayProperties.ClickWithoutHandler | octoprint_octorelay/static/js/octorelay.js:47 | a click on an icon with no handler bound yet, or with no controls on the page, changes nothing |
| RelayProperties.UngatedClick | octoprint_octorelay/static/js/octorelay.js:13-16 | with `confirmOff` false or absent, a click appends exactly `("octorelay", "update", key)` and leaves the dialog and the relays unchanged |
| RelayProperties.GatedClick | octoprint_octorelay/static/js/octorelay.js:17-33 | with `confirmOff` true, a click sends nothing; the dialog is shown, titled `Turning <label> off` and worded `Are you sure you want to turn the <label> off?`, with one cancel handler and one confirm handler, for this key |
| RelayState.CancelDialog | octoprint_octorelay/static/js/octorelay.js:22-25 | cancel never sends a command and, once a handler is bound, hides the dialog |
| RelayState.FireConfirm | octoprint_octorelay/static/js/octorelay.js:26-32 | running the confirm handlers sends one command per handler, for its key and in binding order, and hides the dialog if any ran |
| RelayState.ConfirmDialog | octoprint_octorelay/static/js/octorelay.js:26-32 | confirm appends exactly the commands of the bound confirm handlers and hides the dialog when one is bound |
| RelayProperties.CancelSendsNothing | octoprint_octorelay/static/js/octorelay.js:22-25 | a gated click followed by cancel leaves the log unchanged and the dialog hidden |
| RelayProperties.ConfirmSendsOne | octoprint_octorelay/static/js/octorelay.js:26-32 | a gated click followed by confirm sends exactly one command, for the clicked relay, and hides the dialog |
| RelayProperties.ConfirmHandlerOutlivesCancel | octoprint_octorelay/static/js/octorelay.js:22-32 | after a gated click and a cancel the dialog is hidden but its confirm handler is still bound to the key, and firing it sends that key's command |
| RelayProperties.SessionExclusivity | octoprint_octorelay/static/js/octorelay.js:22-32 | gated clicks on `k0` then `k1`, then confirm: only `k1`'s command is sent, because rebinding superseded the first session |
| RelayProperties.ClickPreservesValid | octoprint_octorelay/static/js/octorelay.js:22-29 | after a click each dialog button still has at most one handler |
| RelayProperties.DialogButtonsPreserveValid | octoprint_octorelay/static/js/octorelay.js:22-32 | cancel and confirm keep the one-handler invariant |
| RelayProperties.LampScenario | octoprint_octorelay/static/js/octorelay.js:8-48 | relay "5", `active` 1, not gated: the button is shown, and a click sends one command for "5" and opens no dialog |
| RelayProperties.PumpScenario | octoprint_octorelay/static/js/octorelay.js:8-48 | relay "7", gated: a click opens "Turning Pump off" and sends nothing; cancel sends nothing; a second click then confirm sends one command for "7" |
| OctoRelayViewModel.ViewModel.constructor | octoprint_octorelay/static/js/octorelay.js:3-7 | the page loads with its relay controls, no handler bound, the dialog hidden and nothing sent |
| OctoRelayViewModel.ViewModel.OnDataUpdaterPluginMessage | octoprint_octorelay/static/js/octorelay.js:8-48 | the in-place loop leaves the fields exactly as `OnMessage` says, and keeps `Valid` |
| OctoRelayViewModel.ViewModel.HandleClick | octoprint_octorelay/static/js/octorelay.js:12-34 | the in-place `handleClick` reaches exactly the state `RelayState.HandleClick` gives, and keeps `Valid` |
| OctoRelayViewModel.ViewModel.ClickIcon | octoprint_octorelay/static/js/octorelay.js:47 | an icon click reaches exactly the state `RelayState.ClickIcon` gives, and keeps `Valid` |
| OctoRelayViewModel.ViewModel.ClickCancel | octoprint_octorelay/static/js/octorelay.js:25 | the cancel button reaches exactly the state `CancelDialog` gives |
| OctoRelayViewModel.ViewModel.ClickConfirm | octoprint_octorelay/static/js/octorelay.js:29-32 | the confirm button reaches exactly the state `ConfirmDialog` gives |
| OctoRelayViewModel.ConfirmAfterTwoGatedClicks | octoprint_octorelay/static/js/octorelay.js:12-48 | from the class contracts alone: one message announcing two gated relays, clicks on both, then confirm send exactly one command, for the second relay |

## Left out

- jQuery and the DOM: selectors, `.toggle`, `.html`, `.attr` and the modal's animation are fields of records. A key whose controls are missing from the page is a key outside `relays`.
- The toggle button (`#relais<key>`) and the icon (`#ralayIcon<key>`) are assumed to be present or absent together, as one record.
- HTML versus text insertion (`.html` for the icon, `.text` in the dialog) is not modelled. Both are plain strings.
- A page without the confirmation dialog element is not modelled. The dialog is always present.
- ConfirmDialog: does not require the dialog to be shown. Whether a user can reach the buttons of a hidden dialog is not modelled, so "cancel yields zero commands in total" is not proved: a confirm fired after a cancel, or a second confirm after one gated click, sends another command, as the still-bound jQuery handler would.
- CancelDialog: likewise ignores whether the dialog is shown.
- `OctoPrint.simpleApiCommand` is an entry appended to `log`. Its delivery and the server's response are not modelled.
- View-model registration (`OCTOPRINT_VIEWMODELS.push`) and the unused settings and login-state dependencies are framework wiring with no logic.
- JavaScript dynamic typing is not reproduced:
  - `confirmOff` is an `Option<bool>`, where absent or false means ungated;
  - `active` is an `Option<int>`;
  - the payload is its list of entries with distinct keys, as `Object.entries` yields them.
- Event-loop scheduling and concurrency are not modelled. Each message and each click is one atomic step.
