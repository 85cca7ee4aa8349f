/**
  The state of the OctoRelay panel as plain values, and one function per step
  of the push-message handler: a message arriving, a click on a relay icon,
  and a click on the cancel or confirm button of the shared dialog.

  The page's elements are abstracted to records. A relay key is in the
  `relays` map exactly when the page has an element for it. jQuery's list of
  click handlers on an element is a sequence, so "at most one handler" is an
  invariant to prove (`Valid`), not a fact of the types. The server call is
  an entry appended to `log`.
*/
module RelayState {

  datatype Option<T> = None | Some(value: T)

  /** The plugin's identity on the shared message bus, and the only command verb it sends. */
  const OwnCode: string := "octorelay"
  const UpdateVerb: string := "update"

  /** What the JavaScript string concatenation renders for an absent field. */
  const Undefined: string := "undefined"

  /** One relay's entry in a pushed payload; every field may be absent. */
  datatype RelayUpdate = RelayUpdate(
    active: Option<int>,
    iconText: Option<string>,
    labelText: Option<string>,
    confirmOff: Option<bool>)

  /** One `[key, value]` pair of the payload, in the order `Object.entries` yields it. */
  datatype Entry = Entry(key: string, value: RelayUpdate)

  /**
    One relay's controls: whether the toggle button is shown, the icon's
    content and title, and the click handlers bound on the icon, each one
    holding the update snapshot its closure captured.
  */
  datatype RelayUi = RelayUi(
    visible: bool,
    iconHtml: string,
    title: string,
    clickHandlers: seq<RelayUpdate>)

  /**
    The one shared confirmation dialog: whether it is shown, its title and
    body text, how many handlers are bound on the cancel button and, for each
    handler bound on the confirm button, the relay key it will command.
  */
  datatype Dialog = Dialog(
    shown: bool,
    title: string,
    text: string,
    cancelHandlers: nat,
    confirmHandlers: seq<string>)

  /** A `simpleApiCommand(plugin, verb, {pin})` call sent to the server. */
  datatype Command = Command(plugin: string, verb: string, pin: string)

  datatype State = State(relays: map<string, RelayUi>, dialog: Dialog, log: seq<Command>)

  /** The dialog as the page loads it: hidden, with no handler bound. */
  const InitialDialog: Dialog := Dialog(false, "", "", 0, [])

  function UpdateCommand(key: string): (c: Command)
    ensures c.plugin == "octorelay" && c.verb == "update" && c.pin == key
  {
    Command(OwnCode, UpdateVerb, key)
  }

  /** At most one click handler per relay icon and per dialog button. */
  ghost predicate Valid(s: State)
  {
    && (forall k | k in s.relays :: |s.relays[k].clickHandlers| <= 1)
    && s.dialog.cancelHandlers <= 1
    && |s.dialog.confirmHandlers| <= 1
  }

  // ---------------------------------------------------------------------
  // The reconciler: onDataUpdaterPluginMessage
  // ---------------------------------------------------------------------

  /** `Object.entries` never yields the same key twice. */
  ghost predicate DistinctKeys(es: seq<Entry>)
  {
    forall i, j | 0 <= i < j < |es| :: es[i].key != es[j].key
  }

  ghost predicate InBatch(es: seq<Entry>, k: string)
  {
    exists i :: 0 <= i < |es| && es[i].key == k
  }

  /**
    The new controls of one relay: every field present in the update
    overwrites, every absent field leaves the old value, and the click
    handlers are unbound and one handler holding `u` is bound.
  */
  function Merge(ui: RelayUi, u: RelayUpdate): (r: RelayUi)
    ensures u.active.Some? ==> (r.visible <==> u.active.value == 1)
    ensures u.active.None? ==> r.visible == ui.visible
    ensures u.iconText.Some? ==> r.iconHtml == u.iconText.value
    ensures u.iconText.None? ==> r.iconHtml == ui.iconHtml
    ensures u.labelText.Some? ==> r.title == u.labelText.value
    ensures u.labelText.None? ==> r.title == ui.title
    ensures r.clickHandlers == [u]
  {
    RelayUi(
      if u.active.Some? then u.active.value == 1 else ui.visible,
      if u.iconText.Some? then u.iconText.value else ui.iconHtml,
      if u.labelText.Some? then u.labelText.value else ui.title,
      [u])
  }

  /** One iteration of the loop; a key with no element on the page is skipped. */
  function ApplyEntry(relays: map<string, RelayUi>, e: Entry): (r: map<string, RelayUi>)
    ensures r.Keys == relays.Keys
    ensures e.key in relays ==> r[e.key] == Merge(relays[e.key], e.value)
    ensures forall k | k in relays && k != e.key :: r[k] == relays[k]
  {
    if e.key in relays then relays[e.key := Merge(relays[e.key], e.value)] else relays
  }

  /** The loop over the entries, in order. */
  function ApplyEntries(relays: map<string, RelayUi>, es: seq<Entry>): (r: map<string, RelayUi>)
    ensures r.Keys == relays.Keys
    decreases |es|
  {
    if es == [] then relays
    else ApplyEntry(ApplyEntries(relays, es[..|es| - 1]), es[|es| - 1])
  }

  /** The payload as the mapping from relay key to update it stands for. */
  function BatchMap(es: seq<Entry>): (b: map<string, RelayUpdate>)
    decreases |es|
  {
    if es == [] then map[]
    else BatchMap(es[..|es| - 1])[es[|es| - 1].key := es[|es| - 1].value]
  }

  /** Reference semantics: each relay is merged with its own update, independently of the others. */
  function ApplyBatch(relays: map<string, RelayUi>, b: map<string, RelayUpdate>): (r: map<string, RelayUi>)
    ensures r.Keys == relays.Keys
  {
    map k | k in relays :: if k in b then Merge(relays[k], b[k]) else relays[k]
  }

  /** A pushed message: foreign plugins' traffic is dropped before anything is touched. */
  function OnMessage(s: State, plugin: string, es: seq<Entry>): (r: State)
    ensures plugin != OwnCode ==> r == s
    ensures r.dialog == s.dialog && r.log == s.log
    ensures r.relays.Keys == s.relays.Keys
  {
    if plugin != OwnCode then s else s.(relays := ApplyEntries(s.relays, es))
  }

  // ---------------------------------------------------------------------
  // The confirmation gate: handleClick and the dialog buttons
  // ---------------------------------------------------------------------

  /** `!value.confirmOff` is false exactly when `confirmOff` is present and true. */
  function Gated(u: RelayUpdate): (b: bool)
    ensures b <==> u.confirmOff.Some? && u.confirmOff.value
  {
    u.confirmOff == Some(true)
  }

  function Label(u: RelayUpdate): (l: string)
    ensures u.labelText.Some? ==> l == u.labelText.value
    ensures u.labelText.None? ==> l == "undefined"
  {
    if u.labelText.Some? then u.labelText.value else Undefined
  }

  function DialogTitle(u: RelayUpdate): (t: string)
    ensures u.labelText.Some? ==> t == "Turning " + u.labelText.value + " off"
    ensures u.labelText.None? ==> t == "Turning undefined off"
  {
    "Turning " + Label(u) + " off"
  }

  function DialogText(u: RelayUpdate): (t: string)
    ensures u.labelText.Some? ==> t == "Are you sure you want to turn the " + u.labelText.value + " off?"
    ensures u.labelText.None? ==> t == "Are you sure you want to turn the undefined off?"
  {
    "Are you sure you want to turn the " + Label(u) + " off?"
  }

  /** The dialog of a fresh session for `key`: both buttons rebound, then shown. */
  function OpenDialog(key: string, u: RelayUpdate): (d: Dialog)
    ensures d.shown && d.title == DialogTitle(u) && d.text == DialogText(u)
    ensures d.cancelHandlers == 1 && d.confirmHandlers == [key]
  {
    Dialog(true, DialogTitle(u), DialogText(u), 1, [key])
  }

  /** `handleClick(key, u)`: send the command at once, or open the dialog for it. */
  function HandleClick(s: State, key: string, u: RelayUpdate): (r: State)
    ensures r.relays == s.relays
    ensures r.log == s.log || r.log == s.log + [UpdateCommand(key)]
  {
    if !Gated(u) then s.(log := s.log + [UpdateCommand(key)])
    else s.(dialog := OpenDialog(key, u))
  }

  /** A click on a relay icon runs its bound handlers in the order they were bound. */
  function FireIcon(s: State, key: string, hs: seq<RelayUpdate>): (r: State)
    ensures r.relays == s.relays
    ensures |s.log| <= |r.log| <= |s.log| + |hs|
    ensures forall j | 0 <= j < |s.log| :: r.log[j] == s.log[j]
    ensures forall j | |s.log| <= j < |r.log| :: r.log[j] == UpdateCommand(key)
    decreases |hs|
  {
    if hs == [] then s
    else HandleClick(FireIcon(s, key, hs[..|hs| - 1]), key, hs[|hs| - 1])
  }

  function ClickIcon(s: State, key: string): (r: State)
    ensures r.relays == s.relays
    ensures |s.log| <= |r.log| && (Valid(s) ==> |r.log| <= |s.log| + 1)
    ensures forall j | 0 <= j < |s.log| :: r.log[j] == s.log[j]
  {
    if key in s.relays then FireIcon(s, key, s.relays[key].clickHandlers) else s
  }

  /** The cancel button: each bound handler hides the dialog; nothing is sent. */
  function CancelDialog(s: State): (r: State)
    ensures r.relays == s.relays && r.log == s.log
    ensures s.dialog.cancelHandlers > 0 ==> !r.dialog.shown
  {
    if s.dialog.cancelHandlers > 0 then s.(dialog := s.dialog.(shown := false)) else s
  }

  function UpdateCommands(ks: seq<string>): (cs: seq<Command>)
    ensures |cs| == |ks|
    ensures forall i | 0 <= i < |ks| :: cs[i] == UpdateCommand(ks[i])
  {
    seq(|ks|, i requires 0 <= i < |ks| => UpdateCommand(ks[i]))
  }

  /** The confirm button: each bound handler sends the command for its key, then hides the dialog. */
  function FireConfirm(s: State, ks: seq<string>): (r: State)
    ensures r.relays == s.relays
    ensures r.log == s.log + UpdateCommands(ks)
    ensures r.dialog == if ks == [] then s.dialog else s.dialog.(shown := false)
    decreases |ks|
  {
    if ks == [] then s
    else
      var t := FireConfirm(s, ks[..|ks| - 1]);
      t.(log := t.log + [UpdateCommand(ks[|ks| - 1])], dialog := t.dialog.(shown := false))
  }

  function ConfirmDialog(s: State): (r: State)
    ensures r.relays == s.relays
    ensures r.log == s.log + UpdateCommands(s.dialog.confirmHandlers)
    ensures s.dialog.confirmHandlers != [] ==> !r.dialog.shown
  {
    FireConfirm(s, s.dialog.confirmHandlers)
  }
}
