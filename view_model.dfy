/**
  The view model as the page holds it: the relay controls, the shared dialog
  and the commands sent so far are fields that the handlers update in place.
  Each method is proved to take the state exactly where the matching step
  function of RelayState takes it, and to keep the one-handler invariant.
*/
module OctoRelayViewModel {
  import opened RelayState
  import RelayProperties

  class ViewModel {
    var relays: map<string, RelayUi>
    var dialog: Dialog
    var log: seq<Command>

    function Snapshot(): State
      reads this
    {
      State(relays, dialog, log)
    }

    ghost predicate Valid()
      reads this
    {
      RelayState.Valid(Snapshot())
    }

    /** The page as loaded: its relay controls, a hidden dialog, no handler bound and nothing sent. */
    constructor (page: map<string, RelayUi>)
      requires forall k | k in page :: page[k].clickHandlers == []
      ensures Valid()
      ensures relays == page && dialog == InitialDialog && log == []
    {
      relays := page;
      dialog := InitialDialog;
      log := [];
    }

    /** `onDataUpdaterPluginMessage(plugin, data)`, with `data` given as its entries. */
    method OnDataUpdaterPluginMessage(plugin: string, data: seq<Entry>)
      requires Valid() && DistinctKeys(data)
      modifies this
      ensures Valid()
      ensures Snapshot() == OnMessage(old(Snapshot()), plugin, data)
    {
      RelayProperties.OnMessagePreservesValid(Snapshot(), plugin, data);
      if plugin != OwnCode {
        return;
      }
      var i := 0;
      while i < |data|
        invariant 0 <= i <= |data|
        invariant relays == ApplyEntries(old(relays), data[..i])
        invariant dialog == old(dialog) && log == old(log)
      {
        var key, value := data[i].key, data[i].value;
        ghost var done := relays;
        // A key without elements on the page selects nothing: every call below is a no-op.
        if key in relays {
          var ui := relays[key];
          if value.active.Some? {
            ui := ui.(visible := value.active.value == 1);
          }
          if value.iconText.Some? {
            ui := ui.(iconHtml := value.iconText.value);
          }
          if value.labelText.Some? {
            ui := ui.(title := value.labelText.value);
          }
          // .off("click") unbinds every handler, .on("click", ...) binds one holding `value`.
          ui := ui.(clickHandlers := []);
          ui := ui.(clickHandlers := ui.clickHandlers + [value]);
          assert ui == Merge(done[key], value);
          relays := relays[key := ui];
        }
        assert relays == ApplyEntry(done, data[i]);
        assert data[..i + 1][..i] == data[..i];
        i := i + 1;
      }
      assert data[..|data|] == data;
    }

    /** `handleClick(key, value)`: the command at once, or a new dialog session for `key`. */
    method HandleClick(key: string, value: RelayUpdate)
      requires Valid()
      modifies this
      ensures Valid()
      ensures Snapshot() == RelayState.HandleClick(old(Snapshot()), key, value)
    {
      if !Gated(value) {
        log := log + [UpdateCommand(key)];
        return;
      }
      dialog := dialog.(title := DialogTitle(value));
      dialog := dialog.(text := DialogText(value));
      // Each button: .off("click") then .on("click", ...).
      dialog := dialog.(cancelHandlers := 0);
      dialog := dialog.(cancelHandlers := dialog.cancelHandlers + 1);
      dialog := dialog.(confirmHandlers := []);
      dialog := dialog.(confirmHandlers := dialog.confirmHandlers + [key]);
      dialog := dialog.(shown := true);
    }

    /** The user clicks the icon of relay `key`; the invariant leaves at most one handler to run. */
    method ClickIcon(key: string)
      requires Valid()
      modifies this
      ensures Valid()
      ensures Snapshot() == RelayState.ClickIcon(old(Snapshot()), key)
    {
      RelayProperties.ClickPreservesValid(Snapshot(), key);
      if key in relays && relays[key].clickHandlers != [] {
        var snapshot := relays[key].clickHandlers[0];
        ghost var before := Snapshot();
        assert relays[key].clickHandlers == [snapshot];
        assert FireIcon(before, key, []) == before;
        HandleClick(key, snapshot);
      }
    }

    /** The user clicks the dialog's cancel button. */
    method ClickCancel()
      requires Valid()
      modifies this
      ensures Valid()
      ensures Snapshot() == CancelDialog(old(Snapshot()))
    {
      if dialog.cancelHandlers > 0 {
        dialog := dialog.(shown := false);
      }
    }

    /** The user clicks the dialog's confirm button: the bound handler sends its command, then hides. */
    method ClickConfirm()
      requires Valid()
      modifies this
      ensures Valid()
      ensures Snapshot() == ConfirmDialog(old(Snapshot()))
    {
      if dialog.confirmHandlers != [] {
        var key := dialog.confirmHandlers[0];
        assert dialog.confirmHandlers == [key];
        assert UpdateCommands([key]) == [UpdateCommand(key)];
        log := log + [UpdateCommand(key)];
        dialog := dialog.(shown := false);
      } else {
        assert UpdateCommands([]) == [];
      }
    }
  }

  /**
    A page with relays `k0` and `k1`, both announced as gated in one message:
    clicking `k0`, then `k1`, then confirm sends one command, for `k1`.
  */
  method ConfirmAfterTwoGatedClicks(page: map<string, RelayUi>, k0: string, u0: RelayUpdate, k1: string, u1: RelayUpdate)
    returns (sent: seq<Command>)
    requires forall k | k in page :: page[k].clickHandlers == []
    requires k0 in page && k1 in page && k0 != k1
    requires Gated(u0) && Gated(u1)
    ensures sent == [UpdateCommand(k1)]
  {
    var vm := new ViewModel(page);
    var batch := [Entry(k0, u0), Entry(k1, u1)];
    vm.OnDataUpdaterPluginMessage(OwnCode, batch);
    RelayProperties.EntryMerged(State(page, InitialDialog, []), batch, 0);
    RelayProperties.EntryMerged(State(page, InitialDialog, []), batch, 1);
    ghost var s := vm.Snapshot();
    vm.ClickIcon(k0);
    vm.ClickIcon(k1);
    vm.ClickConfirm();
    RelayProperties.SessionExclusivity(s, k0, u0, k1, u1);
    sent := vm.log;
  }
}
