/**
  What the push-message handler promises, stated over the step functions of
  RelayState: how a batch is merged, that handlers are replaced rather than
  accumulated, and how many commands each user action sends.
*/
module RelayProperties {
  import opened RelayState

  // ---------------------------------------------------------------------
  // The entries of a payload and the mapping they stand for
  // ---------------------------------------------------------------------

  lemma {:induction false} BatchMapKeys(es: seq<Entry>, k: string)
    ensures k in BatchMap(es) <==> InBatch(es, k)
    decreases |es|
  {
    if es != [] {
      var p := es[..|es| - 1];
      BatchMapKeys(p, k);
      if InBatch(p, k) {
        var i :| 0 <= i < |p| && p[i].key == k;
        assert es[i].key == k;
      }
      if InBatch(es, k) && es[|es| - 1].key != k {
        var i :| 0 <= i < |es| && es[i].key == k;
        assert p[i].key == k;
      }
    }
  }

  lemma {:induction false} BatchMapAt(es: seq<Entry>, i: int)
    requires DistinctKeys(es)
    requires 0 <= i < |es|
    ensures es[i].key in BatchMap(es) && BatchMap(es)[es[i].key] == es[i].value
    decreases |es|
  {
    if i < |es| - 1 {
      var p := es[..|es| - 1];
      assert DistinctKeys(p);
      assert p[i] == es[i];
      BatchMapAt(p, i);
    }
  }

  /** Applying the entries one by one is applying the mapping they form. */
  lemma {:induction false} ApplyEntriesMatchesBatch(relays: map<string, RelayUi>, es: seq<Entry>)
    requires DistinctKeys(es)
    ensures ApplyEntries(relays, es) == ApplyBatch(relays, BatchMap(es))
    decreases |es|
  {
    if es == [] {
      assert ApplyBatch(relays, map[]) == relays;
    } else {
      var p := es[..|es| - 1];
      var e := es[|es| - 1];
      assert DistinctKeys(p);
      ApplyEntriesMatchesBatch(relays, p);
      BatchMapKeys(p, e.key);
      var b := BatchMap(p);
      assert BatchMap(es) == b[e.key := e.value];
      var lhs := ApplyEntry(ApplyBatch(relays, b), e);
      var rhs := ApplyBatch(relays, b[e.key := e.value]);
      assert forall k | k in relays :: lhs[k] == rhs[k];
      assert lhs == rhs;
    }
  }

  // ---------------------------------------------------------------------
  // The reconciler
  // ---------------------------------------------------------------------

  /**
    Partial-update merge: for a relay named in the batch, each present field
    overwrites and each absent field is kept, and the icon ends up with
    exactly one click handler, holding this batch's snapshot.
  */
  lemma EntryMerged(s: State, es: seq<Entry>, i: int)
    requires DistinctKeys(es)
    requires 0 <= i < |es| && es[i].key in s.relays
    ensures var u, before := es[i].value, s.relays[es[i].key];
            var after := OnMessage(s, OwnCode, es).relays[es[i].key];
            && after.visible == (if u.active.Some? then u.active.value == 1 else before.visible)
            && after.iconHtml == (if u.iconText.Some? then u.iconText.value else before.iconHtml)
            && after.title == (if u.labelText.Some? then u.labelText.value else before.title)
            && after.clickHandlers == [u]
  {
    ApplyEntriesMatchesBatch(s.relays, es);
    BatchMapAt(es, i);
  }

  /** A relay the batch does not name keeps all its controls and its handler. */
  lemma KeyOutsideBatchUntouched(s: State, plugin: string, es: seq<Entry>, k: string)
    requires DistinctKeys(es)
    requires k in s.relays && !InBatch(es, k)
    ensures OnMessage(s, plugin, es).relays[k] == s.relays[k]
  {
    ApplyEntriesMatchesBatch(s.relays, es);
    BatchMapKeys(es, k);
  }

  /** Re-applying the same batch changes nothing and sends nothing. */
  lemma OnMessageIdempotent(s: State, plugin: string, es: seq<Entry>)
    requires DistinctKeys(es)
    ensures OnMessage(OnMessage(s, plugin, es), plugin, es) == OnMessage(s, plugin, es)
  {
    if plugin == OwnCode {
      var once := OnMessage(s, plugin, es);
      ApplyEntriesMatchesBatch(s.relays, es);
      ApplyEntriesMatchesBatch(once.relays, es);
      var b := BatchMap(es);
      assert forall k | k in s.relays :: ApplyBatch(once.relays, b)[k] == once.relays[k];
      assert ApplyBatch(once.relays, b) == once.relays;
    }
  }

  /** The order in which the entries are visited does not matter. */
  lemma EntryOrderIrrelevant(s: State, plugin: string, es1: seq<Entry>, es2: seq<Entry>)
    requires DistinctKeys(es1) && DistinctKeys(es2)
    requires multiset(es1) == multiset(es2)
    ensures OnMessage(s, plugin, es1) == OnMessage(s, plugin, es2)
  {
    ApplyEntriesMatchesBatch(s.relays, es1);
    ApplyEntriesMatchesBatch(s.relays, es2);
    var b1, b2 := BatchMap(es1), BatchMap(es2);
    forall k
      ensures k in b1 <==> k in b2
      ensures k in b1 ==> b1[k] == b2[k]
    {
      BatchMapKeys(es1, k);
      BatchMapKeys(es2, k);
      if k in b1 {
        var i :| 0 <= i < |es1| && es1[i].key == k;
        assert es1[i] in multiset(es2);
        var j :| 0 <= j < |es2| && es2[j] == es1[i];
        BatchMapAt(es1, i);
        BatchMapAt(es2, j);
      }
      if k in b2 {
        var j :| 0 <= j < |es2| && es2[j].key == k;
        assert es2[j] in multiset(es1);
        var i :| 0 <= i < |es1| && es1[i] == es2[j];
        assert es1[i].key == k;
      }
    }
    assert b1 == b2;
  }

  lemma OnMessagePreservesValid(s: State, plugin: string, es: seq<Entry>)
    requires DistinctKeys(es)
    requires Valid(s)
    ensures Valid(OnMessage(s, plugin, es))
  {
    ApplyEntriesMatchesBatch(s.relays, es);
  }

  // ---------------------------------------------------------------------
  // The confirmation gate
  // ---------------------------------------------------------------------

  lemma {:induction false} FireIconKeepsHandlersValid(s: State, key: string, hs: seq<RelayUpdate>)
    requires Valid(s)
    ensures Valid(FireIcon(s, key, hs))
    decreases |hs|
  {
    if hs != [] {
      FireIconKeepsHandlersValid(s, key, hs[..|hs| - 1]);
    }
  }

  lemma ClickPreservesValid(s: State, key: string)
    requires Valid(s)
    ensures Valid(ClickIcon(s, key))
  {
    if key in s.relays {
      FireIconKeepsHandlersValid(s, key, s.relays[key].clickHandlers);
    }
  }

  lemma DialogButtonsPreserveValid(s: State)
    requires Valid(s)
    ensures Valid(CancelDialog(s)) && Valid(ConfirmDialog(s))
  {
  }

  /** Before any message has bound a handler, a click does nothing. */
  lemma ClickWithoutHandler(s: State, key: string)
    requires key !in s.relays || s.relays[key].clickHandlers == []
    ensures ClickIcon(s, key) == s
  {
  }

  /** Ungated click: exactly one update command for the relay, dialog untouched. */
  lemma UngatedClick(s: State, key: string, u: RelayUpdate)
    requires key in s.relays && s.relays[key].clickHandlers == [u]
    requires !Gated(u)
    ensures ClickIcon(s, key) == s.(log := s.log + [Command(OwnCode, "update", key)])
  {
    assert [u][..0] == [];
    assert FireIcon(s, key, []) == s;
  }

  /** Gated click: nothing is sent; the dialog is shown, titled and worded from the snapshot's label. */
  lemma GatedClick(s: State, key: string, u: RelayUpdate)
    requires key in s.relays && s.relays[key].clickHandlers == [u]
    requires Gated(u)
    ensures var r := ClickIcon(s, key);
            && r.log == s.log && r.relays == s.relays
            && r.dialog.shown
            && r.dialog.title == "Turning " + Label(u) + " off"
            && r.dialog.text == "Are you sure you want to turn the " + Label(u) + " off?"
            && r.dialog.cancelHandlers == 1 && r.dialog.confirmHandlers == [key]
  {
    assert [u][..0] == [];
  }

  /** Cancel after a gated click hides the dialog and sends nothing. */
  lemma CancelSendsNothing(s: State, key: string, u: RelayUpdate)
    requires key in s.relays && s.relays[key].clickHandlers == [u]
    requires Gated(u)
    ensures var r := CancelDialog(ClickIcon(s, key));
            r.log == s.log && r.relays == s.relays && !r.dialog.shown
  {
    GatedClick(s, key, u);
  }

  /** Confirm after a gated click sends exactly one command, for that relay, and hides the dialog. */
  lemma ConfirmSendsOne(s: State, key: string, u: RelayUpdate)
    requires key in s.relays && s.relays[key].clickHandlers == [u]
    requires Gated(u)
    ensures var r := ConfirmDialog(ClickIcon(s, key));
            r.log == s.log + [UpdateCommand(key)] && r.relays == s.relays && !r.dialog.shown
  {
    GatedClick(s, key, u);
    assert UpdateCommands([key]) == [UpdateCommand(key)];
  }

  /**
    The confirm handler stays bound after the dialog closes: nothing in the
    handler unbinds it, so firing it again after a cancel sends the closed
    session's command. Only the visibility of the buttons keeps a user from
    doing so, and that is not part of this model.
  */
  lemma ConfirmHandlerOutlivesCancel(s: State, key: string, u: RelayUpdate)
    requires key in s.relays && s.relays[key].clickHandlers == [u]
    requires Gated(u)
    ensures var closed := CancelDialog(ClickIcon(s, key));
            && !closed.dialog.shown
            && closed.dialog.confirmHandlers == [key]
            && ConfirmDialog(closed).log == s.log + [UpdateCommand(key)]
  {
    GatedClick(s, key, u);
    assert UpdateCommands([key]) == [UpdateCommand(key)];
  }

  /**
    Session exclusivity: a second gated click supersedes the first session,
    so confirming sends a command for the second relay only.
  */
  lemma SessionExclusivity(s: State, k0: string, u0: RelayUpdate, k1: string, u1: RelayUpdate)
    requires k0 in s.relays && s.relays[k0].clickHandlers == [u0] && Gated(u0)
    requires k1 in s.relays && s.relays[k1].clickHandlers == [u1] && Gated(u1)
    ensures ConfirmDialog(ClickIcon(ClickIcon(s, k0), k1)).log == s.log + [UpdateCommand(k1)]
  {
    GatedClick(s, k0, u0);
    var s0 := ClickIcon(s, k0);
    ConfirmSendsOne(s0, k1, u1);
  }

  /**
    Rebinding: after two batches that both name a relay, a click on it runs
    the second batch's snapshot only, so it obeys the later `confirmOff`.
  */
  lemma LaterBatchWins(s: State, es1: seq<Entry>, es2: seq<Entry>, i: int)
    requires DistinctKeys(es1) && DistinctKeys(es2)
    requires 0 <= i < |es2| && es2[i].key in s.relays
    ensures var s2 := OnMessage(OnMessage(s, OwnCode, es1), OwnCode, es2);
            ClickIcon(s2, es2[i].key) == HandleClick(s2, es2[i].key, es2[i].value)
  {
    var s1 := OnMessage(s, OwnCode, es1);
    var s2 := OnMessage(s1, OwnCode, es2);
    EntryMerged(s1, es2, i);
    assert [es2[i].value][..0] == [];
    assert FireIcon(s2, es2[i].key, []) == s2;
  }

  // ---------------------------------------------------------------------
  // Two end-to-end runs: a plain relay and a gated one
  // ---------------------------------------------------------------------

  const BlankUi: RelayUi := RelayUi(false, "", "", [])

  /** Relay "5", not gated: the batch shows it and a click sends one command, no dialog. */
  lemma LampScenario()
    ensures var s := State(map["5" := BlankUi], InitialDialog, []);
            var u := RelayUpdate(Some(1), None, Some("Lamp"), Some(false));
            var s1 := OnMessage(s, OwnCode, [Entry("5", u)]);
            var s2 := ClickIcon(s1, "5");
            && s1.relays["5"].visible
            && s2.log == [Command("octorelay", "update", "5")]
            && !s2.dialog.shown
  {
    var s := State(map["5" := BlankUi], InitialDialog, []);
    var u := RelayUpdate(Some(1), None, Some("Lamp"), Some(false));
    EntryMerged(s, [Entry("5", u)], 0);
    UngatedClick(OnMessage(s, OwnCode, [Entry("5", u)]), "5", u);
  }

  /** Relay "7", gated: a click opens the dialog, cancel sends nothing, a second click and confirm send one. */
  lemma PumpScenario()
    ensures var s := State(map["7" := BlankUi], InitialDialog, []);
            var u := RelayUpdate(Some(1), None, Some("Pump"), Some(true));
            var s1 := OnMessage(s, OwnCode, [Entry("7", u)]);
            var s2 := ClickIcon(s1, "7");
            var s3 := CancelDialog(s2);
            var s4 := ConfirmDialog(ClickIcon(s3, "7"));
            && s2.dialog.shown && s2.dialog.title == "Turning Pump off" && s2.log == []
            && s3.log == [] && !s3.dialog.shown
            && s4.log == [Command("octorelay", "update", "7")]
  {
    var s := State(map["7" := BlankUi], InitialDialog, []);
    var u := RelayUpdate(Some(1), None, Some("Pump"), Some(true));
    EntryMerged(s, [Entry("7", u)], 0);
    var s1 := OnMessage(s, OwnCode, [Entry("7", u)]);
    GatedClick(s1, "7", u);
    CancelSendsNothing(s1, "7", u);
    var s3 := CancelDialog(ClickIcon(s1, "7"));
    ConfirmSendsOne(s3, "7", u);
  }
}
