/** The browser dashboard's state: the log panel fed by polling, with
    de-duplication by signature; the connection status line; the model
    selector's options. The page's elements are abstracted to sequences the
    handlers append to; fetching and the clock are inputs. */
module Dashboard {
  import opened Common
  import opened Logs

  /** The key the dashboard de-duplicates on. The level is not part of it. */
  function Signature(e: LogEntry): string {
    e.timestamp + "-" + e.source + "-" + e.message
  }

  /** Two entries that differ only in level have the same signature. */
  lemma SignatureIgnoresLevel(e: LogEntry, level: string)
    ensures Signature(e.(level := level)) == Signature(e)
  {
  }

  /** Entries whose timestamp, source and message agree collapse to one key. */
  lemma SameSignature(a: LogEntry, b: LogEntry)
    requires a.timestamp == b.timestamp && a.source == b.source && a.message == b.message
    ensures Signature(a) == Signature(b)
  {
  }

  // ------------------------------------------------------------ one poll

  /** What a pass over one batch leaves: the entries shown, in order, and the
      signatures known afterwards. */
  datatype Scan = Scan(shown: seq<LogEntry>, known: set<string>)

  /** The `forEach` over a batch, entry by entry: an entry is shown and its
      signature recorded exactly when its signature is not yet known. */
  function ScanBatch(known: set<string>, batch: seq<LogEntry>): Scan
    decreases |batch|
  {
    if batch == [] then Scan([], known)
    else
      var p := ScanBatch(known, batch[..|batch| - 1]);
      var e := batch[|batch| - 1];
      if Signature(e) in p.known then p else Scan(p.shown + [e], p.known + {Signature(e)})
  }

  /** The signatures of a batch. */
  function Signatures(batch: seq<LogEntry>): set<string> {
    set i | 0 <= i < |batch| :: Signature(batch[i])
  }

  /** Independent description of what a poll shows: the entries whose
      signature is new to `known` and does not occur earlier in the batch. */
  predicate FirstNew(known: set<string>, batch: seq<LogEntry>, i: int)
    requires 0 <= i < |batch|
  {
    Signature(batch[i]) !in known && forall j :: 0 <= j < i ==> Signature(batch[j]) != Signature(batch[i])
  }

  function FirstNewEntries(known: set<string>, batch: seq<LogEntry>): seq<LogEntry>
    decreases |batch|
  {
    if batch == [] then []
    else FirstNewEntries(known, batch[..|batch| - 1]) + (if FirstNew(known, batch, |batch| - 1) then [batch[|batch| - 1]] else [])
  }

  /** After a batch, the known signatures are the old ones plus the batch's. */
  lemma {:induction false} ScanKnown(known: set<string>, batch: seq<LogEntry>)
    ensures ScanBatch(known, batch).known == known + Signatures(batch)
    decreases |batch|
  {
    if batch != [] {
      var init := batch[..|batch| - 1];
      ScanKnown(known, init);
      assert Signatures(batch) == Signatures(init) + {Signature(batch[|batch| - 1])} by {
        forall s | s in Signatures(batch) ensures s in Signatures(init) + {Signature(batch[|batch| - 1])} {
          var i :| 0 <= i < |batch| && s == Signature(batch[i]);
          if i < |batch| - 1 {
            assert init[i] == batch[i];
          }
        }
        forall s | s in Signatures(init) ensures s in Signatures(batch) {
          var i :| 0 <= i < |init| && s == Signature(init[i]);
          assert batch[i] == init[i];
        }
      }
    }
  }

  /** What a poll shows is exactly the first occurrence of each signature
      that was not known before, in batch order. */
  lemma {:induction false} ScanShowsFirstNew(known: set<string>, batch: seq<LogEntry>)
    ensures ScanBatch(known, batch).shown == FirstNewEntries(known, batch)
    decreases |batch|
  {
    if batch != [] {
      var n := |batch| - 1;
      var init := batch[..n];
      ScanShowsFirstNew(known, init);
      ScanKnown(known, init);
      var e := batch[n];
      if FirstNew(known, batch, n) {
        assert Signature(e) !in Signatures(init) by {
          forall j | 0 <= j < |init| ensures Signature(init[j]) != Signature(e) {
            assert init[j] == batch[j];
          }
        }
      } else {
        if Signature(e) !in known {
          var j :| 0 <= j < n && Signature(batch[j]) == Signature(e);
          assert init[j] == batch[j];
          assert Signature(e) in Signatures(init);
        }
      }
      assert FirstNewEntries(known, init) == FirstNewEntries(known, batch[..n]);
      forall i | 0 <= i < n
        ensures FirstNew(known, init, i) == FirstNew(known, batch, i)
      {
        assert init[i] == batch[i];
        forall j | 0 <= j < i ensures init[j] == batch[j] { }
      }
    }
  }

  /** Every entry shown was new: its signature was not known before, and no
      two shown entries share a signature; every shown entry comes from the batch. */
  lemma {:induction false} ScanShownFresh(known: set<string>, batch: seq<LogEntry>)
    ensures forall i :: 0 <= i < |ScanBatch(known, batch).shown| ==> Signature(ScanBatch(known, batch).shown[i]) !in known
    ensures forall i, j :: 0 <= i < j < |ScanBatch(known, batch).shown| ==>
      Signature(ScanBatch(known, batch).shown[i]) != Signature(ScanBatch(known, batch).shown[j])
    ensures forall i :: 0 <= i < |ScanBatch(known, batch).shown| ==> ScanBatch(known, batch).shown[i] in batch
    ensures forall i :: 0 <= i < |ScanBatch(known, batch).shown| ==>
      Signature(ScanBatch(known, batch).shown[i]) in ScanBatch(known, batch).known
    ensures known <= ScanBatch(known, batch).known
    decreases |batch|
  {
    if batch != [] {
      var init := batch[..|batch| - 1];
      ScanShownFresh(known, init);
      var p := ScanBatch(known, init);
      forall i | 0 <= i < |p.shown| ensures p.shown[i] in batch {
        assert p.shown[i] in init;
      }
    }
  }

  /** Re-polling the same batch shows nothing new (as long as nothing was pruned). */
  lemma {:induction false} ScanAgainShowsNothing(known: set<string>, batch: seq<LogEntry>)
    ensures ScanBatch(ScanBatch(known, batch).known, batch).shown == []
  {
    var k := ScanBatch(known, batch).known;
    ScanKnown(known, batch);
    ScanShowsFirstNew(k, batch);
    NoneFirstNew(k, batch);
  }

  lemma {:induction false} NoneFirstNew(k: set<string>, batch: seq<LogEntry>)
    requires Signatures(batch) <= k
    ensures FirstNewEntries(k, batch) == []
    decreases |batch|
  {
    if batch != [] {
      var init := batch[..|batch| - 1];
      assert Signatures(init) <= Signatures(batch) by {
        forall s | s in Signatures(init) ensures s in Signatures(batch) {
          var i :| 0 <= i < |init| && s == Signature(init[i]);
          assert batch[i] == init[i];
        }
      }
      NoneFirstNew(k, init);
      assert Signature(batch[|batch| - 1]) in Signatures(batch);
    }
  }

  /** After the signature set is pruned to empty, a batch whose signatures are
      all distinct is shown again in full, even entries already on screen. */
  lemma {:induction false} ScanAfterPruneShowsAll(batch: seq<LogEntry>)
    requires forall i, j :: 0 <= i < j < |batch| ==> Signature(batch[i]) != Signature(batch[j])
    ensures ScanBatch({}, batch).shown == batch
  {
    ScanShowsFirstNew({}, batch);
    DistinctAllFirstNew(batch);
  }

  lemma {:induction false} DistinctAllFirstNew(batch: seq<LogEntry>)
    requires forall i, j :: 0 <= i < j < |batch| ==> Signature(batch[i]) != Signature(batch[j])
    ensures FirstNewEntries({}, batch) == batch
    decreases |batch|
  {
    if batch != [] {
      var n := |batch| - 1;
      var init := batch[..n];
      forall i, j | 0 <= i < j < |init| ensures Signature(init[i]) != Signature(init[j]) {
        assert init[i] == batch[i] && init[j] == batch[j];
      }
      DistinctAllFirstNew(init);
      assert FirstNew({}, batch, n);
      assert batch == init + [batch[n]];
    }
  }

  /** One more entry of the batch: shown and recorded when new, else skipped. */
  lemma ScanStep(known: set<string>, batch: seq<LogEntry>, i: nat, now: string)
    requires i < |batch|
    ensures var p := ScanBatch(known, batch[..i]);
            var q := ScanBatch(known, batch[..i + 1]);
            var e := batch[i];
            (Signature(e) in p.known ==> q == p) &&
            (Signature(e) !in p.known ==>
              q.known == p.known + {Signature(e)} && q.shown == p.shown + [e] &&
              DisplayAll(q.shown, now) == DisplayAll(p.shown, now) + [Display(e.source, e.message, e.level, e.timestamp, now)])
  {
    assert batch[..i + 1][..i] == batch[..i];
  }

  /** An entry as shown in the panel: its timestamp, source, message and the
      CSS class `log-entry <level in lower case>`. */
  datatype Shown = Shown(timestamp: string, source: string, message: string, cssClass: string)

  /** `addLogEntry`: an empty timestamp is replaced by the local clock reading `now`. */
  function Display(source: string, message: string, level: string, timestamp: string, now: string): Shown {
    Shown(if timestamp == "" then now else timestamp, source, message, "log-entry " + Lower(level))
  }

  /** The panel shows the server's timestamp whenever there is one, and the
      level's letter case does not change how an entry is shown. */
  lemma DisplayRule(source: string, message: string, level: string, timestamp: string, now: string)
    ensures timestamp != "" ==> Display(source, message, level, timestamp, now).timestamp == timestamp
    ensures timestamp == "" ==> Display(source, message, level, timestamp, now).timestamp == now
    ensures Display(source, message, Lower(level), timestamp, now) == Display(source, message, level, timestamp, now)
    ensures Display(source, message, level, timestamp, now).cssClass[..10] == "log-entry "
  {
    LowerIdempotent(level);
  }

  /** The entries as shown, one per entry and in order. */
  function DisplayAll(entries: seq<LogEntry>, now: string): (r: seq<Shown>)
    ensures |r| == |entries|
    decreases |entries|
  {
    if entries == [] then []
    else
      var e := entries[|entries| - 1];
      DisplayAll(entries[..|entries| - 1], now) + [Display(e.source, e.message, e.level, e.timestamp, now)]
  }

  /** The i-th line shown is the i-th entry displayed. */
  lemma {:induction false} DisplayAllAt(entries: seq<LogEntry>, now: string)
    ensures forall i :: 0 <= i < |entries| ==>
      DisplayAll(entries, now)[i] == Display(entries[i].source, entries[i].message, entries[i].level, entries[i].timestamp, now)
    decreases |entries|
  {
    if entries != [] {
      var init := entries[..|entries| - 1];
      DisplayAllAt(init, now);
      assert forall i :: 0 <= i < |init| ==> entries[i] == init[i];
    }
  }

  /** The signature set is emptied once it holds more than this many entries. */
  const PruneAbove: nat := 2000

  // -------------------------------------------------------- model picker

  /** One entry of `/api/models`: its id and, when present, name and description. */
  datatype ModelInfo = ModelInfo(id: string, name: Option<string>, description: Option<string>)

  /** One `<option>` of the model selector. An option written without a value
      attribute takes its text as value. */
  datatype SelectOption = SelectOption(value: string, text: string, title: Option<string>, selected: bool, disabled: bool)

  /** `name || id`: the name unless it is missing or empty. */
  function DisplayName(m: ModelInfo): string {
    if m.name.Some? && m.name.value != "" then m.name.value else m.id
  }

  /** The option label `TITLE (model-id)`. */
  function OptionLabel(m: ModelInfo): (r: string)
    ensures |r| == |DisplayName(m)| + |m.id| + 3
    ensures r[|r| - |m.id| - 3..] == " (" + m.id + ")"
    ensures m.name.Some? && m.name.value != "" ==> r[..|m.name.value|] == m.name.value
    ensures (m.name.None? || m.name.value == "") ==> r[..|m.id|] == m.id
  {
    DisplayName(m) + " (" + m.id + ")"
  }

  function ModelOption(m: ModelInfo): (r: SelectOption)
    ensures r.value == m.id && r.text == OptionLabel(m) && !r.selected && !r.disabled
    ensures r.title.Some? <==> m.description.Some? && m.description.value != ""
    ensures r.title.Some? ==> r.title == m.description
  {
    SelectOption(m.id, OptionLabel(m),
                 if m.description.Some? && m.description.value != "" then m.description else None, false, false)
  }

  function ModelOptions(models: seq<ModelInfo>): (r: seq<SelectOption>)
    ensures |r| == |models|
    decreases |models|
  {
    if models == [] then [] else ModelOptions(models[..|models| - 1]) + [ModelOption(models[|models| - 1])]
  }

  /** The option of the selector built from `models`, one per model and in order, is that model's. */
  lemma {:induction false} ModelOptionsAt(models: seq<ModelInfo>)
    ensures forall i :: 0 <= i < |models| ==> ModelOptions(models)[i] == ModelOption(models[i])
    decreases |models|
  {
    if models != [] {
      ModelOptionsAt(models[..|models| - 1]);
    }
  }

  /** The disabled, pre-selected first option. */
  const PlaceholderOption: SelectOption := SelectOption("", "Select a Model...", None, true, true)
  /** The only option after a failed fetch. */
  const FailedOption: SelectOption := SelectOption("Connection Failed", "Connection Failed", None, false, true)

  /** What `fetch('/api/logs')` gives: a parsed list, a non-ok status, or a throw. */
  datatype LogsResponse = LogsOk(entries: seq<LogEntry>) | LogsNotOk | LogsThrew

  /** What fetching the model list gives: the parsed list, or a throw. */
  datatype ModelsResponse = ModelsOk(models: seq<ModelInfo>) | ModelsThrew

  /** What the selection POST gives: the parsed reply's message, or a throw. */
  datatype SelectResponse = Selected(message: string) | SelectThrew

  class Panel {
    /** The entries in the logs container, oldest first. */
    var shown: seq<Shown>
    /** `knownLogSignatures`. */
    var known: set<string>
    var isConnected: bool
    var statusText: string
    var statusColor: string
    var options: seq<SelectOption>

    /** The signature set never holds more than `PruneAbove` entries between polls. */
    ghost predicate Valid()
      reads this
    {
      |known| <= PruneAbove
    }

    constructor ()
      ensures Valid()
      ensures shown == [] && known == {} && !isConnected && options == []
    {
      shown, known, isConnected, options := [], {}, false, [];
      statusText, statusColor := "", "";
    }

    /** `setStatus`. */
    method SetStatus(connected: bool)
      modifies this`isConnected, this`statusText, this`statusColor
      ensures isConnected == connected
      ensures connected ==> statusText == "System Active" && statusColor == "var(--success-color)"
      ensures !connected ==> statusText == "Disconnected" && statusColor == "var(--danger-color)"
    {
      isConnected := connected;
      if connected {
        statusText, statusColor := "System Active", "var(--success-color)";
      } else {
        statusText, statusColor := "Disconnected", "var(--danger-color)";
      }
    }

    /** The clear button: empties the container and forgets every signature. */
    method ClearLogs()
      modifies this`shown, this`known
      ensures Valid() && shown == [] && known == {}
    {
      shown, known := [], {};
    }

    method AddLogEntry(source: string, message: string, level: string, timestamp: string, now: string)
      modifies this`shown
      ensures shown == old(shown) + [Display(source, message, level, timestamp, now)]
    {
      shown := shown + [Display(source, message, level, timestamp, now)];
    }

    /** The `forEach` of `pollLogs`: shows each entry whose signature is not
        yet known and records it; `count` is the number shown. */
    method ShowNew(logs: seq<LogEntry>, now: string) returns (count: nat)
      modifies this`shown, this`known
      ensures known == ScanBatch(old(known), logs).known
      ensures shown == old(shown) + DisplayAll(ScanBatch(old(known), logs).shown, now)
      ensures count == |ScanBatch(old(known), logs).shown|
    {
      count := 0;
      var i := 0;
      while i < |logs|
        invariant 0 <= i <= |logs|
        invariant known == ScanBatch(old(known), logs[..i]).known
        invariant shown == old(shown) + DisplayAll(ScanBatch(old(known), logs[..i]).shown, now)
        invariant count == |ScanBatch(old(known), logs[..i]).shown|
      {
        var log := logs[i];
        var signature := log.timestamp + "-" + log.source + "-" + log.message;
        ScanStep(old(known), logs, i, now);
        ghost var before := DisplayAll(ScanBatch(old(known), logs[..i]).shown, now);
        if signature !in known {
          AddLogEntry(log.source, log.message, log.level, log.timestamp, now);
          known := known + {signature};
          count := count + 1;
          ghost var d := Display(log.source, log.message, log.level, log.timestamp, now);
          assert old(shown) + before + [d] == old(shown) + (before + [d]);
        }
        i := i + 1;
      }
      assert logs[..|logs|] == logs;
    }

    /** `pollLogs`. An ok reply marks the panel connected, shows each entry
        whose signature is new, and prunes the signature set past 2000; a
        non-ok reply or a throw marks it disconnected and changes nothing else.
        `newLogsCount` is the number of entries shown. */
    method PollLogs(response: LogsResponse, now: string) returns (newLogsCount: nat)
      requires Valid()
      modifies this`shown, this`known, this`isConnected, this`statusText, this`statusColor
      ensures Valid()
      ensures response.LogsOk? ==>
        var scan := ScanBatch(old(known), response.entries);
        isConnected &&
        (old(isConnected) ==> statusText == old(statusText) && statusColor == old(statusColor)) &&
        (!old(isConnected) ==> statusText == "System Active" && statusColor == "var(--success-color)") &&
        shown == old(shown) + DisplayAll(scan.shown, now) &&
        newLogsCount == |scan.shown| &&
        known == (if |scan.known| > PruneAbove then {} else scan.known)
      ensures !response.LogsOk? ==>
        !isConnected && statusText == "Disconnected" && statusColor == "var(--danger-color)" &&
        shown == old(shown) && known == old(known) && newLogsCount == 0
    {
      if !response.LogsOk? {
        SetStatus(false);
        return 0;
      }
      if !isConnected {
        SetStatus(true);
      }
      newLogsCount := ShowNew(response.entries, now);
      if |known| > PruneAbove {
        known := {};
      }
    }

    /** `fetchModels`: on success the placeholder then one option per model, in
        order, and connected; on a throw the single failure option, and disconnected. */
    method FetchModels(response: ModelsResponse)
      modifies this`options, this`isConnected, this`statusText, this`statusColor
      ensures response.ModelsOk? ==>
        options == [PlaceholderOption] + ModelOptions(response.models) &&
        isConnected && statusText == "System Active" && statusColor == "var(--success-color)"
      ensures response.ModelsThrew? ==>
        options == [FailedOption] &&
        !isConnected && statusText == "Disconnected" && statusColor == "var(--danger-color)"
    {
      if response.ModelsThrew? {
        options := [FailedOption];
        SetStatus(false);
        return;
      }
      var models := response.models;
      options := [PlaceholderOption];
      var i := 0;
      while i < |models|
        invariant 0 <= i <= |models|
        modifies this`options
        invariant options == [PlaceholderOption] + ModelOptions(models[..i])
      {
        assert models[..i + 1][..i] == models[..i];
        options := options + [ModelOption(models[i])];
        i := i + 1;
      }
      assert models[..|models|] == models;
      SetStatus(true);
    }

    /** The selector's change handler: the reply's message, or a failure note,
        appended as a System entry. */
    method SelectModel(response: SelectResponse, now: string)
      modifies this`shown
      ensures response.Selected? ==> shown == old(shown) + [Display("System", response.message, "success", "", now)]
      ensures response.SelectThrew? ==> shown == old(shown) + [Display("System", "Failed to change model", "error", "", now)]
    {
      match response {
        case Selected(message) => AddLogEntry("System", message, "success", "", now);
        case SelectThrew => AddLogEntry("System", "Failed to change model", "error", "", now);
      }
    }
  }
}
