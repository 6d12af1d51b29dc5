// The main screen: the game-result log fed by the sensor's notifications,
// the classification of "reference time" records, the choice of panels from
// the BLE state, and the CSV export of the log.
module GameLog {
  import opened Common

  /** A telemetry record as the JSON parser returns it: the device's millis
      `t`, position error `p`, button time `b`, window start `s` and end `e`.
      A key missing from the JSON object is None. */
  datatype GameRecord = GameRecord(
    t: Option<real>, p: Option<real>, b: Option<real>, s: Option<real>, e: Option<real>)

  predicate IsZero(x: Option<real>)
  {
    x == Some(0.0)
  }

  /** The reference-time test shared by the data callback, the result view,
      the CSV export and the results table: `t` is present and s, p, b and
      e are all zero. */
  predicate IsReference(r: GameRecord)
  {
    r.t.Some? && IsZero(r.s) && IsZero(r.p) && IsZero(r.b) && IsZero(r.e)
  }

  /** A received record without `t` gets t = 0 before it is stored; nothing
      else changes. Once normalised, a record is a reference record exactly
      when s, p, b and e are all zero. */
  function Normalize(r: GameRecord): (n: GameRecord)
    ensures n.t.Some? && (r.t.None? ==> n.t == Some(0.0))
    ensures r.t.Some? ==> n == r
    ensures n.(t := r.t) == r
    ensures IsReference(n) <==> IsZero(r.s) && IsZero(r.p) && IsZero(r.b) && IsZero(r.e)
  {
    if r.t.None? then r.(t := Some(0.0)) else r
  }

  // ---------------------------------------------------------------------
  // The newest-first log

  /** The log keeps at most this many records. */
  const LogCap: nat := 100

  /** `slice(0, n)`: the first n elements, or all of them when fewer. */
  function Take<T>(s: seq<T>, n: nat): (r: seq<T>)
    ensures |r| == if |s| < n then |s| else n
    ensures r <= s
  {
    if |s| < n then s else s[..n]
  }

  /** One received record: it goes in front and the log is cut back to its
      first LogCap entries, so the oldest record falls off the end. */
  function PushLog(logs: seq<GameRecord>, r: GameRecord): (l: seq<GameRecord>)
    ensures 0 < |l| <= LogCap
    ensures |l| == if |logs| < LogCap then |logs| + 1 else LogCap
    ensures l[0] == r
    ensures l[1..] == logs[..|l| - 1]
  {
    Take([r] + logs, LogCap)
  }

  /** The records `rs`, received in order, pushed one after the other. */
  function FeedLogs(logs: seq<GameRecord>, rs: seq<GameRecord>): (l: seq<GameRecord>)
    ensures |l| <= |logs| + |rs|
  {
    if rs == [] then logs else PushLog(FeedLogs(logs, rs[..|rs| - 1]), rs[|rs| - 1])
  }

  lemma TakeConsTake<T>(x: T, s: seq<T>, n: nat)
    requires 0 < n
    ensures Take([x] + Take(s, n), n) == Take([x] + s, n)
  {
    var a, b := Take([x] + Take(s, n), n), Take([x] + s, n);
    assert |a| == |b|;
    forall i | 0 <= i < |a|
      ensures a[i] == b[i]
    {
      if i > 0 {
        assert a[i] == Take(s, n)[i - 1];
      }
    }
  }

  /** After a run of notifications the log holds the newest LogCap records
      of (the run, newest first) followed by the previous log. */
  lemma {:induction false} FeedLogsNewestFirst(logs: seq<GameRecord>, rs: seq<GameRecord>)
    requires |logs| <= LogCap
    ensures FeedLogs(logs, rs) == Take(Reverse(rs) + logs, LogCap)
    decreases |rs|
  {
    if rs == [] {
      assert Reverse(rs) + logs == logs;
      assert Take(logs, LogCap) == logs;
    } else {
      var front, x := rs[..|rs| - 1], rs[|rs| - 1];
      FeedLogsNewestFirst(logs, front);
      assert Reverse(rs) == [x] + Reverse(front);
      TakeConsTake(x, Reverse(front) + logs, LogCap);
      assert [x] + (Reverse(front) + logs) == Reverse(rs) + logs;
    }
  }

  // ---------------------------------------------------------------------
  // The result view (GameInterface)

  /** What GameInterface renders. */
  datatype GameView =
    | PlaceholderView           // greyed-out card while no data has arrived
    | NothingRendered           // a reference record renders nothing
    | ResultView(record: GameRecord)
    | RenderFailed              // JSON.parse threw on the stored data

  /** The record shown when no data is given: p = b = s = 0, e = 1, no t. */
  const DefaultRecord := GameRecord(None, Some(0.0), Some(0.0), Some(0.0), Some(1.0))

  /** GameInterface re-parses the raw data string; unlike the data callback
      it does not default `t`, so only a record carrying `t` is hidden. */
  function GameInterfaceView(jsonData: Option<string>, placeholder: bool,
                             parse: string -> Option<GameRecord>): (v: GameView)
    ensures placeholder ==> v == PlaceholderView
    ensures !placeholder && (jsonData.None? || jsonData == Some("")) ==> v == ResultView(DefaultRecord)
    ensures v == RenderFailed <==>
      !placeholder && jsonData.Some? && jsonData.value != "" && parse(jsonData.value).None?
    ensures v == NothingRendered <==>
      !placeholder && jsonData.Some? && jsonData.value != "" &&
      parse(jsonData.value).Some? && IsReference(parse(jsonData.value).value)
    ensures (!placeholder && jsonData.Some? && jsonData.value != "" &&
             parse(jsonData.value).Some? && !IsReference(parse(jsonData.value).value)) ==>
      v == ResultView(parse(jsonData.value).value)
    ensures v.ResultView? ==> !IsReference(v.record)
  {
    if placeholder then PlaceholderView
    else if jsonData.None? || jsonData.value == "" then ResultView(DefaultRecord)
    else match parse(jsonData.value)
      case None => RenderFailed
      case Some(r) => if IsReference(r) then NothingRendered else ResultView(r)
  }

  /** Data the callback keeps for display (a parsed, non-reference record
      after normalisation) is always shown by GameInterface: the raw record
      cannot be a reference record when its normalisation is not one. */
  lemma CallbackDataIsShown(payload: string, parse: string -> Option<GameRecord>)
    requires parse(payload).Some? && !IsReference(Normalize(parse(payload).value))
    ensures GameInterfaceView(Some(payload), false, parse).ResultView?
  {
  }

  // ---------------------------------------------------------------------
  // The panels of the main screen

  datatype GameSlot = ShowsData(jsonData: string) | ShowsPlaceholder

  /** Which panels are on screen: the result card, the welcome box (with
      whether its scan button is disabled) and the device list. */
  datatype Panels = Panels(game: Option<GameSlot>, welcome: Option<bool>, deviceList: bool)

  /** The panel conditions of the screen body. `data` is shown when it is a
      non-empty string. */
  function ScreenPanels(connected: bool, data: Option<string>, scanning: bool, deviceCount: nat,
                        bleState: Option<AdapterState>, isConnecting: bool): (ps: Panels)
    ensures ps.game.Some? <==> connected
    ensures ps.game == Some(ShowsPlaceholder) <==> connected && (data.None? || data == Some(""))
    ensures connected && data.Some? && data.value != "" ==> ps.game == Some(ShowsData(data.value))
    ensures ps.welcome.Some? <==> !connected && !scanning && deviceCount == 0 && !isConnecting
    ensures ps.deviceList <==> !connected && !isConnecting && (deviceCount != 0 || scanning)
    ensures ps.game.Some? ==> ps.welcome.None? && !ps.deviceList
    ensures !(ps.welcome.Some? && ps.deviceList)
    ensures ps.welcome.Some? ==> deviceCount == 0 && (ps.welcome.value <==> bleState != Some(PoweredOn))
    ensures !connected && !isConnecting ==> (ps.welcome.Some? <==> !ps.deviceList)
    ensures isConnecting ==> ps.welcome.None? && !ps.deviceList
  {
    var game :=
      if !connected then None
      else if data.Some? && data.value != "" then Some(ShowsData(data.value))
      else Some(ShowsPlaceholder);
    var welcome :=
      if !connected && !scanning && deviceCount == 0 && !isConnecting
      then Some(scanning || bleState != Some(PoweredOn) || isConnecting)
      else None;
    var list := !connected && !isConnecting && (deviceCount != 0 || scanning);
    Panels(game, welcome, list)
  }

  // ---------------------------------------------------------------------
  // CSV export

  /** The number formatting the export uses (template interpolation of a
      possibly missing number, `(b*1000).toFixed(0)`, `p.toFixed(2)` and the
      rounded score computed from p). */
  datatype Formats = Formats(
    number: Option<real> -> string,
    timing: Option<real> -> string,
    position: real -> string,
    score: real -> string)

  const ColumnNames: seq<string> := [
    "Subject ID", "Trial ID", "Millis (t)", "Timing Error (ms)", "Position Error (mm)",
    "Score", "Start", "End", "Button Time", "Button Position", "Reference"]

  /** The cells of one CSV row, or None when building it throws: a
      non-reference record without `p` has no toFixed to call. */
  function RowCells(subjectId: string, trialId: string, log: GameRecord, f: Formats)
    : (cells: Option<seq<string>>)
    ensures cells.None? <==> !IsReference(log) && log.p.None?
    ensures cells.Some? ==>
      && |cells.value| == |ColumnNames|
      && cells.value[..3] == [subjectId, trialId, f.number(log.t)]
      && cells.value[6..10] == [f.number(log.s), f.number(log.e), f.number(log.b), f.number(log.p)]
      && (IsReference(log) <==> cells.value[10] == "true")
      && (IsReference(log) ==> cells.value[3..6] == ["", "", ""])
      && (!IsReference(log) ==>
            cells.value[3..6] == [f.timing(log.b), f.position(log.p.value), f.score(log.p.value)])
      && (!IsReference(log) ==> cells.value[10] == "false")
  {
    var fixedCells :=
      if IsReference(log) then Some(["", "", ""])
      else if log.p.None? then None
      else Some([f.timing(log.b), f.position(log.p.value), f.score(log.p.value)]);
    if fixedCells.None? then None
    else Some([subjectId, trialId, f.number(log.t)] + fixedCells.value +
              [f.number(log.s), f.number(log.e), f.number(log.b), f.number(log.p),
               if IsReference(log) then "true" else "false"])
  }

  /** `parts` joined with `sep` between consecutive parts. */
  function Join(parts: seq<string>, sep: char): string
    requires parts != []
  {
    if |parts| == 1 then parts[0] else parts[0] + [sep] + Join(parts[1..], sep)
  }

  /** The position of the first `c` in `s`. */
  function IndexOf(s: string, c: char): (i: nat)
    requires c in s
    ensures i < |s| && s[i] == c && c !in s[..i]
  {
    if s[0] == c then 0 else assert c in s[1..]; 1 + IndexOf(s[1..], c)
  }

  /** `s` cut at every `sep`: the inverse of Join on parts free of `sep`. */
  function Split(s: string, sep: char): (parts: seq<string>)
    ensures parts != []
    decreases |s|
  {
    if sep in s then
      var i := IndexOf(s, sep);
      [s[..i]] + Split(s[i + 1..], sep)
    else [s]
  }

  lemma IndexOfAfterPlainPart(p: string, sep: char, rest: string)
    requires sep !in p
    ensures sep in p + [sep] + rest && IndexOf(p + [sep] + rest, sep) == |p|
    decreases |p|
  {
    var s := p + [sep] + rest;
    assert s[|p|] == sep;
    if p != [] {
      assert s[1..] == p[1..] + [sep] + rest;
      IndexOfAfterPlainPart(p[1..], sep, rest);
    }
  }

  /** Splitting a join gives back the parts when no part holds the
      separator. */
  lemma {:induction false} SplitJoin(parts: seq<string>, sep: char)
    requires parts != []
    requires forall k :: 0 <= k < |parts| ==> sep !in parts[k]
    ensures Split(Join(parts, sep), sep) == parts
    decreases |parts|
  {
    if |parts| == 1 {
      assert Join(parts, sep) == parts[0];
    } else {
      var p, rest := parts[0], Join(parts[1..], sep);
      var s := p + [sep] + rest;
      assert Join(parts, sep) == s;
      IndexOfAfterPlainPart(p, sep, rest);
      assert s[..|p|] == p;
      assert s[|p| + 1..] == rest;
      SplitJoin(parts[1..], sep);
      assert parts == [p] + parts[1..];
    }
  }

  /** Building the row of `log` throws. */
  predicate RowFails(log: GameRecord)
  {
    !IsReference(log) && log.p.None?
  }

  /** The text lines of the export, one per log, in log order. */
  function RowLines(subjectId: string, trialId: string, logs: seq<GameRecord>, f: Formats)
    : seq<string>
    requires forall i :: 0 <= i < |logs| ==> !RowFails(logs[i])
  {
    seq(|logs|, i requires 0 <= i < |logs| && !RowFails(logs[i]) => Join(RowCells(subjectId, trialId, logs[i], f).value, ','))
  }

  /** What pressing "Download CSV" does: nothing for an empty log, a thrown
      error when a row cannot be formatted, otherwise the share sheet with
      the header line followed by the rows. */
  datatype Export = NothingToShare | ExportFailed | Shared(message: string)

  function CsvExport(subjectId: string, trialId: string, logs: seq<GameRecord>, f: Formats)
    : (x: Export)
    ensures x == NothingToShare <==> logs == []
    ensures x == ExportFailed <==> exists i :: 0 <= i < |logs| && RowFails(logs[i])
  {
    if logs == [] then NothingToShare
    else if exists i :: 0 <= i < |logs| && RowFails(logs[i]) then ExportFailed
    else Shared(Join(ColumnNames, ',') + "\n" + Join(RowLines(subjectId, trialId, logs, f), '\n'))
  }

  /** Cells that hold neither separator of the file. */
  predicate PlainCells(cells: seq<string>)
  {
    forall k :: 0 <= k < |cells| ==> ',' !in cells[k] && '\n' !in cells[k]
  }

  lemma ColumnNamesArePlain()
    ensures PlainCells(ColumnNames)
  {
    forall k | 0 <= k < |ColumnNames|
      ensures forall j :: 0 <= j < |ColumnNames[k]| ==> ColumnNames[k][j] != ',' && ColumnNames[k][j] != '\n'
    {
    }
  }

  /** A row of plain cells is one line that splits back into its cells. */
  lemma RowReadsBack(cells: seq<string>)
    requires cells != [] && PlainCells(cells)
    ensures '\n' !in Join(cells, ',')
    ensures Split(Join(cells, ','), ',') == cells
  {
    JoinKeepsOut(cells, ',', '\n');
    SplitJoin(cells, ',');
  }

  /** The shared file reads back as the header and then, line by line in log
      order, the cells of each log, provided no cell holds a comma or a line
      break (the subject and trial ids are free text and are not escaped). */
  lemma ExportReadsBack(subjectId: string, trialId: string, logs: seq<GameRecord>, f: Formats)
    requires CsvExport(subjectId, trialId, logs, f).Shared?
    requires forall i :: 0 <= i < |logs| && !RowFails(logs[i]) ==>
      PlainCells(RowCells(subjectId, trialId, logs[i], f).value)
    ensures var lines := Split(CsvExport(subjectId, trialId, logs, f).message, '\n');
      && |lines| == |logs| + 1
      && Split(lines[0], ',') == ColumnNames
      && forall i :: 0 <= i < |logs| ==>
           Split(lines[i + 1], ',') == RowCells(subjectId, trialId, logs[i], f).value
  {
    CsvMessage(subjectId, trialId, logs, f);
    var rows := RowLines(subjectId, trialId, logs, f);
    forall i | 0 <= i < |logs|
      ensures '\n' !in rows[i]
      ensures Split(rows[i], ',') == RowCells(subjectId, trialId, logs[i], f).value
    {
      RowReadsBack(RowCells(subjectId, trialId, logs[i], f).value);
    }
    ColumnNamesArePlain();
    RowReadsBack(ColumnNames);
    LinesReadBack(Join(ColumnNames, ','), rows);
  }

  /** The message of a successful export, unfolded. */
  lemma CsvMessage(subjectId: string, trialId: string, logs: seq<GameRecord>, f: Formats)
    requires CsvExport(subjectId, trialId, logs, f).Shared?
    ensures forall i :: 0 <= i < |logs| ==> !RowFails(logs[i])
    ensures CsvExport(subjectId, trialId, logs, f).message ==
      Join(ColumnNames, ',') + "\n" + Join(RowLines(subjectId, trialId, logs, f), '\n')
  {
  }

  /** A header line followed by line-break-free lines splits back into them. */
  lemma LinesReadBack(header: string, rows: seq<string>)
    requires rows != [] && '\n' !in header
    requires forall k :: 0 <= k < |rows| ==> '\n' !in rows[k]
    ensures Split(header + "\n" + Join(rows, '\n'), '\n') == [header] + rows
  {
    var all := [header] + rows;
    assert all[1..] == rows;
    assert Join(all, '\n') == header + "\n" + Join(rows, '\n');
    SplitJoin(all, '\n');
  }

  /** Joining never introduces a character other than the separator. */
  lemma {:induction false} JoinKeepsOut(parts: seq<string>, sep: char, c: char)
    requires parts != [] && c != sep
    requires forall k :: 0 <= k < |parts| ==> c !in parts[k]
    ensures c !in Join(parts, sep)
    decreases |parts|
  {
    if |parts| > 1 {
      JoinKeepsOut(parts[1..], sep, c);
    }
  }

  // ---------------------------------------------------------------------
  // The results table

  /** How a log row is drawn: highlighted as a reference time, and with a
      bottom border except on the last row. */
  datatype RowLook = RowLook(reference: bool, bottomBorder: bool)

  /** The rows drawn for `logs`, one per record, in log order. */
  function TableRows(logs: seq<GameRecord>): (rows: seq<RowLook>)
    ensures |rows| == |logs|
    ensures forall i :: 0 <= i < |logs| ==> rows[i].reference == IsReference(logs[i])
    ensures forall i :: 0 <= i < |logs| ==> (!rows[i].bottomBorder <==> i == |logs| - 1)
  {
    if logs == [] then []
    else [RowLook(IsReference(logs[0]), |logs| > 1)] + TableRows(logs[1..])
  }

  /** The results table, or None when rendering it throws: a non-reference
      row formats `p` with toFixed, so a record without `p` makes the whole
      render fail, exactly as it makes the CSV export fail. */
  function LogTable(logs: seq<GameRecord>): (rows: Option<seq<RowLook>>)
    ensures rows.None? <==> exists i :: 0 <= i < |logs| && RowFails(logs[i])
    ensures rows.Some? ==> |rows.value| == |logs|
    ensures rows.Some? ==> forall i :: 0 <= i < |logs| ==> rows.value[i].reference == IsReference(logs[i])
    ensures rows.Some? ==> forall i :: 0 <= i < |logs| ==> (!rows.value[i].bottomBorder <==> i == |logs| - 1)
  {
    if exists i :: 0 <= i < |logs| && RowFails(logs[i]) then None else Some(TableRows(logs))
  }

  /** The table fails to render exactly when the export fails. */
  lemma TableFailsWithExport(subjectId: string, trialId: string, logs: seq<GameRecord>, f: Formats)
    requires logs != []
    ensures LogTable(logs).None? <==> CsvExport(subjectId, trialId, logs, f) == ExportFailed
  {
  }

  // ---------------------------------------------------------------------
  // The screen's state

  /** The four fixed records of the "Load" button. */
  const DummyLogs: seq<GameRecord> := [
    GameRecord(Some(1000.0), Some(5.0), Some(0.12), Some(0.0), Some(1.0)),
    GameRecord(Some(2000.0), Some(-8.0), Some(-0.08), Some(0.0), Some(1.0)),
    GameRecord(Some(3000.0), Some(15.0), Some(0.25), Some(0.0), Some(1.0)),
    GameRecord(Some(4000.0), Some(2.0), Some(0.01), Some(0.0), Some(1.0))]

  class MainScreen {
    /** JSON.parse restricted to the record shape. */
    const parse: string -> Option<GameRecord>

    var logs: seq<GameRecord>
    var data: Option<string>
    var subjectId: string
    var trialId: string

    // The subscription effect keyed on connectedDevice. Each run of the
    // effect is numbered; `liveRun` is the run whose cleanup is registered
    // and `subscription` that run's subscription once it has resolved.
    var effectRuns: nat
    var liveRun: Option<nat>
    var subscription: Option<nat>
    var pendingSubscribes: seq<nat>
    // Monitors whose remove() was called, and monitors that resolved after
    // their run had been cleaned up and so are never removed.
    var removed: seq<nat>
    var leaked: seq<nat>

    ghost predicate Valid()
      reads this
    {
      && |logs| <= LogCap
      && (data.Some? ==> GameInterfaceView(data, false, parse).ResultView?)
      && (subscription.Some? ==> liveRun.Some?)
    }

    /** Mount, with the ids read back from storage. */
    constructor (parse: string -> Option<GameRecord>, subjectId: string, trialId: string)
      ensures Valid()
      ensures this.parse == parse && logs == [] && data.None?
      ensures this.subjectId == subjectId && this.trialId == trialId
      ensures effectRuns == 0 && liveRun.None? && subscription.None? && pendingSubscribes == []
      ensures removed == [] && leaked == []
    {
      this.parse := parse;
      logs, data := [], None;
      this.subjectId, this.trialId := subjectId, trialId;
      effectRuns, liveRun, subscription, pendingSubscribes := 0, None, None, [];
      removed, leaked := [], [];
    }

    /** The notification callback. A payload that does not parse changes
        nothing; otherwise the normalised record is pushed onto the log, and
        the payload becomes the displayed data unless it is a reference
        record. The callback keeps running after cleanup: nothing reads the
        effect's cancelled flag. */
    method OnData(payload: string)
      requires Valid()
      modifies this`logs, this`data
      ensures Valid()
      ensures parse(payload).None? ==> logs == old(logs) && data == old(data)
      ensures parse(payload).Some? ==> logs == PushLog(old(logs), Normalize(parse(payload).value))
      ensures parse(payload).Some? ==>
        data == if IsReference(Normalize(parse(payload).value)) then old(data) else Some(payload)
    {
      var parsed := parse(payload);
      if parsed.Some? {
        var r := Normalize(parsed.value);
        logs := PushLog(logs, r);
        if !IsReference(r) {
          CallbackDataIsShown(payload, parse);
          data := Some(payload);
        }
      }
    }

    /** The confirmation dialog of "Clear": only the destructive button
        empties the log. */
    method ClearLogs(confirmed: bool)
      requires Valid()
      modifies this`logs
      ensures Valid()
      ensures logs == if confirmed then [] else old(logs)
    {
      if confirmed {
        logs := [];
      }
    }

    method LoadDummyLogs()
      requires Valid()
      modifies this`logs
      ensures Valid() && logs == DummyLogs
      ensures forall i :: 0 <= i < |logs| ==> !IsReference(logs[i])
    {
      logs := DummyLogs;
    }

    method EditSubjectId(v: string)
      modifies this`subjectId
      ensures subjectId == v
    {
      subjectId := v;
    }

    method EditTrialId(v: string)
      modifies this`trialId
      ensures trialId == v
    {
      trialId := v;
    }

    /** "Download CSV". */
    method DownloadLogs(f: Formats) returns (x: Export)
      ensures x == CsvExport(subjectId, trialId, logs, f)
      ensures x == NothingToShare <==> logs == []
    {
      x := CsvExport(subjectId, trialId, logs, f);
    }

    /** The effect's cleanup: remove() is called only when this run's
        subscription has resolved to a monitor. */
    method CleanUp()
      requires Valid()
      modifies this`liveRun, this`subscription, this`removed
      ensures Valid() && liveRun.None? && subscription.None?
      ensures removed == old(removed) +
        if old(liveRun).Some? && old(subscription).Some? then [old(subscription).value] else []
    {
      if liveRun.Some? && subscription.Some? {
        removed := removed + [subscription.value];
      }
      liveRun, subscription := None, None;
    }

    /** connectedDevice changed: the previous run is cleaned up and the
        effect runs again. It subscribes whenever the device has an id; the
        isConnected() answer only logs and does not stop the subscription. */
    method ConnectedDeviceChanged(device: Option<Device>, reportsConnected: bool)
      returns (attempted: bool)
      requires Valid()
      modifies this`effectRuns, this`liveRun, this`subscription, this`pendingSubscribes, this`removed
      ensures Valid()
      ensures attempted <==> device.Some? && device.value.id != ""
      ensures removed == old(removed) +
        if old(liveRun).Some? && old(subscription).Some? then [old(subscription).value] else []
      ensures effectRuns == old(effectRuns) + 1 && subscription.None?
      ensures liveRun == if attempted then Some(old(effectRuns)) else None
      ensures pendingSubscribes == old(pendingSubscribes) + if attempted then [old(effectRuns)] else []
    {
      CleanUp();
      attempted := device.Some? && device.value.id != "";
      if attempted {
        liveRun := Some(effectRuns);
        pendingSubscribes := pendingSubscribes + [effectRuns];
      }
      effectRuns := effectRuns + 1;
    }

    /** The screen unmounts: the live run is cleaned up. */
    method Unmount()
      requires Valid()
      modifies this`liveRun, this`subscription, this`removed
      ensures Valid() && liveRun.None? && subscription.None?
      ensures removed == old(removed) +
        if old(liveRun).Some? && old(subscription).Some? then [old(subscription).value] else []
    {
      CleanUp();
    }

    /** The k-th pending subscribe call returns. A monitor that arrives
        after its run was cleaned up is kept by nobody and never removed; a
        thrown error clears the displayed data. */
    method SubscribeSettled(k: nat, result: SubscribeResult)
      requires Valid() && k < |pendingSubscribes|
      modifies this`pendingSubscribes, this`subscription, this`leaked, this`data
      ensures Valid()
      ensures pendingSubscribes == RemoveAt(old(pendingSubscribes), k)
      ensures var current := liveRun == Some(old(pendingSubscribes)[k]);
        && subscription == (if current && result.Handle? then Some(result.monitor)
                            else if current && result.NoHandle? then None
                            else old(subscription))
        && leaked == old(leaked) + if !current && result.Handle? then [result.monitor] else []
      ensures data == if result.SubscribeThrew? then None else old(data)
    {
      var run := pendingSubscribes[k];
      pendingSubscribes := RemoveAt(pendingSubscribes, k);
      match result {
        case Handle(h) =>
          if liveRun == Some(run) {
            subscription := Some(h);
          } else {
            leaked := leaked + [h];
          }
        case NoHandle =>
          if liveRun == Some(run) {
            subscription := None;
          }
        case SubscribeThrew =>
          data := None;
      }
    }
  }
}
