/** The main process: the global work timer (`timerState.seconds`) persisted in
    `timer.json`, the one-second tick that counts a second while the editor is
    running, the start/stop of that tick, the main window's lifecycle as it drives
    them, and the lookup of the editor executable. */
module MainProcess {
  import opened Wrappers
  import opened JsText

  /** The record kept in `timer.json`. */
  datatype TimerState = TimerState(seconds: int)

  /** `{ seconds: 0 }`, used whenever nothing usable is stored. */
  const DefaultState := TimerState(0)

  /** The digit character of `d`. */
  function Digit(d: nat): (c: char)
    requires d < 10
    ensures '0' <= c <= '9' && c as int - '0' as int == d
  {
    ('0' as int + d) as char
  }

  /** The number a string of decimal digits denotes (most significant first). */
  function DigitsValue(t: string): int
    decreases |t|
  {
    if t == [] then 0 else 10 * DigitsValue(t[..|t| - 1]) + (t[|t| - 1] as int - '0' as int)
  }

  /** The number an optionally minus-signed string of decimal digits denotes. */
  function SignedValue(t: string): int {
    if t != [] && t[0] == '-' then -DigitsValue(t[1..]) else DigitsValue(t)
  }

  /** The decimal digits of `n`, most significant first, without leading zeros; they
      denote `n`. */
  function NatText(n: nat): (t: string)
    ensures t != [] && (|t| > 1 ==> t[0] != '0')
    ensures forall i :: 0 <= i < |t| ==> '0' <= t[i] <= '9'
    ensures DigitsValue(t) == n
  {
    if n < 10 then
      var t := [Digit(n)];
      assert t[..0] == [];
      t
    else
      var p := NatText(n / 10);
      var t := p + [Digit(n % 10)];
      assert t[..|t| - 1] == p;
      t
  }

  /** The decimal text of an integer, as a JavaScript number prints: a minus sign
      before the digits of a negative one. It denotes `n`. */
  function IntText(n: int): (t: string)
    ensures t != [] && SignedValue(t) == n
  {
    if n < 0 then
      var t := "-" + NatText(-n);
      assert t[1..] == NatText(-n);
      t
    else NatText(n)
  }

  /** `JSON.stringify(state)`. Never blank, since it starts with a brace. */
  function SerializeTimerState(s: TimerState): (text: string)
    ensures text != [] && text[0] == '{' && !AllWhitespace(text)
  {
    var text := "{\"seconds\":" + IntText(s.seconds) + "}";
    assert !IsWhitespace(text[0]);
    text
  }

  /** The saved text carries the seconds: between the 11-character `{"seconds":` and
      the closing brace stand digits that denote them. */
  lemma SerializeCarriesSeconds(s: TimerState)
    ensures var text := SerializeTimerState(s);
            && |text| >= 13 && text[..11] == "{\"seconds\":" && text[|text| - 1] == '}'
            && SignedValue(text[11..|text| - 1]) == s.seconds
  {
    var text := SerializeTimerState(s);
    var digits := IntText(s.seconds);
    assert text == "{\"seconds\":" + digits + "}";
    assert text[11..|text| - 1] == digits;
  }

  /** Distinct records are saved as distinct texts. */
  lemma SerializeInjective(a: TimerState, b: TimerState)
    ensures SerializeTimerState(a) == SerializeTimerState(b) ==> a == b
  {
    SerializeCarriesSeconds(a);
    SerializeCarriesSeconds(b);
  }

  /** `loadTimerState`: a missing file, a blank file and text that does not parse all
      give `{ seconds: 0 }`; otherwise the parsed record. `file` is the content of
      `timer.json` (`None` when it does not exist); `parse` stands for `JSON.parse`,
      `None` where it throws. */
  function LoadTimerState(file: Option<string>, parse: string -> Option<TimerState>): (r: TimerState)
    ensures file.None? ==> r == DefaultState
    ensures file.Some? && AllWhitespace(file.value) ==> r == DefaultState
    ensures file.Some? && !AllWhitespace(file.value) && parse(file.value).None? ==> r == DefaultState
    ensures file.Some? && !AllWhitespace(file.value) && parse(file.value).Some? ==> r == parse(file.value).value
  {
    match file
    case None => DefaultState
    case Some(fileContent) =>
      if Trim(fileContent) == "" then DefaultState
      else match parse(fileContent)
        case None => DefaultState
        case Some(state) => state
  }

  /** What was saved is what is loaded, for a `JSON.parse` that reads back what
      `JSON.stringify` wrote. */
  lemma LoadAfterSave(s: TimerState, parse: string -> Option<TimerState>)
    requires parse(SerializeTimerState(s)) == Some(s)
    ensures LoadTimerState(Some(SerializeTimerState(s)), parse) == s
  {
  }

  /** What the `ps aux | grep ...` command reported: whether `exec` passed an error
      (which includes grep finding nothing), and its stdout. */
  datatype ProbeResult = ProbeResult(failed: bool, stdout: string)

  /** The value `isVSCodeRunning` resolves to: false on an error, otherwise whether
      anything was printed. */
  function EditorRunning(p: ProbeResult): (running: bool)
    ensures p.failed ==> !running
    ensures !p.failed ==> (running <==> p.stdout != [])
  {
    if p.failed then false else |p.stdout| > 0
  }

  /** The module variable `mainWindow`: `undefined` until the first window is
      created, `null` once it has been closed, or a live window. */
  datatype WindowRef = Undefined | Null | Open

  /** The main process's timer-related state:
      - `timer`: the module variable `timerState`;
      - `timerFile`: the content of `timer.json` (`None` while it does not exist);
      - `window`: the module variable `mainWindow`;
      - `sent`: the payloads of the "update-timer" messages sent to the window, oldest first;
      - `live`: the handles of the intervals currently scheduled;
      - `intervalId`: the module variable `intervalId` (`None` while unassigned);
      - `nextHandle`: the handle the runtime will give to the next `setInterval`. */
  datatype Engine = Engine(
    timer: TimerState,
    timerFile: Option<string>,
    window: WindowRef,
    sent: seq<int>,
    live: set<nat>,
    intervalId: Option<nat>,
    nextHandle: nat)

  /** Interval handles are never reused: every handle handed out so far is below `nextHandle`. */
  predicate HandlesFresh(e: Engine) {
    && (forall h :: h in e.live ==> h < e.nextHandle)
    && (e.intervalId.Some? ==> e.intervalId.value < e.nextHandle)
  }

  /** The state when the main module has been evaluated: `timerState = loadTimerState()`,
      no window, nothing scheduled. */
  function Boot(file: Option<string>, parse: string -> Option<TimerState>): (e: Engine)
    ensures e.timer == LoadTimerState(file, parse) && e.timerFile == file
    ensures e.window == Undefined && e.sent == [] && e.live == {} && e.intervalId == None
    ensures HandlesFresh(e)
  {
    Engine(LoadTimerState(file, parse), file, Undefined, [], {}, None, 0)
  }

  /** `startTimer(initialCheck)`: with `initialCheck`, the current seconds are sent to an
      open window; then a new interval is scheduled and its handle overwrites
      `intervalId`. An interval scheduled before is not cleared. */
  function AfterStart(e: Engine, initialCheck: bool): (r: Engine)
    ensures r.live == e.live + {e.nextHandle} && r.intervalId == Some(e.nextHandle)
    ensures HandlesFresh(e) ==> e.nextHandle !in e.live && HandlesFresh(r)
    ensures r.timer == e.timer && r.timerFile == e.timerFile && r.window == e.window
    ensures r.sent == e.sent + (if initialCheck && e.window == Open then [e.timer.seconds] else [])
    ensures r.nextHandle == e.nextHandle + 1
  {
    e.(sent := e.sent + (if initialCheck && e.window == Open then [e.timer.seconds] else []),
       live := e.live + {e.nextHandle},
       intervalId := Some(e.nextHandle),
       nextHandle := e.nextHandle + 1)
  }

  /** `stopTimer`: `clearInterval(intervalId)`, which does nothing for an unassigned
      or already cleared handle. */
  function AfterStop(e: Engine): (r: Engine)
    ensures r.live <= e.live && (e.intervalId.Some? ==> r.live == e.live - {e.intervalId.value})
    ensures e.intervalId.None? ==> r == e
    ensures r.(live := e.live) == e
    ensures HandlesFresh(e) ==> HandlesFresh(r)
  {
    match e.intervalId
    case None => e
    case Some(h) => e.(live := e.live - {h})
  }

  /** One run of the interval callback, with the result of the running check: when the
      editor runs, one more second is counted and `timer.json` rewritten; in every
      case an open window is sent the current seconds. */
  function AfterTick(e: Engine, probe: ProbeResult): (r: Engine)
    requires e.live != {}
    ensures r.timer.seconds == e.timer.seconds + (if EditorRunning(probe) then 1 else 0)
    ensures r.timerFile == if EditorRunning(probe) then Some(SerializeTimerState(r.timer)) else e.timerFile
    ensures r.sent == e.sent + (if e.window == Open then [r.timer.seconds] else [])
    ensures r.window == e.window && r.live == e.live && r.intervalId == e.intervalId
    ensures r.nextHandle == e.nextHandle
  {
    var timer := if EditorRunning(probe) then TimerState(e.timer.seconds + 1) else e.timer;
    var file := if EditorRunning(probe) then Some(SerializeTimerState(timer)) else e.timerFile;
    e.(timer := timer, timerFile := file, sent := e.sent + if e.window == Open then [timer.seconds] else [])
  }

  /** The "before-quit" handler: `saveTimerState(timerState)`. */
  function AfterQuitSave(e: Engine): Engine {
    e.(timerFile := Some(SerializeTimerState(e.timer)))
  }

  /** `createWindow`, as far as the timer is concerned: the window is open, then
      `startTimer(true)`. */
  function AfterCreateWindow(e: Engine): Engine {
    AfterStart(e.(window := Open), true)
  }

  /** The window's "closed" handler: `mainWindow = null`. */
  function AfterWindowClosed(e: Engine): Engine {
    e.(window := Null)
  }

  /** The "activate" handler: a window is created again only when `mainWindow === null`,
      which an `undefined` window is not. */
  function AfterActivate(e: Engine): Engine {
    if e.window == Null then AfterCreateWindow(e) else e
  }

  /** Ticks with the given running-check results, in order. */
  function RunTicks(e: Engine, probes: seq<ProbeResult>): Engine
    requires e.live != {}
    decreases |probes|
  {
    if probes == [] then e else RunTicks(AfterTick(e, probes[0]), probes[1..])
  }

  /** How many of the running checks report a running editor. */
  function CountRunning(probes: seq<ProbeResult>): (k: nat)
    ensures k <= |probes|
  {
    if probes == [] then 0 else (if EditorRunning(probes[0]) then 1 else 0) + CountRunning(probes[1..])
  }

  /** A failed running check counts as "not running": the tick changes neither the
      seconds nor the file. */
  lemma FailedProbeCountsNothing(e: Engine, probe: ProbeResult)
    requires e.live != {} && probe.failed
    ensures AfterTick(e, probe).timer == e.timer && AfterTick(e, probe).timerFile == e.timerFile
  {
  }

  /** A running check that succeeded counts exactly when it printed something: then
      the tick adds one second and saves it; with empty output nothing changes but
      the message. */
  lemma ProbeOutputDecides(e: Engine, probe: ProbeResult)
    requires e.live != {} && !probe.failed
    ensures var r := AfterTick(e, probe);
            && (probe.stdout != [] ==> r.timer == TimerState(e.timer.seconds + 1)
                                       && r.timerFile == Some(SerializeTimerState(r.timer)))
            && (probe.stdout == [] ==> r.timer == e.timer && r.timerFile == e.timerFile)
  {
  }

  /** Over any run of ticks the seconds grow by exactly the number of ticks that found
      the editor running, and the schedule and the window are untouched. */
  lemma {:induction false} TicksCountActive(e: Engine, probes: seq<ProbeResult>)
    requires e.live != {}
    ensures RunTicks(e, probes).timer.seconds == e.timer.seconds + CountRunning(probes)
    ensures RunTicks(e, probes).live == e.live && RunTicks(e, probes).intervalId == e.intervalId
    ensures RunTicks(e, probes).window == e.window
    decreases |probes|
  {
    if probes != [] {
      TicksCountActive(AfterTick(e, probes[0]), probes[1..]);
    }
  }

  /** After a run of ticks `timer.json` holds the current seconds if any tick found the
      editor running; if none did, neither the seconds nor the file changed. */
  lemma {:induction false} TicksPersist(e: Engine, probes: seq<ProbeResult>)
    requires e.live != {}
    ensures CountRunning(probes) > 0 ==>
              RunTicks(e, probes).timerFile == Some(SerializeTimerState(RunTicks(e, probes).timer))
    ensures CountRunning(probes) == 0 ==>
              RunTicks(e, probes).timer == e.timer && RunTicks(e, probes).timerFile == e.timerFile
    decreases |probes|
  {
    if probes != [] {
      var e' := AfterTick(e, probes[0]);
      TicksPersist(e', probes[1..]);
      if CountRunning(probes[1..]) == 0 && EditorRunning(probes[0]) {
        assert e'.timerFile == Some(SerializeTimerState(e'.timer));
      }
    }
  }

  /** Every tick sends the seconds to an open window, whether or not the editor runs;
      without an open window nothing is sent. */
  lemma {:induction false} TicksNotify(e: Engine, probes: seq<ProbeResult>)
    requires e.live != {}
    ensures var r := RunTicks(e, probes);
            && (e.window == Open ==> |r.sent| == |e.sent| + |probes| && r.sent[..|e.sent|] == e.sent)
            && (e.window == Open && probes != [] ==> r.sent[|r.sent| - 1] == r.timer.seconds)
            && (e.window != Open ==> r.sent == e.sent)
    decreases |probes|
  {
    if probes != [] {
      var e' := AfterTick(e, probes[0]);
      TicksNotify(e', probes[1..]);
      TicksCountActive(e', probes[1..]);
      var r := RunTicks(e', probes[1..]);
      if e.window == Open {
        assert r.sent[..|e.sent|] == r.sent[..|e'.sent|][..|e.sent|];
      }
    }
  }

  /** Stopping twice is stopping once, and stopping never touches the seconds, the
      file or the messages. */
  lemma StopIdempotent(e: Engine)
    ensures AfterStop(AfterStop(e)) == AfterStop(e)
    ensures AfterStop(e).timer == e.timer && AfterStop(e).timerFile == e.timerFile && AfterStop(e).sent == e.sent
  {
  }

  /** Starting is not idempotent: after two starts a stop cancels only the second
      interval, and the first one keeps ticking. */
  lemma StartTwiceLeavesInterval(e: Engine, check1: bool, check2: bool)
    ensures var r := AfterStop(AfterStart(AfterStart(e, check1), check2));
            e.nextHandle in r.live && r.live != {}
  {
  }

  /** Start followed by stop cancels exactly the interval the start scheduled, since
      handles are never reused: the same intervals are live as before, so from a
      stopped state nothing is scheduled. */
  lemma StartThenStop(e: Engine, initialCheck: bool)
    requires HandlesFresh(e)
    ensures AfterStop(AfterStart(e, initialCheck)).live == e.live
    ensures e.live == {} ==> AfterStop(AfterStart(e, initialCheck)).live == {}
  {
    assert e.nextHandle !in e.live;
  }

  /** Every check in the run reports a running editor. */
  lemma {:induction false} CountRunningAll(probes: seq<ProbeResult>)
    requires forall i :: 0 <= i < |probes| ==> EditorRunning(probes[i])
    ensures CountRunning(probes) == |probes|
  {
    if probes != [] {
      CountRunningAll(probes[1..]);
    }
  }

  /** A run of ticks that all find the editor running, with the window open: the
      seconds grow by one per tick and are saved after each, and the window is sent
      one update per tick, the last one being the final seconds. */
  lemma AllRunningTicks(e: Engine, probes: seq<ProbeResult>)
    requires e.live != {} && e.window == Open
    requires probes != [] && forall i :: 0 <= i < |probes| ==> EditorRunning(probes[i])
    ensures var r := RunTicks(e, probes);
            && r.timer.seconds == e.timer.seconds + |probes|
            && r.timerFile == Some(SerializeTimerState(r.timer))
            && |r.sent| == |e.sent| + |probes| && r.sent[..|e.sent|] == e.sent
            && r.sent[|r.sent| - 1] == r.timer.seconds
  {
    CountRunningAll(probes);
    TicksCountActive(e, probes);
    TicksPersist(e, probes);
    TicksNotify(e, probes);
  }

  /** First run with no `timer.json`: the window opens and shows 0; `k` ticks that all
      find the editor running leave `k` seconds, saved in the file, which reads back as
      `k`, and the window was sent `k + 1` updates, from 0 up to `k`. (With `k` = 5:
      the file holds `{"seconds":5}`.) */
  lemma FreshStartActiveTicks(parse: string -> Option<TimerState>, probes: seq<ProbeResult>)
    requires probes != [] && forall i :: 0 <= i < |probes| ==> EditorRunning(probes[i])
    requires parse(SerializeTimerState(TimerState(|probes|))) == Some(TimerState(|probes|))
    ensures var r := RunTicks(AfterCreateWindow(Boot(None, parse)), probes);
            && r.timer == TimerState(|probes|)
            && r.timerFile == Some(SerializeTimerState(TimerState(|probes|)))
            && LoadTimerState(r.timerFile, parse) == TimerState(|probes|)
            && |r.sent| == |probes| + 1 && r.sent[0] == 0 && r.sent[|probes|] == |probes|
  {
    var e := AfterCreateWindow(Boot(None, parse));
    assert e.timer == TimerState(0) && e.sent == [0] && e.live != {} && e.window == Open;
    var r := RunTicks(e, probes);
    AllRunningTicks(e, probes);
    LoadAfterSave(TimerState(|probes|), parse);
    assert r.sent[0] == r.sent[..1][0];
  }

  /** The main module's timer state, updated in place by its event handlers. */
  class TimerProcess {
    var timerState: TimerState
    var timerFile: Option<string>
    var mainWindow: WindowRef
    var sent: seq<int>
    var live: set<nat>
    var intervalId: Option<nat>
    var nextHandle: nat

    function Snapshot(): Engine
      reads this
    {
      Engine(timerState, timerFile, mainWindow, sent, live, intervalId, nextHandle)
    }

    predicate Valid()
      reads this
    {
      HandlesFresh(Snapshot())
    }

    /** Module evaluation: `let timerState = loadTimerState()`. */
    constructor (file: Option<string>, parse: string -> Option<TimerState>)
      ensures Valid() && Snapshot() == Boot(file, parse)
    {
      timerState := LoadTimerState(file, parse);
      timerFile := file;
      mainWindow := Undefined;
      sent := [];
      live := {};
      intervalId := None;
      nextHandle := 0;
    }

    /** `saveTimerState(timerState)`: overwrites `timer.json` with the whole record. */
    method SaveTimerState()
      modifies this`timerFile
      ensures timerFile == Some(SerializeTimerState(timerState))
    {
      timerFile := Some(SerializeTimerState(timerState));
    }

    /** `mainWindow.webContents.send("update-timer", timerState.seconds)` when a window is open. */
    method NotifyWindow()
      modifies this`sent
      ensures sent == old(sent) + if mainWindow == Open then [timerState.seconds] else []
    {
      if mainWindow == Open {
        sent := sent + [timerState.seconds];
      }
    }

    method StartTimer(initialCheck: bool)
      requires Valid()
      modifies this
      ensures Valid() && Snapshot() == AfterStart(old(Snapshot()), initialCheck)
    {
      if initialCheck {
        NotifyWindow();
      }
      var handle := nextHandle;
      nextHandle := nextHandle + 1;
      live := live + {handle};
      intervalId := Some(handle);
    }

    /** One run of the interval callback; `probe` is what the running check reported. */
    method OnTick(probe: ProbeResult)
      requires live != {}
      modifies this
      ensures Snapshot() == AfterTick(old(Snapshot()), probe)
    {
      var vscodeRunning := EditorRunning(probe);
      if vscodeRunning {
        timerState := TimerState(timerState.seconds + 1);
        SaveTimerState();
      }
      NotifyWindow();
    }

    method StopTimer()
      requires Valid()
      modifies this
      ensures Valid() && Snapshot() == AfterStop(old(Snapshot()))
    {
      if intervalId.Some? {
        live := live - {intervalId.value};
      }
    }

    /** `createWindow` (the "ready" handler). */
    method CreateWindow()
      requires Valid()
      modifies this
      ensures Valid() && Snapshot() == AfterCreateWindow(old(Snapshot()))
    {
      mainWindow := Open;
      StartTimer(true);
    }

    /** The window's "closed" handler. */
    method OnWindowClosed()
      modifies this
      ensures Snapshot() == AfterWindowClosed(old(Snapshot()))
    {
      mainWindow := Null;
    }

    /** The "window-all-closed" handler, up to quitting the app. */
    method OnAllWindowsClosed()
      requires Valid()
      modifies this
      ensures Valid() && Snapshot() == AfterStop(old(Snapshot()))
    {
      StopTimer();
    }

    /** The "activate" handler. */
    method OnActivate()
      requires Valid()
      modifies this
      ensures Valid() && Snapshot() == AfterActivate(old(Snapshot()))
    {
      if mainWindow == Null {
        CreateWindow();
      }
    }

    /** The "before-quit" handler. */
    method OnBeforeQuit()
      modifies this
      ensures Snapshot() == AfterQuitSave(old(Snapshot()))
    {
      SaveTimerState();
    }
  }

  /** The places `getCodePath` tries, in order, when `which code` gives nothing usable. */
  const FallbackPaths: seq<string> := [
    "/usr/local/bin/code",
    "/opt/homebrew/bin/code",
    "/Applications/Visual Studio Code.app/Contents/Resources/app/bin/code"
  ]

  /** The editor executable, or the error raised when it cannot be found. */
  datatype CodePath = Found(path: string) | NotInstalled

  /** `getCodePath`. `whichOutput` is the stdout of `which code` (`None` when the
      command fails); `pathExists` stands for `fs.existsSync`. The trimmed `which`
      result wins if it exists; otherwise the first existing fallback path, in list
      order; otherwise the "not installed" error. */
  method GetCodePath(whichOutput: Option<string>, pathExists: string -> bool) returns (r: CodePath)
    ensures whichOutput.Some? && pathExists(Trim(whichOutput.value)) ==> r == Found(Trim(whichOutput.value))
    ensures !(whichOutput.Some? && pathExists(Trim(whichOutput.value))) ==>
              (r.Found? <==> exists i :: 0 <= i < |FallbackPaths| && pathExists(FallbackPaths[i]))
    ensures !(whichOutput.Some? && pathExists(Trim(whichOutput.value))) && r.Found? ==>
              exists i :: 0 <= i < |FallbackPaths| && r.path == FallbackPaths[i] && pathExists(FallbackPaths[i])
                          && forall j :: 0 <= j < i ==> !pathExists(FallbackPaths[j])
  {
    if whichOutput.Some? {
      var codePath := Trim(whichOutput.value);
      if pathExists(codePath) {
        return Found(codePath);
      }
    }
    var k := 0;
    while k < |FallbackPaths|
      invariant 0 <= k <= |FallbackPaths|
      invariant forall j :: 0 <= j < k ==> !pathExists(FallbackPaths[j])
    {
      if pathExists(FallbackPaths[k]) {
        return Found(FallbackPaths[k]);
      }
      k := k + 1;
    }
    return NotInstalled;
  }
}
