/**
 * `AutoPalette`: reads the system's "apps use light theme" value, waits for
 * changes to it, and reports each transition as `notifyPalette(!isLight)`.
 *
 * The registry and event calls are replaced by their outcomes: a read is
 * either a failure or the DWORD found, and each pass of the wait is one
 * `Wakeup`, either the step at which it failed or the read made after the
 * event fired.
 */
module Watcher {

  /** A Win32 `DWORD`: an unsigned 32-bit integer. */
  type DWord = n: int | 0 <= n < 0x1_0000_0000

  /** Conversion of a signed integer to `DWORD`, which wraps modulo 2^32. */
  function ToDWord(n: int): DWord {
    n % 0x1_0000_0000
  }

  /** The outcome of opening the Personalize key and querying `AppsUseLightTheme`. */
  datatype RegistryRead = OpenFailed | QueryFailed | Queried(data: DWord)

  /**
   * `readIsLight`: the value found, or -1 when opening or querying failed.
   * The conditional has type `DWORD`, so -1 arrives as 0xFFFFFFFF, and
   * that is nonzero: a read that fails counts as "light".
   */
  function ReadIsLight(r: RegistryRead): (d: DWord)
    ensures r.Queried? ==> d == r.data
    ensures !r.Queried? ==> d == 0xFFFF_FFFF
    ensures IsLight(d) <==> !r.Queried? || r.data != 0
  {
    if r.Queried? then r.data else ToDWord(-1)
  }

  /** `static_cast<bool>(d)`. */
  predicate IsLight(d: DWord) {
    d != 0
  }

  /**
   * One pass of `isLightEvent`: opening the key for notification, creating
   * the event, registering for change notification, or the wait itself can
   * fail; otherwise the key changed and the value was read again.
   */
  datatype Wakeup = KeyOpenFailed | EventCreateFailed | NotifyFailed | WaitFailed | Signalled(read: RegistryRead)

  /**
   * `isLightEvent(value)`: the new value of its in-out argument. Every
   * failure leaves it as it was; a completed wait replaces it by a fresh read.
   */
  function IsLightEvent(value: bool, w: Wakeup): (updated: bool)
    ensures !w.Signalled? ==> updated == value
    ensures w.Signalled? ==> (updated <==> !w.read.Queried? || w.read.data != 0)
  {
    if w.Signalled? then IsLight(ReadIsLight(w.read)) else value
  }

  /** The value read when the watcher thread starts. */
  function StartReading(initial: RegistryRead): bool {
    IsLight(ReadIsLight(initial))
  }

  /** The latest of `start` followed by the readings `rs`. */
  function LastReading(start: bool, rs: seq<bool>): bool {
    if rs == [] then start else rs[|rs| - 1]
  }

  /** The value of `islight` after each pass of the watcher loop, one per wake-up. */
  function Readings(start: bool, ws: seq<Wakeup>): (rs: seq<bool>)
    ensures |rs| == |ws|
    decreases |ws|
  {
    if ws == [] then []
    else
      var before := Readings(start, ws[..|ws| - 1]);
      before + [IsLightEvent(LastReading(start, before), ws[|ws| - 1])]
  }

  /**
   * What the watcher emits for a start value and the readings that follow:
   * `!start` first, then `!r` for each reading `r` that differs from the one
   * before it.
   */
  function Emissions(start: bool, rs: seq<bool>): seq<bool>
    decreases |rs|
  {
    if rs == [] then [!start]
    else
      var before := rs[..|rs| - 1];
      var current := rs[|rs| - 1];
      Emissions(start, before) + (if current != LastReading(start, before) then [!current] else [])
  }

  /** Consecutive values differ throughout `es`. */
  predicate Alternates(es: seq<bool>) {
    forall i :: 0 < i < |es| ==> es[i] != es[i - 1]
  }

  /**
   * The emissions start with `!start`, end with the negation of the latest
   * reading, and strictly alternate.
   */
  lemma {:induction false} EmissionsShape(start: bool, rs: seq<bool>)
    ensures |Emissions(start, rs)| >= 1
    ensures Emissions(start, rs)[0] == !start
    ensures Emissions(start, rs)[|Emissions(start, rs)| - 1] == !LastReading(start, rs)
    ensures Alternates(Emissions(start, rs))
    decreases |rs|
  {
    if rs != [] {
      var before := rs[..|rs| - 1];
      EmissionsShape(start, before);
    }
  }

  /** The number of readings in `rs` that differ from the reading (or start value) before them. */
  function Changes(start: bool, rs: seq<bool>): nat
    decreases |rs|
  {
    if rs == [] then 0
    else (if rs[0] != start then 1 else 0) + Changes(rs[0], rs[1..])
  }

  lemma {:induction false} ChangesAppend(start: bool, rs: seq<bool>, x: bool)
    ensures Changes(start, rs + [x]) == Changes(start, rs) + (if x != LastReading(start, rs) then 1 else 0)
    decreases |rs|
  {
    if rs != [] {
      assert (rs + [x])[1..] == rs[1..] + [x];
      ChangesAppend(rs[0], rs[1..], x);
      assert LastReading(rs[0], rs[1..]) == LastReading(start, rs);
    }
  }

  /** One emission for the start value and one for each transition. */
  lemma {:induction false} EmissionCount(start: bool, rs: seq<bool>)
    ensures |Emissions(start, rs)| == 1 + Changes(start, rs)
    decreases |rs|
  {
    if rs != [] {
      var before := rs[..|rs| - 1];
      EmissionCount(start, before);
      ChangesAppend(start, before, rs[|rs| - 1]);
      assert before + [rs[|rs| - 1]] == rs;
    }
  }

  /** `xs` with every run of equal neighbours reduced to one element. */
  function Collapse(xs: seq<bool>): seq<bool>
    decreases |xs|
  {
    if |xs| <= 1 then xs
    else if xs[0] == xs[1] then Collapse(xs[1..])
    else [xs[0]] + Collapse(xs[1..])
  }

  function Negated(xs: seq<bool>): (ys: seq<bool>)
    ensures |ys| == |xs| && forall i :: 0 <= i < |xs| ==> ys[i] == !xs[i]
  {
    seq(|xs|, i requires 0 <= i < |xs| => !xs[i])
  }

  lemma {:induction false} CollapseAppend(xs: seq<bool>, x: bool)
    requires xs != []
    ensures Collapse(xs + [x]) == Collapse(xs) + (if x != xs[|xs| - 1] then [x] else [])
    decreases |xs|
  {
    if |xs| > 1 {
      assert (xs + [x])[1..] == xs[1..] + [x];
      CollapseAppend(xs[1..], x);
    }
  }

  /**
   * De-duplication, stated on its own: the emissions are exactly the start
   * value and the readings with every repeat dropped, each negated.
   */
  lemma {:induction false} EmissionsAreCollapsedReadings(start: bool, rs: seq<bool>)
    ensures Emissions(start, rs) == Negated(Collapse([start] + rs))
    decreases |rs|
  {
    if rs != [] {
      var before := rs[..|rs| - 1];
      var current := rs[|rs| - 1];
      EmissionsAreCollapsedReadings(start, before);
      CollapseAppend([start] + before, current);
      assert [start] + before + [current] == [start] + rs;
      assert ([start] + before)[|[start] + before| - 1] == LastReading(start, before);
    }
  }

  /** One pass of the watcher loop, stated on the reference definitions. */
  lemma LoopStep(start: bool, ws: seq<Wakeup>, i: nat, previous: bool, current: bool)
    requires i < |ws|
    requires previous == LastReading(start, Readings(start, ws[..i]))
    requires current == IsLightEvent(previous, ws[i])
    ensures LastReading(start, Readings(start, ws[..i + 1])) == current
    ensures Emissions(start, Readings(start, ws[..i + 1]))
         == Emissions(start, Readings(start, ws[..i])) + (if current != previous then [!current] else [])
  {
    var rs := Readings(start, ws[..i]);
    assert ws[..i + 1][..i] == ws[..i];
    assert (rs + [current])[..|rs|] == rs;
  }

  /** Every emission the watcher makes for an initial read and a run of wake-ups. */
  function WatchEmissions(initial: RegistryRead, ws: seq<Wakeup>): seq<bool> {
    Emissions(StartReading(initial), Readings(StartReading(initial), ws))
  }

  /** The value of `islight` after the wake-ups `ws`. */
  function FinalReading(initial: RegistryRead, ws: seq<Wakeup>): bool {
    LastReading(StartReading(initial), Readings(StartReading(initial), ws))
  }

  lemma {:induction false} FailedWakeupsKeepReading(start: bool, ws: seq<Wakeup>)
    requires forall i :: 0 <= i < |ws| ==> !ws[i].Signalled?
    ensures forall i :: 0 <= i < |ws| ==> Readings(start, ws)[i] == start
    decreases |ws|
  {
    if ws != [] {
      FailedWakeupsKeepReading(start, ws[..|ws| - 1]);
    }
  }

  lemma {:induction false} SteadyReadingsNoChanges(start: bool, rs: seq<bool>)
    requires forall i :: 0 <= i < |rs| ==> rs[i] == start
    ensures Changes(start, rs) == 0
    decreases |rs|
  {
    if rs != [] {
      SteadyReadingsNoChanges(start, rs[1..]);
    }
  }

  /** Wake-ups that all fail add nothing to the single initial emission. */
  lemma FailedWakeupsEmitNothing(initial: RegistryRead, ws: seq<Wakeup>)
    requires forall i :: 0 <= i < |ws| ==> !ws[i].Signalled?
    ensures WatchEmissions(initial, ws) == [!StartReading(initial)]
  {
    var start := StartReading(initial);
    FailedWakeupsKeepReading(start, ws);
    SteadyReadingsNoChanges(start, Readings(start, ws));
    EmissionCount(start, Readings(start, ws));
    EmissionsShape(start, Readings(start, ws));
  }

  /** The shape and count laws, for the emissions of a whole run. */
  lemma WatchEmissionsShape(initial: RegistryRead, ws: seq<Wakeup>)
    ensures |WatchEmissions(initial, ws)| == 1 + Changes(StartReading(initial), Readings(StartReading(initial), ws))
    ensures WatchEmissions(initial, ws)[0] == !StartReading(initial)
    ensures WatchEmissions(initial, ws)[|WatchEmissions(initial, ws)| - 1] == !FinalReading(initial, ws)
    ensures Alternates(WatchEmissions(initial, ws))
  {
    var start := StartReading(initial);
    EmissionsShape(start, Readings(start, ws));
    EmissionCount(start, Readings(start, ws));
  }

  /**
   * The body of the watcher thread: read the value, emit its negation, then
   * after each wake-up emit the negation of the value again when it changed.
   * The thread's loop never ends; this runs it over a finite run of wake-ups.
   */
  method WatchThemeChanges(initial: RegistryRead, wakeups: seq<Wakeup>) returns (emitted: seq<bool>)
    ensures emitted == WatchEmissions(initial, wakeups)
  {
    var isLight := IsLight(ReadIsLight(initial));
    ghost var start := isLight;
    emitted := [!isLight];
    var temp := isLight;
    var i := 0;
    while i < |wakeups|
      invariant 0 <= i <= |wakeups|
      invariant isLight == LastReading(start, Readings(start, wakeups[..i]))
      invariant emitted == Emissions(start, Readings(start, wakeups[..i]))
    {
      temp := isLight;
      isLight := IsLightEvent(isLight, wakeups[i]);
      LoopStep(start, wakeups, i, temp, isLight);
      if temp != isLight {
        emitted := emitted + [!isLight];
      }
      i := i + 1;
    }
    assert wakeups[..i] == wakeups;
  }

  /** Example: start light; a change notification with the value unchanged; then dark. */
  lemma LightThenSpuriousThenDark()
    ensures WatchEmissions(Queried(1), [Signalled(Queried(1)), Signalled(Queried(0))]) == [false, true]
  {
    var ws := [Signalled(Queried(1)), Signalled(Queried(0))];
    assert ws[..1] == [Signalled(Queried(1))];
    assert Readings(true, ws[..1]) == [true];
    assert Readings(true, ws) == [true, false];
    var rs := [true, false];
    assert rs[..1] == [true];
    assert Emissions(true, [true]) == [false];
  }

  /** A request made to the `QThread` that runs the watcher. */
  datatype ThreadCommand = Start | Quit

  /** `mThread`: null, or the one thread created, with the requests made to it in order. */
  datatype ThreadHandle = NoThread | Thread(commands: seq<ThreadCommand>)

  /** `event ? start() : quit()`. */
  function CommandFor(event: bool): (c: ThreadCommand)
    ensures c == Start <==> event
  {
    if event then Start else Quit
  }

  /** The `AutoPalette` object: its watcher thread and its auto-palette flag. */
  class AutoPalette {
    var thread: ThreadHandle
    var autoPaletteFlag: bool

    /**
     * `mThread` starts null. The constructor leaves `m_autoPalette`
     * uninitialised, so its first value is whatever `indeterminate` is.
     */
    constructor (indeterminate: bool)
      ensures thread == NoThread
      ensures autoPaletteFlag == indeterminate
    {
      thread := NoThread;
      autoPaletteFlag := indeterminate;
    }

    /** `autoPalette()`. */
    function GetAutoPalette(): bool
      reads this
    {
      autoPaletteFlag
    }

    /** `setAutoPalette(b)`: the getter returns `b` afterwards; the thread is untouched. */
    method SetAutoPalette(b: bool)
      modifies this`autoPaletteFlag
      ensures GetAutoPalette() == b
    {
      autoPaletteFlag := b;
    }

    /**
     * `isLightEventLoop(event)`: the first call creates the thread, every
     * later call asks the existing one to quit; then the thread is started
     * when `event` is true and asked to quit otherwise. No call replaces a
     * thread once it exists.
     */
    method IsLightEventLoop(event: bool)
      modifies this`thread
      ensures thread.Thread?
      ensures old(thread).NoThread? ==> thread.commands == [CommandFor(event)]
      ensures old(thread).Thread? ==> thread.commands == old(thread).commands + [Quit, CommandFor(event)]
    {
      if thread.Thread? {
        thread := Thread(thread.commands + [Quit]);
      } else {
        thread := Thread([]);
      }
      thread := Thread(thread.commands + [CommandFor(event)]);
    }
  }
}
