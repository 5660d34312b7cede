/**
 * The launcher (framework/source/launcher.cpp): the resource path taken from
 * the command line, the frames-per-second counter in the window title, the
 * key dispatch, the shader hot-reload and the per-frame planet table of the
 * main loop.
 *
 * GLFW's window state (the close flag, the title, the framebuffer size) is
 * held in fields of `Launcher`; the clock is a parameter; the shader compiler
 * is an oracle given as the handles it returns for one reload.
 */
module Framework {
  import opened Wrappers
  import opened Solar

  // ---------------------------------------------------------------------
  // Constants of the windowing library (GLFW/glfw3.h) and of the launcher
  // ---------------------------------------------------------------------

  const KeyQ: int := 81
  const KeyR: int := 82
  const KeyEscape: int := 256

  /** The size the window is created with. */
  const InitialWidth: int := 2048
  const InitialHeight: int := 960

  /** The title the window is created with. */
  const WindowTitle: string := "OpenGL Framework"

  // ---------------------------------------------------------------------
  // The resource path
  // ---------------------------------------------------------------------

  /** The characters `find_last_of("/\\")` looks for. */
  predicate IsSeparator(c: char)
  {
    c == '/' || c == '\\'
  }

  /** `find_last_of("/\\")`: the index of the last separator, `None` for `npos`. */
  function FindLastSeparator(s: string): (r: Option<nat>)
    ensures r.Some? ==> r.value < |s| && IsSeparator(s[r.value])
    ensures r.Some? ==> forall k :: r.value < k < |s| ==> !IsSeparator(s[k])
    ensures r.None? ==> forall k :: 0 <= k < |s| ==> !IsSeparator(s[k])
    decreases |s|
  {
    if s == [] then None
    else if IsSeparator(s[|s| - 1]) then Some(|s| - 1)
    else FindLastSeparator(s[..|s| - 1])
  }

  /** What is appended to the directory of the executable. */
  const ResourceSuffix: string := "/../../resources/"

  /** A default resource path derived from the executable's path `exe`: a prefix of `exe`
      followed by the suffix, where the dropped tail of `exe` is either empty (and `exe` has no
      separator at all) or starts with a separator and contains no other. */
  ghost predicate IsDefaultPath(exe: string, r: string)
  {
    && |r| >= |ResourceSuffix|
    && r[|r| - |ResourceSuffix|..] == ResourceSuffix
    && var kept := r[..|r| - |ResourceSuffix|];
       && kept <= exe
       && var tail := exe[|kept|..];
          if tail == [] then forall k :: 0 <= k < |exe| ==> !IsSeparator(exe[k])
          else IsSeparator(tail[0]) && forall k :: 0 < k < |tail| ==> !IsSeparator(tail[k])
  }

  /** `resourcePath(argc, argv)`, with `argv` as the argument list (`argc` is its length): the
      first argument when there is one, otherwise the executable's directory followed by the
      suffix. */
  function ResourcePath(args: seq<string>): (r: string)
    requires |args| >= 1
    ensures |args| > 1 ==> r == args[1]
    ensures |args| == 1 ==> IsDefaultPath(args[0], r)
  {
    if |args| > 1 then args[1]
    else
      var exe := args[0];
      var kept := match FindLastSeparator(exe)
        case Some(i) => exe[..i]
        case None => exe;
      assert (kept + ResourceSuffix)[..|kept|] == kept;
      kept + ResourceSuffix
  }

  // ---------------------------------------------------------------------
  // The frames-per-second title
  // ---------------------------------------------------------------------

  function DigitChar(d: nat): (c: char)
    requires d < 10
    ensures '0' <= c <= '9' && (c as int) - ('0' as int) == d
  {
    ['0', '1', '2', '3', '4', '5', '6', '7', '8', '9'][d]
  }

  predicate IsDigits(s: string)
  {
    forall k :: 0 <= k < |s| ==> '0' <= s[k] <= '9'
  }

  /** `std::to_string` of an unsigned count: decimal digits, no leading zero. */
  function DecimalString(n: nat): (r: string)
    ensures |r| >= 1 && IsDigits(r)
    ensures r[0] == '0' ==> n == 0 && r == "0"
    decreases n
  {
    if n < 10 then [DigitChar(n)] else DecimalString(n / 10) + [DigitChar(n % 10)]
  }

  /** The number a string of decimal digits denotes. */
  function DecimalValue(s: string): nat
    requires IsDigits(s)
    decreases |s|
  {
    if s == [] then 0 else DecimalValue(s[..|s| - 1]) * 10 + ((s[|s| - 1] as int) - ('0' as int))
  }

  /** Reading the digits back gives the count. */
  lemma {:induction false} DecimalRoundTrip(n: nat)
    ensures DecimalValue(DecimalString(n)) == n
    decreases n
  {
    if n >= 10 {
      DecimalRoundTrip(n / 10);
      var s := DecimalString(n);
      assert s[..|s| - 1] == DecimalString(n / 10);
    }
  }

  /** The title `show_fps` sets: "OpenGL Framework - <count> fps". */
  function FpsTitle(count: nat): string
  {
    WindowTitle + " - " + DecimalString(count) + " fps"
  }

  /** The count can be read back from the title, between the fixed prefix and suffix. */
  lemma TitleReportsCount(count: nat)
    ensures |FpsTitle(count)| >= 23
    ensures FpsTitle(count)[..19] == "OpenGL Framework - "
    ensures FpsTitle(count)[|FpsTitle(count)| - 4..] == " fps"
    ensures IsDigits(FpsTitle(count)[19..|FpsTitle(count)| - 4])
    ensures DecimalValue(FpsTitle(count)[19..|FpsTitle(count)| - 4]) == count
  {
    var digits := DecimalString(count);
    var t := FpsTitle(count);
    assert t == "OpenGL Framework - " + digits + " fps";
    assert t[19..|t| - 4] == digits;
    DecimalRoundTrip(count);
  }

  // ---------------------------------------------------------------------
  // The frames-per-second counter
  // ---------------------------------------------------------------------

  /** `m_frames_per_second` and `m_last_second_time`. */
  datatype FpsCounter = FpsCounter(frames: nat, lastSecond: real)

  /** The state of a `show_fps` call: the new counter and the count reported in the title, if any. */
  datatype TickResult = TickResult(counter: FpsCounter, report: Option<nat>)

  /** Both fields start at zero. */
  const InitialCounter: FpsCounter := FpsCounter(0, 0.0)

  /** One `show_fps` call at time `now`. */
  function Tick(c: FpsCounter, now: real): (r: TickResult)
    ensures r.report.Some? <==> now - c.lastSecond >= 1.0
    ensures r.report.Some? ==> r.report.value == c.frames + 1 && r.counter == FpsCounter(0, now)
    ensures r.report.None? ==> r.counter == FpsCounter(c.frames + 1, c.lastSecond)
  {
    var frames := c.frames + 1;
    if now - c.lastSecond >= 1.0 then TickResult(FpsCounter(0, now), Some(frames))
    else TickResult(FpsCounter(frames, c.lastSecond), None)
  }

  /** A run of `show_fps` calls: the final counter and the counts reported, in order. */
  function Run(c: FpsCounter, times: seq<real>): (FpsCounter, seq<nat>)
    decreases |times|
  {
    if times == [] then (c, [])
    else
      var step := Tick(c, times[0]);
      var rest := Run(step.counter, times[1..]);
      (rest.0, (if step.report.Some? then [step.report.value] else []) + rest.1)
  }

  function Sum(xs: seq<nat>): nat
    decreases |xs|
  {
    if xs == [] then 0 else xs[0] + Sum(xs[1..])
  }

  /** Every frame is counted exactly once: the reported counts plus the frames still being
      counted are the frames counted at the start plus one per call. */
  lemma {:induction false} FramesCountedOnce(c: FpsCounter, times: seq<real>)
    ensures Sum(Run(c, times).1) + Run(c, times).0.frames == c.frames + |times|
    decreases |times|
  {
    if times != [] {
      var step := Tick(c, times[0]);
      FramesCountedOnce(step.counter, times[1..]);
      var reported := if step.report.Some? then [step.report.value] else [];
      var rest := Run(step.counter, times[1..]).1;
      if step.report.Some? {
        assert (reported + rest)[1..] == rest;
      } else {
        assert reported + rest == rest;
      }
    }
  }

  /** Within a second of the last report nothing is reported and the count only grows. */
  lemma {:induction false} QuietSecond(c: FpsCounter, times: seq<real>)
    requires forall k :: 0 <= k < |times| ==> times[k] - c.lastSecond < 1.0
    ensures Run(c, times) == (FpsCounter(c.frames + |times|, c.lastSecond), [])
    decreases |times|
  {
    if times != [] {
      var next := FpsCounter(c.frames + 1, c.lastSecond);
      assert Tick(c, times[0]) == TickResult(next, None);
      assert forall k :: 0 <= k < |times[1..]| ==> times[1..][k] - next.lastSecond < 1.0 by {
        forall k | 0 <= k < |times[1..]|
          ensures times[1..][k] - next.lastSecond < 1.0
        {
          assert times[1..][k] == times[k + 1];
        }
      }
      QuietSecond(next, times[1..]);
      assert [] + Run(next, times[1..]).1 == [];
    }
  }

  // ---------------------------------------------------------------------
  // Key dispatch
  // ---------------------------------------------------------------------

  datatype KeyAction = Quit | Reload | Ignore

  /** The branch `key_callback` takes. */
  function Dispatch(key: int, action: int): (r: KeyAction)
    ensures r == Quit <==> (key == KeyEscape || key == KeyQ) && action == Press
    ensures r == Reload <==> key == KeyR && action == Press
  {
    if (key == KeyEscape || key == KeyQ) && action == Press then Quit
    else if key == KeyR && action == Press then Reload
    else Ignore
  }

  // ---------------------------------------------------------------------
  // Shader hot-reload
  // ---------------------------------------------------------------------

  /** How many programs, in visiting order, compile before the first one that does not;
      `compiled` holds the handle the loader returns for each program that compiles. */
  function CompiledPrefix(order: seq<ProgramName>, compiled: map<ProgramName, int>): (r: nat)
    ensures r <= |order|
    ensures forall i :: 0 <= i < r ==> order[i] in compiled
    ensures r < |order| ==> order[r] !in compiled
    decreases |order|
  {
    if order == [] || order[0] !in compiled then 0 else 1 + CompiledPrefix(order[1..], compiled)
  }

  /** The registry once the programs in `done`, one after the other, have been given the handle
      the compiler returned for them. */
  function Reloaded(m: map<ProgramName, ShaderProgram>, done: seq<ProgramName>, compiled: map<ProgramName, int>)
    : map<ProgramName, ShaderProgram>
    decreases |done|
  {
    if done == [] then m
    else
      var r := Reloaded(m, done[..|done| - 1], compiled);
      var n := done[|done| - 1];
      if n in r && n in compiled then r[n := r[n].(handle := compiled[n])] else r
  }

  /** Reloading keeps every program and changes nothing but the handles of the programs
      reloaded, which become the compiler's. */
  lemma {:induction false} ReloadedSpec(m: map<ProgramName, ShaderProgram>, done: seq<ProgramName>, compiled: map<ProgramName, int>)
    ensures Reloaded(m, done, compiled).Keys == m.Keys
    ensures forall n :: n in m ==>
      Reloaded(m, done, compiled)[n] == if n in done && n in compiled then m[n].(handle := compiled[n]) else m[n]
    decreases |done|
  {
    if done != [] {
      var prefix := done[..|done| - 1];
      ReloadedSpec(m, prefix, compiled);
      assert done == prefix + [done[|done| - 1]];
    }
  }

  /** The `glDeleteProgram` calls for the old handles of `done`, in order. */
  function Deletions(m: map<ProgramName, ShaderProgram>, done: seq<ProgramName>): seq<GlCall>
    requires forall n :: n in done ==> n in m
    decreases |done|
  {
    if done == [] then [] else Deletions(m, done[..|done| - 1]) + [DeleteProgram(m[done[|done| - 1]].handle)]
  }

  lemma {:induction false} DeletionsLayout(m: map<ProgramName, ShaderProgram>, done: seq<ProgramName>)
    requires forall n :: n in done ==> n in m
    ensures |Deletions(m, done)| == |done|
    ensures forall i :: 0 <= i < |done| ==> Deletions(m, done)[i] == DeleteProgram(m[done[i]].handle)
    decreases |done|
  {
    if done != [] {
      DeletionsLayout(m, done[..|done| - 1]);
    }
  }

  /** Visiting order never repeats a program. */
  lemma VisitingOnce(m: map<ProgramName, ShaderProgram>, i: nat, k: nat)
    requires i < |Visiting(m)| && k <= |Visiting(m)| && k <= i
    ensures Visiting(m)[i] !in Visiting(m)[..k]
  {
    var order := Visiting(m);
    forall j | 0 <= j < k
      ensures order[..k][j] != order[i]
    {
      assert order[j] == PlanetProgram && order[i] == StarsProgram;
    }
  }

  /** One step of the reload loop: the next program in visiting order has not been touched yet,
      so giving it its new handle, and deleting the handle it had, extends the reloaded prefix
      by one. */
  lemma ReloadStep(m: map<ProgramName, ShaderProgram>, order: seq<ProgramName>, i: nat, compiled: map<ProgramName, int>)
    requires order == Visiting(m) && i < |order| && order[i] in compiled
    ensures order[i] in m
    ensures var r := Reloaded(m, order[..i], compiled);
      && order[i] in r && r[order[i]] == m[order[i]]
      && Reloaded(m, order[..i + 1], compiled) == r[order[i] := r[order[i]].(handle := compiled[order[i]])]
      && Deletions(m, order[..i + 1]) == Deletions(m, order[..i]) + [DeleteProgram(r[order[i]].handle)]
  {
    var done, n := order[..i], order[i];
    ReloadUntouched(m, order, i, compiled);
    assert order[..i + 1] == done + [n];
    ReloadedSnoc(m, done, n, compiled);
    assert forall x :: x in done ==> x in order;
    DeletionsSnoc(m, done, n);
  }

  lemma ReloadedSnoc(m: map<ProgramName, ShaderProgram>, done: seq<ProgramName>, n: ProgramName, compiled: map<ProgramName, int>)
    ensures var r := Reloaded(m, done, compiled);
      Reloaded(m, done + [n], compiled) == if n in r && n in compiled then r[n := r[n].(handle := compiled[n])] else r
  {
    assert (done + [n])[..|done|] == done;
  }

  lemma DeletionsSnoc(m: map<ProgramName, ShaderProgram>, done: seq<ProgramName>, n: ProgramName)
    requires (forall x :: x in done ==> x in m) && n in m
    ensures Deletions(m, done + [n]) == Deletions(m, done) + [DeleteProgram(m[n].handle)]
  {
    assert (done + [n])[..|done|] == done;
  }

  /** The program at `i` is not among those before it, so they left it as it was. */
  lemma ReloadUntouched(m: map<ProgramName, ShaderProgram>, order: seq<ProgramName>, i: nat, compiled: map<ProgramName, int>)
    requires order == Visiting(m) && i < |order|
    ensures order[i] in m
    ensures order[i] in Reloaded(m, order[..i], compiled) && Reloaded(m, order[..i], compiled)[order[i]] == m[order[i]]
  {
    VisitingOnce(m, i, i);
    ReloadedSpec(m, order[..i], compiled);
  }

  /** The outcome of a reload of `m`, which visits the programs in `order` and stops at the
      `k`-th: the programs compiled before the first failure have their new handles and had their
      old ones deleted, in visiting order; the failing program and those after it keep their
      handles. */
  lemma ReloadOutcome(m: map<ProgramName, ShaderProgram>, compiled: map<ProgramName, int>, order: seq<ProgramName>, k: nat)
    requires order == Visiting(m) && k == CompiledPrefix(order, compiled)
    ensures Reloaded(m, order[..k], compiled).Keys == m.Keys
    ensures forall i :: 0 <= i < k ==> Reloaded(m, order[..k], compiled)[order[i]] == m[order[i]].(handle := compiled[order[i]])
    ensures forall i :: k <= i < |order| ==> Reloaded(m, order[..k], compiled)[order[i]] == m[order[i]]
    ensures |Deletions(m, order[..k])| == k
    ensures forall i :: 0 <= i < k ==> Deletions(m, order[..k])[i] == DeleteProgram(m[order[i]].handle)
  {
    var r := Reloaded(m, order[..k], compiled);
    ReloadedSpec(m, order[..k], compiled);
    forall i | 0 <= i < k
      ensures r[order[i]] == m[order[i]].(handle := compiled[order[i]])
    {
      assert order[..k][i] == order[i];
    }
    forall i | k <= i < |order|
      ensures r[order[i]] == m[order[i]]
    {
      VisitingOnce(m, i, k);
    }
    DeletionsLayout(m, order[..k]);
  }

  /** A reload never removes a program or a uniform, so the registry stays ready to draw. */
  lemma ReloadKeepsReady(m: map<ProgramName, ShaderProgram>, done: seq<ProgramName>, compiled: map<ProgramName, int>)
    requires ShadersReady(m)
    ensures ShadersReady(Reloaded(m, done, compiled))
  {
    ReloadedSpec(m, done, compiled);
  }

  // ---------------------------------------------------------------------
  // The main loop's planet table
  // ---------------------------------------------------------------------

  /** The table `mainLoop` builds every frame: the application's values, names left empty. */
  function LauncherTable(): seq<Planet>
  {
    [ Planet(0.0, 0.0, 7.0, 1.0, ""),
      Planet(8.0, 2.5, EarthSize * 0.7, 1.0, ""),
      Planet(9.0, 2.0, EarthSize * 0.9, 1.0, ""),
      Planet(10.0, 1.2, EarthSize, 1.0, ""),
      Planet(11.0, 1.0, EarthSize * 0.5, 1.0, ""),
      Planet(15.0, 0.8, EarthSize * 1.4, 1.0, ""),
      Planet(18.0, 0.7, EarthSize * 1.3, 1.0, ""),
      Planet(14.0, 0.5, EarthSize * 3.0, 1.0, ""),
      Planet(15.0, 0.4, EarthSize * 1.1, 1.0, "") ]
  }

  /** The launcher's table agrees with the application's in every number. */
  lemma LauncherTableMatches()
    ensures |LauncherTable()| == |SolarTable()| == 9
    ensures forall i :: 0 <= i < 9 ==> LauncherTable()[i] == SolarTable()[i].(name := "")
  {
  }

  /** So a frame issues the same ten draws: one per entry, earth's moon right after earth. */
  lemma LauncherPass(program: int)
    ensures |PlanetPass(program, LauncherTable())| == 10
    ensures PlanetPass(program, LauncherTable())[3] == DrawBody(program, LauncherTable()[3])
    ensures PlanetPass(program, LauncherTable())[4] == DrawMoon(program, LauncherTable()[3])
    ensures forall j :: 0 <= j < 10 && j != 4 ==> PlanetPass(program, LauncherTable())[j].DrawBody?
    ensures BodiesDrawn(PlanetPass(program, LauncherTable())) == LauncherTable()
  {
    PassDrawsBodiesInOrder(program, LauncherTable());
    NineBodyPass(program, LauncherTable());
  }

  // ---------------------------------------------------------------------
  // The main loop's input
  // ---------------------------------------------------------------------

  /** What polling delivers: a key event (with the compile outcome of the reload it might
      trigger), a framebuffer resize, or a click on the window's close button, on which GLFW sets
      the close flag itself. */
  datatype Event =
    | KeyEvent(key: int, action: int, compiled: map<ProgramName, int>)
    | Resize(width: int, height: int)
    | CloseRequest

  /** One turn of the loop: the events polled, and the clock when `show_fps` reads it. */
  datatype FrameInput = FrameInput(events: seq<Event>, now: real)

  predicate IsQuit(e: Event)
  {
    e.CloseRequest? || (e.KeyEvent? && Dispatch(e.key, e.action) == Quit)
  }

  predicate RequestsQuit(events: seq<Event>)
  {
    exists k :: 0 <= k < |events| && IsQuit(events[k])
  }

  /** What the events of a poll can change: the close flag, the framebuffer size, the registry
      and the GL log. */
  datatype WindowState = WindowState(shouldClose: bool, width: int, height: int,
                                     shaders: map<ProgramName, ShaderProgram>, log: seq<GlCall>)

  /** The programs a reload recompiles: those in visiting order before the first that fails. */
  function ReloadedPrefix(m: map<ProgramName, ShaderProgram>, compiled: map<ProgramName, int>): (r: seq<ProgramName>)
    ensures forall n :: n in r ==> n in m
  {
    var order := Visiting(m);
    var k := CompiledPrefix(order, compiled);
    assert forall n :: n in order[..k] ==> n in order;
    order[..k]
  }

  /** `update_shader_programs` when no failure escapes: the reloaded prefix and its deletions,
      then the uniforms uploaded and the projection updated for the current framebuffer size. */
  function AfterReload(w: WindowState, compiled: map<ProgramName, int>, viewSteps: int): (r: WindowState)
    ensures r.shaders.Keys == w.shaders.Keys
    ensures ShadersReady(w.shaders) ==> ShadersReady(r.shaders)
    ensures r.shouldClose == w.shouldClose && r.width == w.width && r.height == w.height
  {
    var done := ReloadedPrefix(w.shaders, compiled);
    ReloadedSpec(w.shaders, done, compiled);
    w.(shaders := Reloaded(w.shaders, done, compiled),
       log := w.log + Deletions(w.shaders, done)
              + [QueryLocations, UploadView(viewSteps), UploadProjection, SetProjection(w.width, w.height, w.width < w.height)])
  }

  /** A window whose registry is the reloaded one and whose log gained the deletions and then the
      uploads is the window after the reload. */
  lemma AfterReloadIs(w: WindowState, compiled: map<ProgramName, int>, viewSteps: int,
                      shaders: map<ProgramName, ShaderProgram>, reloaded: seq<GlCall>, log: seq<GlCall>)
    requires shaders == Reloaded(w.shaders, ReloadedPrefix(w.shaders, compiled), compiled)
    requires reloaded == w.log + Deletions(w.shaders, ReloadedPrefix(w.shaders, compiled))
    requires log == reloaded + [QueryLocations, UploadView(viewSteps), UploadProjection, SetProjection(w.width, w.height, w.width < w.height)]
    ensures AfterReload(w, compiled, viewSteps) == w.(shaders := shaders, log := log)
  {
  }

  /** The effect of one polled event: `key_callback`, the framebuffer-size callback, or the close
      button. */
  function Handle(w: WindowState, e: Event, viewSteps: int): (r: WindowState)
    ensures r.shaders.Keys == w.shaders.Keys
    ensures ShadersReady(w.shaders) ==> ShadersReady(r.shaders)
  {
    match e
    case KeyEvent(key, action, compiled) =>
      (match Dispatch(key, action)
       case Quit => w.(shouldClose := true)
       case Reload => AfterReload(w, compiled, viewSteps)
       case Ignore => w)
    case Resize(width, height) => w.(width := width, height := height, log := w.log + [SetProjection(width, height, width < height)])
    case CloseRequest => w.(shouldClose := true)
  }

  /** The effect of the events of one poll, in order. */
  function Poll(w: WindowState, events: seq<Event>, viewSteps: int): (r: WindowState)
    ensures r.shaders.Keys == w.shaders.Keys
    ensures ShadersReady(w.shaders) ==> ShadersReady(r.shaders)
    decreases |events|
  {
    if events == [] then w
    else Handle(Poll(w, events[..|events| - 1], viewSteps), events[|events| - 1], viewSteps)
  }

  /** No `glDrawArrays` of the star field among these calls. */
  predicate DrawsNoStars(log: seq<GlCall>)
  {
    forall j :: 0 <= j < |log| ==> !log[j].DrawStars?
  }

  /** The log only grows, and by no star draw. */
  predicate GrowsWithoutStars(before: seq<GlCall>, after: seq<GlCall>)
  {
    before <= after && DrawsNoStars(after[|before|..])
  }

  lemma GrowsWithoutStarsTrans(a: seq<GlCall>, b: seq<GlCall>, c: seq<GlCall>)
    requires GrowsWithoutStars(a, b) && GrowsWithoutStars(b, c)
    ensures GrowsWithoutStars(a, c)
  {
    assert c[|a|..] == b[|a|..] + c[|b|..];
  }

  lemma GrowsByNoStars(a: seq<GlCall>, tail: seq<GlCall>)
    requires DrawsNoStars(tail)
    ensures GrowsWithoutStars(a, a + tail)
  {
    assert (a + tail)[|a|..] == tail;
  }

  lemma DeletionsDrawNoStars(m: map<ProgramName, ShaderProgram>, done: seq<ProgramName>)
    requires forall n :: n in done ==> n in m
    ensures DrawsNoStars(Deletions(m, done))
  {
    DeletionsLayout(m, done);
  }

  /** A reload deletes programs and uploads uniforms; it draws nothing. */
  lemma ReloadDrawsNoStars(w: WindowState, compiled: map<ProgramName, int>, viewSteps: int)
    ensures GrowsWithoutStars(w.log, AfterReload(w, compiled, viewSteps).log)
  {
    var done := ReloadedPrefix(w.shaders, compiled);
    var deletions := Deletions(w.shaders, done);
    var uploads: seq<GlCall> := [QueryLocations, UploadView(viewSteps), UploadProjection, SetProjection(w.width, w.height, w.width < w.height)];
    DeletionsDrawNoStars(w.shaders, done);
    forall j | 0 <= j < |deletions + uploads|
      ensures !(deletions + uploads)[j].DrawStars?
    {
      if j < |deletions| {
        assert (deletions + uploads)[j] == deletions[j];
      }
    }
    GrowsByNoStars(w.log, deletions + uploads);
    assert AfterReload(w, compiled, viewSteps).log == w.log + deletions + uploads == w.log + (deletions + uploads);
  }

  /** No event of a poll draws the star field. */
  lemma {:induction false} PollDrawsNoStars(w: WindowState, events: seq<Event>, viewSteps: int)
    ensures GrowsWithoutStars(w.log, Poll(w, events, viewSteps).log)
    decreases |events|
  {
    if events == [] {
      assert w.log[|w.log|..] == [];
    } else {
      var front := Poll(w, events[..|events| - 1], viewSteps);
      PollDrawsNoStars(w, events[..|events| - 1], viewSteps);
      var e := events[|events| - 1];
      match e {
        case KeyEvent(key, action, compiled) =>
          if Dispatch(key, action) == Reload {
            ReloadDrawsNoStars(front, compiled, viewSteps);
          } else {
            GrowsByNoStars(front.log, []);
            assert front.log + [] == front.log;
          }
        case Resize(width, height) =>
          GrowsByNoStars(front.log, [SetProjection(width, height, width < height)]);
        case CloseRequest =>
          GrowsByNoStars(front.log, []);
          assert front.log + [] == front.log;
      }
      GrowsWithoutStarsTrans(w.log, front.log, Poll(w, events, viewSteps).log);
    }
  }

  /** After a poll the close flag is set exactly when it was set before or an event asked to
      close the window. */
  lemma {:induction false} PollCloses(w: WindowState, events: seq<Event>, viewSteps: int)
    ensures Poll(w, events, viewSteps).shouldClose == (w.shouldClose || RequestsQuit(events))
    decreases |events|
  {
    if events != [] {
      var front := events[..|events| - 1];
      var e := events[|events| - 1];
      PollCloses(w, front, viewSteps);
      assert Poll(w, events, viewSteps).shouldClose == (Poll(w, front, viewSteps).shouldClose || IsQuit(e));
      if RequestsQuit(front) {
        var k :| 0 <= k < |front| && IsQuit(front[k]);
        assert events[k] == front[k];
      }
      if RequestsQuit(events) && !IsQuit(e) {
        var k :| 0 <= k < |events| && IsQuit(events[k]);
        assert k < |front| && front[k] == events[k];
      }
      assert IsQuit(e) ==> IsQuit(events[|events| - 1]);
    }
  }

  /** The framebuffer size after a poll: the last resize's, or the old one if nothing was resized. */
  lemma {:induction false} PollSize(w: WindowState, events: seq<Event>, viewSteps: int)
    ensures (forall k :: 0 <= k < |events| ==> !events[k].Resize?) ==>
      Poll(w, events, viewSteps).width == w.width && Poll(w, events, viewSteps).height == w.height
    ensures events != [] && events[|events| - 1].Resize? ==>
      Poll(w, events, viewSteps).width == events[|events| - 1].width
      && Poll(w, events, viewSteps).height == events[|events| - 1].height
    decreases |events|
  {
    if events != [] {
      var front := events[..|events| - 1];
      PollSize(w, front, viewSteps);
      if forall k :: 0 <= k < |events| ==> !events[k].Resize? {
        assert forall k :: 0 <= k < |front| ==> front[k] == events[k];
      }
    }
  }

  /** What one turn of the loop changes: the window with the registry and the log, the frame
      counter and the title. */
  datatype LoopState = LoopState(window: WindowState, counter: FpsCounter, title: string)

  /** One turn of `mainLoop`: poll, draw the table with the planet program, then `show_fps`. */
  function Turn(s: LoopState, input: FrameInput, viewSteps: int): (r: LoopState)
    requires PlanetProgram in s.window.shaders
    ensures r.window.shaders.Keys == s.window.shaders.Keys
    ensures ShadersReady(s.window.shaders) ==> ShadersReady(r.window.shaders)
  {
    var w := Poll(s.window, input.events, viewSteps);
    var tick := Tick(s.counter, input.now);
    LoopState(w.(log := w.log + PlanetPass(w.shaders[PlanetProgram].handle, LauncherTable())),
              tick.counter,
              if tick.report.Some? then FpsTitle(tick.report.value) else s.title)
  }

  /** Where the rendering loop ends: the state after the last turn, and the number of turns. */
  datatype LoopRun = LoopRun(final: LoopState, drawn: nat)

  /** The rendering loop of `mainLoop` on the given inputs: turns while the window is not asked
      to close (and inputs remain). */
  function Rendering(s: LoopState, frames: seq<FrameInput>, viewSteps: int): (r: LoopRun)
    requires PlanetProgram in s.window.shaders
    ensures r.final.window.shaders.Keys == s.window.shaders.Keys
    ensures ShadersReady(s.window.shaders) ==> ShadersReady(r.final.window.shaders)
    ensures r.drawn <= |frames|
    decreases |frames|
  {
    if frames == [] || s.window.shouldClose then LoopRun(s, 0)
    else
      var rest := Rendering(Turn(s, frames[0], viewSteps), frames[1..], viewSteps);
      LoopRun(rest.final, rest.drawn + 1)
  }

  /** The rendering loop from the `i`-th input on: one turn, then the loop on the inputs after it. */
  lemma RenderingStep(s: LoopState, frames: seq<FrameInput>, i: nat, viewSteps: int)
    requires PlanetProgram in s.window.shaders && i < |frames| && !s.window.shouldClose
    ensures var rest := Rendering(Turn(s, frames[i], viewSteps), frames[i + 1..], viewSteps);
      Rendering(s, frames[i..], viewSteps) == LoopRun(rest.final, rest.drawn + 1)
  {
    assert frames[i..][0] == frames[i];
    assert frames[i..][1..] == frames[i + 1..];
  }

  /** A turn sets the close flag exactly when one of its events asks to close the window. */
  lemma TurnCloses(s: LoopState, input: FrameInput, viewSteps: int)
    requires PlanetProgram in s.window.shaders
    ensures Turn(s, input, viewSteps).window.shouldClose == (s.window.shouldClose || RequestsQuit(input.events))
  {
    PollCloses(s.window, input.events, viewSteps);
  }

  /** Started on an open window, the loop draws `FramesDrawn` frames, and the window ends up asked
      to close exactly when the last frame drawn asked for it. */
  lemma {:induction false} RenderingDrawn(s: LoopState, frames: seq<FrameInput>, viewSteps: int)
    requires PlanetProgram in s.window.shaders && !s.window.shouldClose
    ensures Rendering(s, frames, viewSteps).drawn == FramesDrawn(frames)
    ensures var r := Rendering(s, frames, viewSteps);
      r.final.window.shouldClose <==> r.drawn > 0 && RequestsQuit(frames[r.drawn - 1].events)
    decreases |frames|
  {
    if frames != [] {
      var t := Turn(s, frames[0], viewSteps);
      TurnCloses(s, frames[0], viewSteps);
      if !RequestsQuit(frames[0].events) {
        RenderingDrawn(t, frames[1..], viewSteps);
        var rest := Rendering(t, frames[1..], viewSteps);
        if rest.drawn > 0 {
          assert frames[1..][rest.drawn - 1] == frames[rest.drawn];
        }
      }
    }
  }

  /** The counter after the loop is the counter after a run of `show_fps` calls at the drawn
      frames' clock readings, so every drawn frame is counted once (`FramesCountedOnce`). */
  lemma {:induction false} RenderingCount(s: LoopState, frames: seq<FrameInput>, viewSteps: int)
    requires PlanetProgram in s.window.shaders
    ensures var r := Rendering(s, frames, viewSteps);
      r.final.counter == Run(s.counter, Times(frames[..r.drawn])).0
    decreases |frames|
  {
    var r := Rendering(s, frames, viewSteps);
    if frames == [] || s.window.shouldClose {
      assert Times(frames[..0]) == [];
    } else {
      var t := Turn(s, frames[0], viewSteps);
      RenderingCount(t, frames[1..], viewSteps);
      var n := r.drawn - 1;
      assert Times(frames[..r.drawn])[0] == frames[0].now;
      assert Times(frames[..r.drawn])[1..] == Times(frames[1..][..n]);
    }
  }

  /** However many turns the loop takes, the star field is never drawn. */
  lemma {:induction false} RenderingDrawsNoStars(s: LoopState, frames: seq<FrameInput>, viewSteps: int)
    requires PlanetProgram in s.window.shaders
    ensures GrowsWithoutStars(s.window.log, Rendering(s, frames, viewSteps).final.window.log)
    decreases |frames|
  {
    if frames == [] || s.window.shouldClose {
      assert s.window.log[|s.window.log|..] == [];
    } else {
      var t := Turn(s, frames[0], viewSteps);
      TurnDrawsNoStars(s, frames[0], viewSteps);
      RenderingDrawsNoStars(t, frames[1..], viewSteps);
      GrowsWithoutStarsTrans(s.window.log, t.window.log, Rendering(s, frames, viewSteps).final.window.log);
    }
  }

  /** The clock readings of `show_fps`, one per turn. */
  function Times(frames: seq<FrameInput>): seq<real>
  {
    seq(|frames|, i requires 0 <= i < |frames| => frames[i].now)
  }

  /** A turn polls and draws the nine bodies; it never draws the star field. */
  lemma TurnDrawsNoStars(s: LoopState, input: FrameInput, viewSteps: int)
    requires PlanetProgram in s.window.shaders
    ensures GrowsWithoutStars(s.window.log, Turn(s, input, viewSteps).window.log)
  {
    var w := Poll(s.window, input.events, viewSteps);
    PollDrawsNoStars(s.window, input.events, viewSteps);
    var pass := PlanetPass(w.shaders[PlanetProgram].handle, LauncherTable());
    LauncherPass(w.shaders[PlanetProgram].handle);
    assert DrawsNoStars(pass);
    GrowsByNoStars(w.log, pass);
    GrowsWithoutStarsTrans(s.window.log, w.log, w.log + pass);
  }

  /** How many frames are drawn: the loop draws the frame in which the close request arrives
      and stops before the next one. */
  function FramesDrawn(frames: seq<FrameInput>): (r: nat)
    ensures r <= |frames| && (r == 0 <==> frames == [])
    ensures forall j :: 0 <= j < r - 1 ==> !RequestsQuit(frames[j].events)
    ensures r < |frames| ==> RequestsQuit(frames[r - 1].events)
    decreases |frames|
  {
    if frames == [] then 0
    else if RequestsQuit(frames[0].events) then 1
    else 1 + FramesDrawn(frames[1..])
  }

  lemma FramesDrawnStep(frames: seq<FrameInput>, i: nat)
    requires i < |frames|
    ensures FramesDrawn(frames[i..]) == if RequestsQuit(frames[i].events) then 1 else 1 + FramesDrawn(frames[i + 1..])
  {
    assert frames[i..][1..] == frames[i + 1..];
  }

  // ---------------------------------------------------------------------
  // The launcher object
  // ---------------------------------------------------------------------

  /** `Launcher`, with the GLFW window state it reads and writes. */
  class Launcher {
    /** `m_resource_path`. */
    const resourcePath: string
    /** `m_application`. */
    const app: ApplicationSolar
    /** `m_frames_per_second` and `m_last_second_time`. */
    var framesPerSecond: nat
    var lastSecondTime: real
    /** The window title, its close flag and its framebuffer size. */
    var title: string
    var shouldClose: bool
    var width: int
    var height: int

    ghost predicate Valid()
      reads this, app
    {
      app.Valid()
    }

    /** The part of the state the events of a poll can change. */
    ghost function Window(): WindowState
      reads this, app
    {
      WindowState(shouldClose, width, height, app.shaders, app.log)
    }

    /** The part of the state a turn of the loop can change. */
    ghost function State(): LoopState
      reads this, app
    {
      LoopState(Window(), FpsCounter(framesPerSecond, lastSecondTime), title)
    }

    /** The launcher for the command line `args`, with the application created on its
        resource path (`rand` is the random source the application draws its stars from). */
    constructor (args: seq<string>, rand: nat -> nat)
      requires |args| >= 1
      ensures Valid()
      ensures resourcePath == ResourcePath(args) && app.resourcePath == resourcePath
      ensures fresh(app)
      ensures app.numberOfStars == StarCount(rand) && app.starBuffer == StarBuffer(rand, app.numberOfStars)
      ensures app.planets == SolarTable() && app.shaders == ShaderSetup(map[], resourcePath)
      ensures app.viewSteps == 0 && app.log == []
      ensures framesPerSecond == 0 && lastSecondTime == 0.0
      ensures title == WindowTitle && !shouldClose
      ensures width == InitialWidth && height == InitialHeight
    {
      resourcePath := ResourcePath(args);
      app := new ApplicationSolar(ResourcePath(args), rand);
      framesPerSecond, lastSecondTime := InitialCounter.frames, InitialCounter.lastSecond;
      title, shouldClose := WindowTitle, false;
      width, height := InitialWidth, InitialHeight;
    }

    /** `show_fps`: count the frame; once a second has passed, show the count and restart. */
    method ShowFps(now: real)
      modifies this`framesPerSecond, this`lastSecondTime, this`title
      ensures var r := Tick(FpsCounter(old(framesPerSecond), old(lastSecondTime)), now);
        && FpsCounter(framesPerSecond, lastSecondTime) == r.counter
        && title == if r.report.Some? then FpsTitle(r.report.value) else old(title)
    {
      ghost var r := Tick(FpsCounter(framesPerSecond, lastSecondTime), now);
      framesPerSecond := framesPerSecond + 1;
      var currentTime := now;
      if currentTime - lastSecondTime >= 1.0 {
        title := WindowTitle + " - " + DecimalString(framesPerSecond) + " fps";
        framesPerSecond := 0;
        lastSecondTime := currentTime;
        assert r.report == Some(old(framesPerSecond) + 1);
      } else {
        assert r.report == None;
      }
    }

    /** `update_projection`: a new projection for the framebuffer size, with the vertical field
        of view widened when the framebuffer is taller than wide. */
    method UpdateProjection(w: int, h: int)
      modifies app`log
      ensures app.log == old(app.log) + [SetProjection(w, h, w < h)]
    {
      app.SetProjectionFor(w, h, w < h);
    }

    /** The reload loop of `update_shader_programs`: recompile every program in visiting order,
        deleting each old handle once its replacement exists, until one fails (`failed`). */
    method ReloadPrograms(compiled: map<ProgramName, int>) returns (failed: bool)
      requires Valid()
      modifies app`shaders, app`log
      ensures Valid()
      ensures failed <==> CompiledPrefix(Visiting(old(app.shaders)), compiled) < |Visiting(old(app.shaders))|
      ensures app.shaders == Reloaded(old(app.shaders), ReloadedPrefix(old(app.shaders), compiled), compiled)
      ensures app.log == old(app.log) + Deletions(old(app.shaders), ReloadedPrefix(old(app.shaders), compiled))
    {
      ghost var m := app.shaders;
      var order := Visiting(app.shaders);
      var i := 0;
      failed := false;
      while i < |order| && !failed
        decreases |order| - i, if failed then 0 else 1
        invariant 0 <= i <= |order|
        invariant failed ==> i == CompiledPrefix(order, compiled) < |order|
        invariant !failed ==> i <= CompiledPrefix(order, compiled)
        invariant app.shaders == Reloaded(m, order[..i], compiled)
        invariant app.log == old(app.log) + Deletions(m, order[..i])
      {
        var name := order[i];
        if name in compiled {
          var newProgram := compiled[name];
          ReloadStep(m, order, i, compiled);
          app.log := app.log + [DeleteProgram(app.shaders[name].handle)];
          app.shaders := app.shaders[name := app.shaders[name].(handle := newProgram)];
          i := i + 1;
        } else {
          failed := true;
        }
      }
      ReloadKeepsReady(m, order[..i], compiled);
    }

    /** `update_shader_programs`: the reload loop; a failure stops it, and when `throwing` it
        escapes (reported as `escaped`), otherwise it is caught and the uniforms and projection are
        uploaded as after a success. */
    method UpdateShaderPrograms(throwing: bool, compiled: map<ProgramName, int>) returns (escaped: bool)
      requires Valid()
      modifies app`shaders, app`log
      ensures Valid()
      ensures escaped <==> throwing && CompiledPrefix(Visiting(old(app.shaders)), compiled) < |Visiting(old(app.shaders))|
      ensures escaped ==>
        && app.shaders == Reloaded(old(app.shaders), ReloadedPrefix(old(app.shaders), compiled), compiled)
        && app.log == old(app.log) + Deletions(old(app.shaders), ReloadedPrefix(old(app.shaders), compiled))
      ensures !escaped ==> Window() == AfterReload(old(Window()), compiled, app.viewSteps)
    {
      var failed := ReloadPrograms(compiled);
      if failed && throwing {
        return true;
      }
      ghost var reloaded := app.log;
      app.UploadUniforms();
      UpdateProjection(width, height);
      assert app.log == reloaded + [QueryLocations, UploadView(app.viewSteps), UploadProjection, SetProjection(width, height, width < height)];
      AfterReloadIs(old(Window()), compiled, app.viewSteps, app.shaders, reloaded, app.log);
      return false;
    }

    /** `key_callback`: Escape or Q pressed asks the window to close, R pressed reloads the
        shaders without throwing, anything else does nothing. */
    method KeyCallback(key: int, action: int, compiled: map<ProgramName, int>)
      requires Valid()
      modifies this`shouldClose, app`shaders, app`log
      ensures Valid()
      ensures shouldClose == (old(shouldClose) || Dispatch(key, action) == Quit)
      ensures Dispatch(key, action) != Reload ==> app.shaders == old(app.shaders) && app.log == old(app.log)
      ensures Dispatch(key, action) == Reload ==> Window() == AfterReload(old(Window()), compiled, app.viewSteps)
      ensures Window() == Handle(old(Window()), KeyEvent(key, action, compiled), app.viewSteps)
    {
      if (key == KeyEscape || key == KeyQ) && action == Press {
        shouldClose := true;
      } else if key == KeyR && action == Press {
        var _ := UpdateShaderPrograms(false, compiled);
      }
    }

    /** The framebuffer-size callback: GLFW records the new size and `update_projection` runs. */
    method Resized(w: int, h: int)
      modifies this`width, this`height, app`log
      ensures width == w && height == h
      ensures app.log == old(app.log) + [SetProjection(w, h, w < h)]
      ensures Window() == Handle(old(Window()), Resize(w, h), app.viewSteps)
    {
      width, height := w, h;
      UpdateProjection(w, h);
    }

    /** `glfwPollEvents`: the callbacks of the events of one poll, in order. */
    method ProcessEvents(events: seq<Event>)
      requires Valid()
      modifies this`shouldClose, this`width, this`height, app`shaders, app`log
      ensures Valid()
      ensures Window() == Poll(old(Window()), events, app.viewSteps)
      ensures shouldClose == (old(shouldClose) || RequestsQuit(events))
    {
      var i := 0;
      while i < |events|
        invariant 0 <= i <= |events|
        invariant Valid()
        invariant Window() == Poll(old(Window()), events[..i], app.viewSteps)
      {
        assert events[..i + 1][..i] == events[..i];
        match events[i] {
          case KeyEvent(key, action, compiled) => KeyCallback(key, action, compiled);
          case Resize(w, h) => Resized(w, h);
          case CloseRequest => shouldClose := true;
        }
        i := i + 1;
      }
      assert events[..i] == events;
      PollCloses(old(Window()), events, app.viewSteps);
    }

    /** The nine pushes and the field assignments that build the frame's table. */
    method BuildFrameTable() returns (planets: seq<Planet>)
      ensures planets == LauncherTable()
    {
      planets := [];
      planets := planets + [DefaultPlanet];
      planets := planets + [DefaultPlanet];
      planets := planets + [DefaultPlanet];
      planets := planets + [DefaultPlanet];
      planets := planets + [DefaultPlanet];
      planets := planets + [DefaultPlanet];
      planets := planets + [DefaultPlanet];
      planets := planets + [DefaultPlanet];
      planets := planets + [DefaultPlanet];
      planets := planets[0 := planets[0].(distance := 0.0, size := 7.0, speed := 0.0, rotation := 1.0)];
      planets := planets[1 := planets[1].(distance := 8.0, size := EarthSize * 0.7, speed := 2.5, rotation := 1.0)];
      planets := planets[2 := planets[2].(distance := 9.0, size := EarthSize * 0.9, speed := 2.0, rotation := 1.0)];
      planets := planets[3 := planets[3].(distance := 10.0, size := EarthSize, speed := 1.2, rotation := 1.0)];
      planets := planets[4 := planets[4].(distance := 11.0, size := EarthSize * 0.5, speed := 1.0, rotation := 1.0)];
      planets := planets[5 := planets[5].(distance := 15.0, size := EarthSize * 1.4, speed := 0.8, rotation := 1.0)];
      planets := planets[6 := planets[6].(distance := 18.0, size := EarthSize * 1.3, speed := 0.7, rotation := 1.0)];
      planets := planets[7 := planets[7].(distance := 14.0, size := EarthSize * 3.0, speed := 0.5, rotation := 1.0)];
      planets := planets[8 := planets[8].(distance := 15.0, size := EarthSize * 1.1, speed := 0.4, rotation := 1.0)];
    }

    /** The drawing part of one turn of `mainLoop`: the table, one `upload_planet_transforms`
        per entry in index order, then `show_fps`. */
    method DrawFrame(now: real)
      requires Valid()
      modifies app`log, this`framesPerSecond, this`lastSecondTime, this`title
      ensures app.log == old(app.log) + PlanetPass(app.shaders[PlanetProgram].handle, LauncherTable())
      ensures var r := Tick(FpsCounter(old(framesPerSecond), old(lastSecondTime)), now);
        && FpsCounter(framesPerSecond, lastSecondTime) == r.counter
        && title == if r.report.Some? then FpsTitle(r.report.value) else old(title)
    {
      var planets := BuildFrameTable();
      var i := 0;
      while i < |planets|
        invariant 0 <= i <= |planets|
        invariant app.log == old(app.log) + PlanetPass(app.shaders[PlanetProgram].handle, planets[..i])
        invariant framesPerSecond == old(framesPerSecond) && lastSecondTime == old(lastSecondTime) && title == old(title)
      {
        assert planets[..i + 1][..i] == planets[..i];
        app.UploadPlanetTransforms(planets[i]);
        i := i + 1;
      }
      assert planets[..i] == planets;
      ShowFps(now);
    }

    /** One turn of the loop: poll the events, then draw. */
    method Frame(input: FrameInput)
      requires Valid()
      modifies this`shouldClose, this`width, this`height, this`framesPerSecond, this`lastSecondTime, this`title
      modifies app`shaders, app`log
      ensures Valid()
      ensures State() == Turn(old(State()), input, app.viewSteps)
      ensures shouldClose == (old(shouldClose) || RequestsQuit(input.events))
    {
      ProcessEvents(input.events);
      DrawFrame(input.now);
    }

    /** The rendering loop of `mainLoop`: until the window is asked to close, poll, draw and
        count. Returns how many frames were drawn; the loop also ends when the input runs out. */
    method RunFrames(frames: seq<FrameInput>) returns (drawn: nat)
      requires Valid()
      modifies this`shouldClose, this`width, this`height, this`framesPerSecond, this`lastSecondTime, this`title
      modifies app`shaders, app`log
      ensures Valid()
      ensures LoopRun(State(), drawn) == Rendering(old(State()), frames, app.viewSteps)
    {
      ghost var outcome := Rendering(State(), frames, app.viewSteps);
      drawn := 0;
      while drawn < |frames| && !shouldClose
        invariant 0 <= drawn <= |frames|
        invariant Valid()
        invariant var rest := Rendering(State(), frames[drawn..], app.viewSteps);
          rest.final == outcome.final && drawn + rest.drawn == outcome.drawn
      {
        RenderingStep(State(), frames, drawn, app.viewSteps);
        Frame(frames[drawn]);
        drawn := drawn + 1;
      }
    }

    /** `mainLoop`: the throwing reload, then the rendering loop. Returns whether the first
        reload's failure escaped, and how many frames were drawn. */
    method MainLoop(initial: map<ProgramName, int>, frames: seq<FrameInput>) returns (escaped: bool, drawn: nat)
      requires Valid() && !shouldClose
      modifies this`shouldClose, this`width, this`height, this`framesPerSecond, this`lastSecondTime, this`title
      modifies app`shaders, app`log
      ensures Valid()
      ensures escaped <==> CompiledPrefix(Visiting(old(app.shaders)), initial) < |Visiting(old(app.shaders))|
      ensures escaped ==>
        && drawn == 0 && !shouldClose
        && app.shaders == Reloaded(old(app.shaders), ReloadedPrefix(old(app.shaders), initial), initial)
        && app.log == old(app.log) + Deletions(old(app.shaders), ReloadedPrefix(old(app.shaders), initial))
      ensures !escaped ==>
        LoopRun(State(), drawn) == Rendering(old(State()).(window := AfterReload(old(Window()), initial, app.viewSteps)), frames, app.viewSteps)
      ensures !escaped ==>
        drawn == FramesDrawn(frames) && (shouldClose <==> drawn > 0 && RequestsQuit(frames[drawn - 1].events))
      ensures GrowsWithoutStars(old(app.log), app.log)
    {
      escaped := UpdateShaderPrograms(true, initial);
      if escaped {
        DeletionsDrawNoStars(old(app.shaders), ReloadedPrefix(old(app.shaders), initial));
        GrowsByNoStars(old(app.log), Deletions(old(app.shaders), ReloadedPrefix(old(app.shaders), initial)));
        return escaped, 0;
      }
      ghost var start := State();
      ReloadDrawsNoStars(old(Window()), initial, app.viewSteps);
      RenderingDrawn(start, frames, app.viewSteps);
      RenderingDrawsNoStars(start, frames, app.viewSteps);
      drawn := RunFrames(frames);
      GrowsWithoutStarsTrans(old(app.log), start.window.log, app.log);
    }
  }
}
