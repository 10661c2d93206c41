/** The C++ driver `BaseApplication`: `run` calls `init`, which stops at the
    first of GLFW initialisation, window creation and GLAD loading that
    fails; on failure `run` cleans up and returns -1, otherwise it runs the
    chapter's hooks around the input / render / poll loop, cleans up and
    returns 0. The hooks are the chapter's (modelled with each scene); here
    each call is one event of the trace. */
module Application {
  import opened Lifecycle

  /** The line `init` prints on stderr before failing. */
  function InitError(message: string): Event
  {
    Stderr("init: " + message + "\n")
  }

  /** What `init` does: its calls, and its error line on the first failure. */
  function InitTrace(p: Platform): seq<Event>
  {
    [GlfwInit]
    + if !p.glfwOk then [InitError("Failed to initialise GLFW.")]
      else [CreateWindow]
           + if !p.windowOk then [InitError("Failed to create GLFW window.")]
             else [MakeContextCurrent, LoadGlad]
                  + if !p.gladOk then [InitError("Failed to initialise GLAD.")] else []
  }

  /** What `run` does on the platform `p`; with a working platform the close
      flag must eventually be raised, or `run` never returns. */
  function RunTrace(p: Platform): seq<Event>
    requires InitOk(p) ==> true in p.closeFlags
  {
    if InitOk(p) then Driven(InitTrace(p), FirstClose(p.closeFlags))
    else InitTrace(p) + [Terminate]
  }

  /** `init` stops at the first failing step: a window is only created after
      GLFW is up, GLAD only loaded once there is a window, an error line is
      printed when a step fails and none otherwise, only as the last event
      (so there is exactly one), and nothing but initialisation and error
      reporting happens. */
  lemma InitStopsAtFirstFailure(p: Platform)
    ensures CreateWindow in InitTrace(p) <==> p.glfwOk
    ensures LoadGlad in InitTrace(p) <==> p.glfwOk && p.windowOk
    ensures (exists e :: e in InitTrace(p) && e.Stderr?) <==> !InitOk(p)
    ensures InitTrace(p)[|InitTrace(p)| - 1].Stderr? <==> !InitOk(p)
    ensures forall i :: 0 <= i < |InitTrace(p)| - 1 ==> !InitTrace(p)[i].Stderr?
    ensures forall e :: e in InitTrace(p) ==> Quiet(e)
  {
    var t := InitTrace(p);
    if !InitOk(p) {
      assert t[|t| - 1] in t;
    }
  }

  /** A failed `init`: no hook runs, GLFW is terminated once, as the last
      thing, and the error line naming the failed step comes right before it. */
  lemma RunFailure(p: Platform)
    requires !InitOk(p)
    ensures var t := RunTrace(p);
            && Count(t, Setup) == 0 && Count(t, ProcessInputs) == 0
            && Count(t, Render) == 0 && Count(t, PollEvents) == 0 && Count(t, Teardown) == 0
            && Count(t, Terminate) == 1 && t[|t| - 1] == Terminate
            && t[|t| - 2].Stderr?
  {
    InitStopsAtFirstFailure(p);
    StoppedCounts(InitTrace(p));
  }

  /** A successful `init`: setup once, then as many turns of the loop as
      there were close checks before the first "close", each turn's
      processInputs between a close check and render and polling; then
      teardown once and GLFW terminated once, last. */
  lemma RunSuccess(p: Platform)
    requires InitOk(p) && true in p.closeFlags
    ensures var t := RunTrace(p);
            var n := FirstClose(p.closeFlags);
            && Count(t, Setup) == 1 && Count(t, Teardown) == 1 && Count(t, Terminate) == 1
            && Count(t, ProcessInputs) == n && Count(t, Render) == n && Count(t, PollEvents) == n
            && t[|InitTrace(p)|] == Setup
            && t[|t| - 2] == Teardown && t[|t| - 1] == Terminate
            && forall i :: 0 <= i < |t| && t[i] == ProcessInputs ==>
                 |InitTrace(p)| < i - 1 && i + 2 < |t| - 2
                 && t[i - 1] == CheckClose && t[i + 1] == Render && t[i + 2] == PollEvents
  {
    InitStopsAtFirstFailure(p);
    DrivenCounts(InitTrace(p), FirstClose(p.closeFlags));
    DrivenOrder(InitTrace(p), FirstClose(p.closeFlags));
  }

  /** The application object: `window` is non-null (`true`) between a
      successful window creation and `cleanup`; the platform's answers are
      fixed, except the close flags, which each check consumes. */
  class BaseApplication {
    var window: bool
    var trace: seq<Event>
    const glfwOk: bool
    const windowOk: bool
    const gladOk: bool
    var closeFlags: seq<bool>

    /** The platform as it will answer from now on. */
    function Platform(): Lifecycle.Platform
      reads this
    {
      Lifecycle.Platform(glfwOk, windowOk, gladOk, closeFlags)
    }

    /** A fresh application: no window, nothing done yet. */
    constructor (p: Lifecycle.Platform)
      ensures Platform() == p && !window && trace == []
    {
      glfwOk, windowOk, gladOk, closeFlags := p.glfwOk, p.windowOk, p.gladOk, p.closeFlags;
      window, trace := false, [];
    }

    /** `init()`: 0 when all three steps succeed, -1 at the first failure. */
    method Init() returns (status: int)
      modifies this
      ensures status == if InitOk(Platform()) then 0 else -1
      ensures trace == old(trace) + InitTrace(Platform())
      ensures window == if glfwOk then windowOk else old(window)
      ensures closeFlags == old(closeFlags)
    {
      trace := trace + [GlfwInit];
      if !glfwOk {
        trace := trace + [InitError("Failed to initialise GLFW.")];
        return -1;
      }
      trace := trace + [CreateWindow];
      window := windowOk;
      if !window {
        trace := trace + [InitError("Failed to create GLFW window.")];
        return -1;
      }
      trace := trace + [MakeContextCurrent, LoadGlad];
      if !gladOk {
        trace := trace + [InitError("Failed to initialise GLAD.")];
        return -1;
      }
      return 0;
    }

    /** `cleanup()`: terminate GLFW and forget the window. */
    method Cleanup()
      modifies this
      ensures trace == old(trace) + [Terminate] && !window
      ensures closeFlags == old(closeFlags)
    {
      trace := trace + [Terminate];
      window := false;
    }

    /** `glfwWindowShouldClose(window)`: the next answer of the platform. */
    method WindowShouldClose() returns (closing: bool)
      requires |closeFlags| > 0
      modifies this
      ensures closing == old(closeFlags)[0] && closeFlags == old(closeFlags)[1..]
      ensures trace == old(trace) + [CheckClose] && window == old(window)
    {
      closing := closeFlags[0];
      closeFlags := closeFlags[1..];
      trace := trace + [CheckClose];
    }

    /** A call of a hook, or of `glfwPollEvents`, recorded as its event. */
    method Call(e: Event)
      modifies this
      ensures trace == old(trace) + [e]
      ensures window == old(window) && closeFlags == old(closeFlags)
    {
      trace := trace + [e];
    }

    /** The loop of `run()`: process inputs, render and poll events until
        the close flag is raised, which happens at the first "close" answer. */
    method MainLoop(ghost n: nat)
      requires n < |closeFlags| && closeFlags[n]
      requires forall i :: 0 <= i < n ==> !closeFlags[i]
      modifies this
      ensures trace == Looping(old(trace), n)
      ensures window == old(window) && closeFlags == old(closeFlags)[n + 1..]
    {
      ghost var flags := closeFlags;
      ghost var before := trace;
      var closing := WindowShouldClose();
      ghost var turns := 0;
      while !closing
        invariant 0 <= turns <= n
        invariant closeFlags == flags[turns + 1..]
        invariant closing == flags[turns]
        invariant trace == Looping(before, turns)
        invariant window == old(window)
        decreases n - turns
      {
        assert turns < n && flags[turns + 1..][0] == flags[turns + 1];
        trace := trace + [ProcessInputs];
        trace := trace + [Render];
        trace := trace + [PollEvents];
        closing := WindowShouldClose();
        AnotherTurn(before, turns);
        turns := turns + 1;
      }
      assert turns == n;
    }

    /** `run()`: its result and everything it does are those of `RunTrace`,
        and it leaves no window behind. */
    method Run() returns (status: int)
      requires InitOk(Platform()) ==> true in closeFlags
      modifies this
      ensures status == if InitOk(old(Platform())) then 0 else -1
      ensures trace == old(trace) + RunTrace(old(Platform()))
      ensures !window
    {
      ghost var p := Platform();
      ghost var start := trace;
      var initStatus := Init();
      if 0 > initStatus {
        Cleanup();
        return -1;
      }

      Call(Setup);
      ghost var n := FirstClose(p.closeFlags);
      MainLoop(n);
      Call(Teardown);

      Cleanup();
      DrivenAppended(start, InitTrace(p), n);
      return 0;
    }
  }
}
