/** The C driver `main.c`: `init` starts GLFW, `main` creates the window and
    loads GLAD, and on any failure `logAndExit` prints the message, terminates
    GLFW and exits the process with -1. Otherwise `main` runs the chapter's
    `setup`, the processInputs / render / event polling loop until the close
    flag is set, `teardown`, terminates GLFW and returns 0. The process's
    locals (the window, the close flags still to come) are locals of
    `RunMain`. */
module CMain {
  import opened Wrappers
  import opened Lifecycle
  import Application

  /** `init()`: 0 when `glfwInit` succeeds, -1 otherwise (the window hints it
      sets are not modelled). */
  function Init(glfwOk: bool): (status: int)
    ensures status == 0 || status == -1
    ensures status < 0 <==> !glfwOk
  {
    if glfwOk then 0 else -1
  }

  /** `logAndExit(error_message)`: the message and a newline on stderr unless
      the message is NULL, then `glfwTerminate`; `exit(-1)` follows. */
  function LogAndExit(message: Option<string>): (r: seq<Event>)
    ensures |r| > 0 && r[|r| - 1] == Terminate
    ensures |r| == 1 <==> message.None?
    ensures message.Some? ==> |r| == 2 && r[0] == Stderr(message.value + "\n")
  {
    (if message.Some? then [Stderr(message.value + "\n")] else []) + [Terminate]
  }

  /** The status a parent process sees for `exit(code)`: its low eight bits. */
  function ExitStatus(code: int): (status: nat)
    ensures status < 256
    ensures (code - status) % 256 == 0
  {
    code % 256
  }

  /** A failed start is seen as status 255, a clean exit as 0. */
  lemma ExitStatuses()
    ensures ExitStatus(-1) == 255 && ExitStatus(0) == 0
  {
  }

  /** The message `main` passes to `logAndExit` for the first failing step. */
  function Failure(p: Platform): string
    requires !InitOk(p)
  {
    if !p.glfwOk then "Failed to initialise GLFW."
    else if !p.windowOk then "Failed to create GLFW window."
    else "Failed to initialise GLAD."
  }

  /** The initialisation calls `main` makes up to the first failure. */
  function Reached(p: Platform): seq<Event>
  {
    [GlfwInit]
    + if !p.glfwOk then []
      else [CreateWindow] + if !p.windowOk then [] else [MakeContextCurrent, LoadGlad]
  }

  /** What the process does on the platform `p`; with a working platform the
      close flag must eventually be raised, or `main` never returns. */
  function MainTrace(p: Platform): seq<Event>
    requires InitOk(p) ==> true in p.closeFlags
  {
    if InitOk(p) then Driven(Reached(p), FirstClose(p.closeFlags))
    else Reached(p) + LogAndExit(Some(Failure(p)))
  }

  /** Initialisation stops at the first failing step: a window is created only
      after GLFW is up and GLAD loaded only once there is a window. */
  lemma ReachedStopsAtFirstFailure(p: Platform)
    ensures CreateWindow in Reached(p) <==> p.glfwOk
    ensures LoadGlad in Reached(p) <==> p.glfwOk && p.windowOk
    ensures forall e :: e in Reached(p) ==> Quiet(e) && !e.Stderr?
  {
  }

  /** A failed start: no hook runs, the message naming the failed step is the
      one line on stderr, and GLFW is terminated once, last. */
  lemma MainFailure(p: Platform)
    requires !InitOk(p)
    ensures var t := MainTrace(p);
            && Count(t, Setup) == 0 && Count(t, ProcessInputs) == 0
            && Count(t, Render) == 0 && Count(t, PollEvents) == 0 && Count(t, Teardown) == 0
            && Count(t, Terminate) == 1 && t[|t| - 1] == Terminate
            && t[|t| - 2] == Stderr(Failure(p) + "\n")
            && forall i :: 0 <= i < |t| - 2 ==> !t[i].Stderr?
  {
    var init := Reached(p) + [Stderr(Failure(p) + "\n")];
    ReachedStopsAtFirstFailure(p);
    assert MainTrace(p) == init + [Terminate];
    StoppedCounts(init);
    var t := MainTrace(p);
    forall i | 0 <= i < |t| - 2
      ensures !t[i].Stderr?
    {
      assert t[i] == Reached(p)[i];
    }
  }

  /** A successful start: setup once, one processInputs, render and polling
      per turn of the loop, each processInputs right after a close check,
      teardown and termination once, at the end. */
  lemma MainSuccess(p: Platform)
    requires InitOk(p) && true in p.closeFlags
    ensures var t := MainTrace(p);
            var n := FirstClose(p.closeFlags);
            && Count(t, Setup) == 1 && Count(t, Teardown) == 1 && Count(t, Terminate) == 1
            && Count(t, ProcessInputs) == n && Count(t, Render) == n && Count(t, PollEvents) == n
            && t[|Reached(p)|] == Setup
            && t[|t| - 2] == Teardown && t[|t| - 1] == Terminate
            && forall i :: 0 <= i < |t| && t[i] == ProcessInputs ==>
                 |Reached(p)| < i - 1 && i + 2 < |t| - 2
                 && t[i - 1] == CheckClose && t[i + 1] == Render && t[i + 2] == PollEvents
  {
    ReachedStopsAtFirstFailure(p);
    DrivenCounts(Reached(p), FirstClose(p.closeFlags));
    DrivenOrder(Reached(p), FirstClose(p.closeFlags));
  }

  /** The C and the C++ drivers produce the same trace of modelled events on
      a working platform (their window hints differ and are not modelled); on a
      failing one they stop at the same step and differ only in the error
      line, which the C++ `init` prefixes with "init: ". */
  lemma SameAsBaseApplication(p: Platform)
    requires InitOk(p) ==> true in p.closeFlags
    ensures InitOk(p) ==> MainTrace(p) == Application.RunTrace(p)
    ensures !InitOk(p) ==>
              && |MainTrace(p)| == |Application.RunTrace(p)|
              && (forall i :: 0 <= i < |MainTrace(p)| && i != |MainTrace(p)| - 2 ==>
                    MainTrace(p)[i] == Application.RunTrace(p)[i])
              && Application.RunTrace(p)[|MainTrace(p)| - 2]
                 == Stderr("init: " + Failure(p) + "\n")
  {
    if !InitOk(p) {
      assert Application.InitTrace(p) == Reached(p) + [Stderr("init: " + Failure(p) + "\n")];
      assert MainTrace(p) == Reached(p) + [Stderr(Failure(p) + "\n"), Terminate];
    }
  }

  /** `main()`: the exit code (-1 from `exit`, 0 from `return`) and everything
      the process does are those of `MainTrace`. */
  method RunMain(p: Platform) returns (code: int, trace: seq<Event>)
    requires InitOk(p) ==> true in p.closeFlags
    ensures code == if InitOk(p) then 0 else -1
    ensures trace == MainTrace(p)
  {
    trace := [GlfwInit];
    if 0 > Init(p.glfwOk) {
      trace := trace + LogAndExit(Some("Failed to initialise GLFW."));
      return -1, trace;
    }

    trace := trace + [CreateWindow];
    var window := p.windowOk;
    if !window {
      trace := trace + LogAndExit(Some("Failed to create GLFW window."));
      return -1, trace;
    }
    trace := trace + [MakeContextCurrent];

    trace := trace + [LoadGlad];
    if !p.gladOk {
      trace := trace + LogAndExit(Some("Failed to initialise GLAD."));
      return -1, trace;
    }

    trace := trace + [Setup];
    ghost var n := FirstClose(p.closeFlags);
    var loop := EventLoop(p.closeFlags, n);
    trace := trace + loop;

    trace := trace + [Teardown];

    trace := trace + [Terminate];
    assert trace == Reached(p) + [Setup] + Looping([], n) + [Teardown] + [Terminate];
    return 0, trace;
  }

  /** The `while` loop of `main()` over the answers of the close checks:
      one turn per "keep open" answer before the first "close", ending with
      the check that stopped it. */
  method EventLoop(flags: seq<bool>, ghost n: nat) returns (events: seq<Event>)
    requires n < |flags| && flags[n]
    requires forall i :: 0 <= i < n ==> !flags[i]
    ensures events == Looping([], n)
  {
    var rest := flags;
    var closing := rest[0];
    rest := rest[1..];
    events := [CheckClose];
    ghost var turns := 0;
    while !closing
      invariant 0 <= turns <= n
      invariant rest == flags[turns + 1..]
      invariant closing == flags[turns]
      invariant events == Looping([], turns)
      decreases n - turns
    {
      assert turns < n && flags[turns + 1..][0] == flags[turns + 1];
      events := events + [ProcessInputs];
      events := events + [Render];
      events := events + [PollEvents];
      closing := rest[0];
      rest := rest[1..];
      events := events + [CheckClose];
      AnotherTurn([], turns);
      turns := turns + 1;
    }
    assert turns == n;
  }
}
