/** The application driver shared by the C++ `BaseApplication` and the C
    `main`: initialise GLFW, create a window, load GLAD, then run `setup`,
    loop over processInputs / render / event polling until the window's
    close flag is set, run `teardown` and terminate GLFW. The platform is
    abstract: it answers each initialisation step with success or failure
    and the close-flag checks with a sequence of booleans. What happened is
    recorded as a trace of events. */
module Lifecycle {

  datatype Event =
    | GlfwInit
    | CreateWindow
    | MakeContextCurrent
    | LoadGlad
    | Stderr(line: string)
    | Setup
    | CheckClose
    | ProcessInputs
    | Render
    | PollEvents
    | Teardown
    | Terminate

  /** The answers of GLFW and GLAD: whether `glfwInit`, `glfwCreateWindow` and
      `gladLoadGLLoader` succeed, and what `glfwWindowShouldClose` returns at
      each successive check. */
  datatype Platform = Platform(glfwOk: bool, windowOk: bool, gladOk: bool, closeFlags: seq<bool>)

  predicate InitOk(p: Platform)
  {
    p.glfwOk && p.windowOk && p.gladOk
  }

  /** An event of initialisation or error reporting: neither a hook of the
      application nor the final `glfwTerminate`. */
  predicate Quiet(e: Event)
  {
    e.GlfwInit? || e.CreateWindow? || e.MakeContextCurrent? || e.LoadGlad? || e.Stderr?
  }

  /** The index of the first check that reports "close". */
  function FirstClose(flags: seq<bool>): (n: nat)
    requires true in flags
    ensures n < |flags| && flags[n]
    ensures forall i :: 0 <= i < n ==> !flags[i]
  {
    if flags[0] then 0 else FirstClose(flags[1..]) + 1
  }

  /** One turn of the loop: the close check that let it run, then the three calls. */
  const Iteration: seq<Event> := [CheckClose, ProcessInputs, Render, PollEvents]

  /** `n` turns of the loop. */
  function Iterations(n: nat): seq<Event>
    decreases n
  {
    if n == 0 then [] else Iterations(n - 1) + Iteration
  }

  /** The trace of a loop that has turned `n` times after `before` and is
      back at its close check. */
  function Looping(before: seq<Event>, n: nat): seq<Event>
  {
    before + Iterations(n) + [CheckClose]
  }

  /** One more turn of the loop, appended event by event as the driver
      records it, extends the trace of the turns so far. */
  lemma AnotherTurn(before: seq<Event>, n: nat)
    ensures Looping(before, n) + [ProcessInputs] + [Render] + [PollEvents] + [CheckClose]
         == Looping(before, n + 1)
  {
  }

  /** A run whose initialisation produced `init` and whose loop turned `n`
      times: setup, the turns, the final check that stopped the loop,
      teardown and termination. */
  function Driven(init: seq<Event>, n: nat): seq<Event>
  {
    init + [Setup] + Iterations(n) + [CheckClose, Teardown, Terminate]
  }

  /** The driver's trace, appended event by event after whatever came before
      (`start`), is `Driven`. */
  lemma DrivenAppended(start: seq<Event>, init: seq<Event>, n: nat)
    ensures start + init + [Setup] + Iterations(n) + [CheckClose] + [Teardown] + [Terminate]
         == start + Driven(init, n)
  {
  }

  /** How often `e` occurs in `t`. */
  function Count(t: seq<Event>, e: Event): nat
    decreases |t|
  {
    if |t| == 0 then 0 else (if t[0] == e then 1 else 0) + Count(t[1..], e)
  }

  lemma {:induction false} CountConcat(a: seq<Event>, b: seq<Event>, e: Event)
    ensures Count(a + b, e) == Count(a, e) + Count(b, e)
    decreases |a|
  {
    if |a| > 0 {
      assert (a + b)[1..] == a[1..] + b;
      CountConcat(a[1..], b, e);
    } else {
      assert a + b == b;
    }
  }

  /** A trace in which `e` does not occur has count zero. */
  lemma {:induction false} CountAbsent(t: seq<Event>, e: Event)
    requires e !in t
    ensures Count(t, e) == 0
    decreases |t|
  {
    if |t| > 0 {
      assert forall x :: x in t[1..] ==> x in t;
      CountAbsent(t[1..], e);
    }
  }

  /** A run that stops after initialisation: no hook occurs, and
      `glfwTerminate` once, last. */
  lemma StoppedCounts(init: seq<Event>)
    requires forall e :: e in init ==> Quiet(e)
    ensures var t := init + [Terminate];
            && Count(t, Setup) == 0 && Count(t, ProcessInputs) == 0
            && Count(t, Render) == 0 && Count(t, PollEvents) == 0 && Count(t, Teardown) == 0
            && Count(t, Terminate) == 1
  {
    forall e | !Quiet(e)
      ensures Count(init + [Terminate], e) == if e == Terminate then 1 else 0
    {
      CountConcat(init, [Terminate], e);
      CountAbsent(init, e);
      assert [Terminate][1..] == [];
    }
  }

  /** The loop's trace is the turn repeated: position k holds the (k mod 4)-th
      event of a turn. */
  lemma {:induction false} IterationsAt(n: nat)
    ensures |Iterations(n)| == 4 * n
    ensures forall k :: 0 <= k < 4 * n ==> Iterations(n)[k] == Iteration[k % 4]
    decreases n
  {
    if n > 0 {
      IterationsAt(n - 1);
      var t := Iterations(n);
      assert t == Iterations(n - 1) + Iteration;
      forall k | 0 <= k < 4 * n
        ensures t[k] == Iteration[k % 4]
      {
        if k >= 4 * (n - 1) {
          assert t[k] == Iteration[k - 4 * (n - 1)];
        }
      }
    }
  }

  /** Each event of a turn occurs once per turn; no other event occurs. */
  lemma {:induction false} IterationsCount(n: nat, e: Event)
    ensures Count(Iterations(n), e) == if e in Iteration then n else 0
    decreases n
  {
    if n > 0 {
      IterationsCount(n - 1, e);
      CountConcat(Iterations(n - 1), Iteration, e);
      assert Iteration[1..][1..][1..][1..] == [];
    }
  }

  /** How often a hook or `glfwTerminate` occurs in a successful run whose
      initialisation part is made of quiet events only: setup, teardown and
      termination exactly once, processInputs, render and polling once per
      turn of the loop. */
  lemma DrivenCounts(init: seq<Event>, n: nat)
    requires forall e :: e in init ==> Quiet(e)
    ensures var t := Driven(init, n);
            && Count(t, Setup) == 1 && Count(t, Teardown) == 1 && Count(t, Terminate) == 1
            && Count(t, ProcessInputs) == n && Count(t, Render) == n && Count(t, PollEvents) == n
  {
    DrivenCount(init, n, Setup);
    DrivenCount(init, n, Teardown);
    DrivenCount(init, n, Terminate);
    DrivenCount(init, n, ProcessInputs);
    DrivenCount(init, n, Render);
    DrivenCount(init, n, PollEvents);
    IterationsCount(n, Setup);
    IterationsCount(n, Teardown);
    IterationsCount(n, Terminate);
    IterationsCount(n, ProcessInputs);
    IterationsCount(n, Render);
    IterationsCount(n, PollEvents);
  }

  /** A non-quiet event is counted in the setup, the loop and the tail. */
  lemma DrivenCount(init: seq<Event>, n: nat, e: Event)
    requires forall x :: x in init ==> Quiet(x)
    requires !Quiet(e)
    ensures Count(Driven(init, n), e)
         == (if e == Setup then 1 else 0) + Count(Iterations(n), e)
            + (if e == CheckClose || e == Teardown || e == Terminate then 1 else 0)
  {
    var loop := Iterations(n);
    var tail: seq<Event> := [CheckClose, Teardown, Terminate];
    assert Driven(init, n) == init + ([Setup] + (loop + tail));
    CountAbsent(init, e);
    CountConcat(init, [Setup] + (loop + tail), e);
    CountConcat([Setup], loop + tail, e);
    CountConcat(loop, tail, e);
    assert tail[1..][1..][1..] == [];
    assert [Setup][1..] == [];
  }

  /** The order of a successful run: setup right after initialisation,
      teardown and termination at the end, and every processInputs right
      after a close check and followed at once by render and polling. */
  lemma DrivenOrder(init: seq<Event>, n: nat)
    requires forall e :: e in init ==> Quiet(e)
    ensures var t := Driven(init, n);
            && t[|init|] == Setup
            && t[|t| - 2] == Teardown && t[|t| - 1] == Terminate
            && forall i :: 0 <= i < |t| && t[i] == ProcessInputs ==>
                 |init| < i - 1 && i + 2 < |t| - 2
                 && t[i - 1] == CheckClose && t[i + 1] == Render && t[i + 2] == PollEvents
  {
    var t := Driven(init, n);
    var base := |init| + 1;
    DrivenAt(init, n);
    forall i | 0 <= i < |t| && t[i] == ProcessInputs
      ensures |init| < i - 1 && i + 2 < |t| - 2
      ensures t[i - 1] == CheckClose && t[i + 1] == Render && t[i + 2] == PollEvents
    {
      assert base <= i < base + |Iterations(n)|;
      TurnAt(n, i - base);
    }
  }

  /** Where each part of a successful run sits in its trace. */
  lemma DrivenAt(init: seq<Event>, n: nat)
    requires forall e :: e in init ==> Quiet(e)
    ensures var t := Driven(init, n);
            var loop := Iterations(n);
            var base := |init| + 1;
            && |t| == base + |loop| + 3
            && (forall i :: 0 <= i < |init| ==> Quiet(t[i]))
            && t[|init|] == Setup
            && (forall i :: base <= i < base + |loop| ==> t[i] == loop[i - base])
            && t[|t| - 3] == CheckClose && t[|t| - 2] == Teardown && t[|t| - 1] == Terminate
  {
    var t := Driven(init, n);
    assert forall i :: 0 <= i < |init| ==> t[i] == init[i];
  }

  /** Inside the loop's trace a processInputs sits between a close check and
      render, then polling. */
  lemma TurnAt(n: nat, k: int)
    requires 0 <= k < |Iterations(n)| && Iterations(n)[k] == ProcessInputs
    ensures 1 <= k && k + 2 < |Iterations(n)|
    ensures Iterations(n)[k - 1] == CheckClose
    ensures Iterations(n)[k + 1] == Render && Iterations(n)[k + 2] == PollEvents
  {
    IterationsAt(n);
    var loop := Iterations(n);
    var q, r := k / 4, k % 4;
    assert k == 4 * q + r && 0 <= r < 4;
    assert r == 1 by {
      assert loop[k] == Iteration[r];
    }
    assert loop[k - 1] == Iteration[(k - 1) % 4];
    assert (k - 1) % 4 == 0;
    assert loop[k + 1] == Iteration[(k + 1) % 4];
    assert (k + 1) % 4 == 2;
    assert loop[k + 2] == Iteration[(k + 2) % 4];
    assert (k + 2) % 4 == 3;
  }
}
