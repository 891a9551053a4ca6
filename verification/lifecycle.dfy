/**
 * Properties of whole runs of the sample: sequences of lifecycle events and timer firings
 * as the platform's dispatcher delivers them, one at a time, to `handle_system_event` and
 * `timer_callback`.
 */
module Lifecycle {
  import opened Platform
  import opened GuiSpec

  /**
   * A frame that points at a buffer points at a live DMA block of exactly its byte length,
   * and that length is width x height x bytes per pixel of its 16-bit format.
   */
  ghost predicate FrameConsistent(s: SessionState, i: FrameIndex)
    requires Shaped(s)
  {
    var f := s.frames[i];
    f.buffer.Some? ==>
      && f.buffer.value in s.world.heap
      && s.world.heap[f.buffer.value] == f.bufferLength
      && f.format == Format16Bit
      && f.bufferLength == f.width * f.height * BytesPerPixel
  }

  /**
   * The invariant every reachable state keeps: live blocks and armed timers were handed
   * out by the platform, the two frames never share a buffer, and each group slot is
   * either `NULL` or points at the frame of its own index.
   */
  ghost predicate Consistent(s: SessionState) {
    && Shaped(s)
    && (forall a | a in s.world.heap :: a < s.world.nextAddr)
    && (forall t | t in s.world.timers :: t < s.world.nextTimer)
    && FrameConsistent(s, 0) && FrameConsistent(s, 1)
    && (s.frames[0].buffer.Some? && s.frames[1].buffer.Some? ==> s.frames[0].buffer != s.frames[1].buffer)
    && (s.group[0] == Null || s.group[0] == FrameAt(0))
    && (s.group[1] == Null || s.group[1] == FrameAt(1))
  }

  lemma InitialConsistent()
    ensures Consistent(Initial())
  {
  }

  lemma AllocateDrawingResourceKeepsConsistent(s: SessionState, grant0: bool, grant1: bool)
    requires Consistent(s)
    ensures Consistent(AllocateDrawingResource(s, grant0, grant1).0)
  {
    var (s1, ok0) := AllocateFrame(s, FrameAt(0), grant0);
    assert Consistent(s1);
    if ok0 {
      var (s2, ok1) := AllocateFrame(s1, FrameAt(1), grant1);
      assert Consistent(s2);
    }
  }

  lemma FreeDrawingResourceKeepsConsistent(s: SessionState)
    requires Consistent(s)
    ensures Consistent(FreeDrawingResource(s))
  {
    var s1 := FreeFrame(s, FrameAt(0));
    assert Consistent(s1);
    var s2 := FreeFrame(s1, FrameAt(1));
    assert Consistent(s2);
  }

  lemma DrawFirstFrameKeepsConsistent(s: SessionState)
    requires Consistent(s)
    ensures Consistent(DrawFirstFrame(s))
  {
  }

  lemma HandleSystemEventKeepsConsistent(s: SessionState, m: Message, grant0: bool, grant1: bool)
    requires Consistent(s)
    ensures Consistent(HandleSystemEvent(s, m, grant0, grant1))
  {
    match m {
      case Create =>
        AllocateDrawingResourceKeepsConsistent(s.(world := s.world.Append(ResourceInit)), grant0, grant1);
      case Paint =>
        DrawFirstFrameKeepsConsistent(s);
      case Quit =>
        FreeDrawingResourceKeepsConsistent(s);
      case OtherMessage(_) =>
    }
  }

  lemma StepKeepsConsistent(s: SessionState, input: Input)
    requires Consistent(s)
    ensures Consistent(Step(s, input))
  {
    match input
    case Event(m, g0, g1) =>
      HandleSystemEventKeepsConsistent(s, m, g0, g1);
    case TimerFired(id) =>
      if id in s.world.timers {
        assert Step(s, input) == TimerCallback(s);
      }
  }

  /** Every state a run reaches from a consistent state is consistent. */
  lemma {:induction false} RunKeepsConsistent(s: SessionState, inputs: seq<Input>)
    requires Consistent(s)
    ensures Consistent(Run(s, inputs))
    decreases |inputs|
  {
    if inputs != [] {
      StepKeepsConsistent(s, inputs[0]);
      RunKeepsConsistent(Step(s, inputs[0]), inputs[1..]);
    }
  }

  /**
   * A sanity property of the platform abstraction over whole runs: the call log is only
   * extended, and block addresses and timer ids are never handed out twice.
   */
  lemma {:induction false} RunOnlyAppends(s: SessionState, inputs: seq<Input>)
    requires Shaped(s)
    ensures s.world.log <= Run(s, inputs).world.log
    ensures s.world.nextAddr <= Run(s, inputs).world.nextAddr
    ensures s.world.nextTimer <= Run(s, inputs).world.nextTimer
    decreases |inputs|
  {
    if inputs != [] {
      var t := Step(s, inputs[0]);
      assert s.world.log <= t.world.log by {
        match inputs[0]
        case Event(m, g0, g1) =>
          if m.Quit? {
            var u := FreeDrawingResource(s);
            assert u.world.log <= u.world.log + [ResourceRelease];
          }
        case TimerFired(_) =>
      }
      RunOnlyAppends(t, inputs[1..]);
    }
  }

  /** Running two sequences of inputs one after the other is running their concatenation. */
  lemma {:induction false} RunConcat(s: SessionState, first: seq<Input>, second: seq<Input>)
    requires Shaped(s)
    ensures Run(s, first + second) == Run(Run(s, first), second)
    decreases |first|
  {
    if first == [] {
      assert first + second == second;
    } else {
      assert (first + second)[1..] == first[1..] + second;
      RunConcat(Step(s, first[0]), first[1..], second);
    }
  }

  /** Timer firings draw and blit but allocate, free, arm and disarm nothing. */
  lemma {:induction false} TicksKeepResources(s: SessionState, ticks: seq<Input>)
    requires Shaped(s)
    requires forall k | 0 <= k < |ticks| :: ticks[k].TimerFired?
    ensures var r := Run(s, ticks);
      && r.frames == s.frames && r.group == s.group && r.timerId == s.timerId
      && r.world.heap == s.world.heap && r.world.timers == s.world.timers
      && r.world.nextAddr == s.world.nextAddr && r.world.nextTimer == s.world.nextTimer
    decreases |ticks|
  {
    if ticks != [] {
      TicksKeepResources(Step(s, ticks[0]), ticks[1..]);
    }
  }

  /**
   * Nothing leaks: the live DMA blocks are exactly the frames' buffers, and the only timer
   * that may be armed is the one `g_timer_id` names.
   */
  ghost predicate Balanced(s: SessionState) {
    && Consistent(s)
    && s.world.heap.Keys == Held(s)
    && s.world.timers <= {s.timerId}
  }

  /**
   * An assumed event order, one session at a time: CREATE comes only while no frame holds a
   * buffer (at start or after QUIT), PAINT only while no timer is armed (once per session).
   * `handle_system_event` does not check this order itself; `DoubleCreateLeaks` and
   * `DoublePaintOutlivesQuit` show what happens when it is broken.
   */
  ghost predicate Admissible(s: SessionState, input: Input)
    requires Shaped(s)
  {
    match input
    case Event(Create, _, _) => Held(s) == {}
    case Event(Paint, _, _) => s.world.timers == {}
    case _ => true
  }

  /** Every input of the run is `Admissible` in the state it arrives in. */
  ghost predicate Disciplined(s: SessionState, inputs: seq<Input>)
    requires Shaped(s)
    decreases |inputs|
  {
    inputs != [] ==> Admissible(s, inputs[0]) && Disciplined(Step(s, inputs[0]), inputs[1..])
  }

  lemma StepKeepsBalanced(s: SessionState, input: Input)
    requires Balanced(s) && Admissible(s, input)
    ensures Balanced(Step(s, input))
  {
    StepKeepsConsistent(s, input);
    var r := Step(s, input);
    match input
    case Event(m, g0, g1) =>
      if m.Create? {
        assert s.world.heap.Keys == {};
        var t := s.(world := s.world.Append(ResourceInit));
        var (s1, ok0) := AllocateFrame(t, FrameAt(0), g0);
        if ok0 {
          var (s2, ok1) := AllocateFrame(s1, FrameAt(1), g1);
          assert s2.world.heap.Keys == Held(s2);
        }
      } else if m.Quit? {
        assert r.world.heap.Keys == s.world.heap.Keys - Held(s);
      }
    case TimerFired(_) =>
  }

  /** Under the assumed event order, a run from a state that leaks nothing leaks nothing. */
  lemma {:induction false} DisciplinedRunKeepsBalanced(s: SessionState, inputs: seq<Input>)
    requires Balanced(s) && Disciplined(s, inputs)
    ensures Balanced(Run(s, inputs))
    decreases |inputs|
  {
    if inputs != [] {
      StepKeepsBalanced(s, inputs[0]);
      DisciplinedRunKeepsBalanced(Step(s, inputs[0]), inputs[1..]);
    }
  }

  /** QUIT in a state that leaks nothing releases every DMA block and disarms every timer. */
  lemma QuitReleasesEverything(s: SessionState, grant0: bool, grant1: bool)
    requires Balanced(s)
    ensures var r := Step(s, Event(Quit, grant0, grant1));
      Balanced(r) && r.world.heap == map[] && r.world.timers == {} && Held(r) == {}
  {
    StepKeepsBalanced(s, Event(Quit, grant0, grant1));
  }

  lemma RunCons(s: SessionState, first: Input, rest: seq<Input>)
    requires Shaped(s)
    ensures Run(s, [first] + rest) == Run(Step(s, first), rest)
  {
    assert ([first] + rest)[1..] == rest;
  }

  lemma RunOne(s: SessionState, input: Input)
    requires Shaped(s)
    ensures Run(s, [input]) == Step(s, input)
  {
    RunCons(s, input, []);
    assert [input] + [] == [input];
  }

  lemma InitialBalanced()
    ensures Balanced(Initial()) && Held(Initial()) == {}
  {
    InitialConsistent();
  }

  /** CREATE then PAINT, from a state that holds nothing, leaks nothing. */
  lemma OpenSessionKeepsBalanced(s: SessionState, grant0: bool, grant1: bool)
    requires Balanced(s) && Held(s) == {} && s.world.timers == {}
    ensures Balanced(Run(s, [Event(Create, grant0, grant1), Event(Paint, grant0, grant1)]))
  {
    var create, paint := Event(Create, grant0, grant1), Event(Paint, grant0, grant1);
    StepKeepsBalanced(s, create);
    var s1 := Step(s, create);
    assert s1.world.timers == {};
    StepKeepsBalanced(s1, paint);
    RunCons(s, create, [paint]);
    RunOne(s1, paint);
  }

  /**
   * One session in the assumed event order (CREATE, whatever the allocations yield, then
   * PAINT, any number of ticks, QUIT) from a state that holds nothing ends holding nothing:
   * no DMA block live, no timer armed, no group pointer set.
   */
  lemma {:induction false} SessionReleasesEverything(s: SessionState, grant0: bool, grant1: bool, ticks: seq<Input>)
    requires Balanced(s) && Held(s) == {} && s.world.timers == {}
    requires forall k | 0 <= k < |ticks| :: ticks[k].TimerFired?
    ensures var r := Run(s, [Event(Create, grant0, grant1), Event(Paint, grant0, grant1)] + ticks + [Event(Quit, grant0, grant1)]);
      r.world.heap == map[] && r.world.timers == {} && r.group == [Null, Null]
  {
    var open, quit := [Event(Create, grant0, grant1), Event(Paint, grant0, grant1)], Event(Quit, grant0, grant1);
    OpenSessionKeepsBalanced(s, grant0, grant1);
    var s2 := Run(s, open);
    TicksKeepResources(s2, ticks);
    var s3 := Run(s2, ticks);
    assert Consistent(s3);
    QuitReleasesEverything(s3, grant0, grant1);
    RunOne(s3, quit);
    RunConcat(s, open, ticks);
    RunConcat(s, open + ticks, [quit]);
  }

  /** From program start in particular. */
  lemma NormalSessionReleasesEverything(grant0: bool, grant1: bool, ticks: seq<Input>)
    requires forall k | 0 <= k < |ticks| :: ticks[k].TimerFired?
    ensures var r := Run(Initial(), [Event(Create, grant0, grant1), Event(Paint, grant0, grant1)] + ticks + [Event(Quit, grant0, grant1)]);
      r.world.heap == map[] && r.world.timers == {} && r.group == [Null, Null]
  {
    InitialBalanced();
    SessionReleasesEverything(Initial(), grant0, grant1, ticks);
  }

  /** What CREATE with both allocations granted does to the heap and the frames. */
  lemma CreateAllocatesTwo(s: SessionState)
    requires Shaped(s)
    ensures var r, n := Step(s, Event(Create, true, true)), s.world.nextAddr;
      && r.world.heap == s.world.heap[n := FrameBytes][n + 1 := FrameBytes]
      && r.world.nextAddr == n + 2 && Held(r) == {n, n + 1}
      && r.world.timers == s.world.timers && r.world.nextTimer == s.world.nextTimer
      && r.group == [FrameAt(0), FrameAt(1)]
  {
  }

  /** What PAINT does to the timers. */
  lemma PaintArmsTimer(s: SessionState, grant0: bool, grant1: bool)
    requires Shaped(s)
    ensures var r := Step(s, Event(Paint, grant0, grant1));
      && r.timerId == s.world.nextTimer && r.world.nextTimer == s.world.nextTimer + 1
      && r.world.timers == s.world.timers + {s.world.nextTimer}
      && r.world.heap == s.world.heap && r.frames == s.frames && r.group == s.group
  {
  }

  /** What QUIT does to the heap, the timers and the group. */
  lemma QuitFrees(s: SessionState, grant0: bool, grant1: bool)
    requires Shaped(s)
    ensures var r := Step(s, Event(Quit, grant0, grant1));
      && r.world.heap == s.world.heap - Held(s) && r.world.timers == s.world.timers - {s.timerId}
      && r.group == [Null, Null] && Held(r) == {}
  {
  }

  /** Outside that order it leaks: a second CREATE loses the first two buffers for good. */
  lemma DoubleCreateLeaks()
    ensures var inputs := [Event(Create, true, true), Event(Create, true, true), Event(Quit, true, true)];
      Run(Initial(), inputs).world.heap.Keys == {0, 1}
  {
    var create, quit := Event(Create, true, true), Event(Quit, true, true);
    var s0 := Initial();
    CreateAllocatesTwo(s0);
    var s1 := Step(s0, create);
    CreateAllocatesTwo(s1);
    var s2 := Step(s1, create);
    QuitFrees(s2, true, true);
    var s3 := Step(s2, quit);
    assert s1.world.heap.Keys == {0, 1} && s1.world.nextAddr == 2;
    assert s2.world.heap.Keys == {0, 1, 2, 3} && Held(s2) == {2, 3};
    assert s3.world.heap.Keys == {0, 1};
    RunCons(s0, create, [create, quit]);
    RunCons(s1, create, [quit]);
    RunOne(s2, quit);
  }

  /**
   * A second PAINT overwrites `g_timer_id`: QUIT deletes only the second timer, and the
   * first one still fires afterwards and draws through the `NULL` group pointers.
   */
  lemma DoublePaintOutlivesQuit()
    ensures var inputs := [Event(Create, true, true), Event(Paint, true, true), Event(Paint, true, true), Event(Quit, true, true)];
      var r := Run(Initial(), inputs);
      && r.world.timers == {1}
      && Step(r, TimerFired(1)).world.log == r.world.log + TickCalls([Null, Null])
  {
    var create, paint, quit := Event(Create, true, true), Event(Paint, true, true), Event(Quit, true, true);
    var s0 := Initial();
    CreateAllocatesTwo(s0);
    var s1 := Step(s0, create);
    PaintArmsTimer(s1, true, true);
    var s2 := Step(s1, paint);
    PaintArmsTimer(s2, true, true);
    var s3 := Step(s2, paint);
    QuitFrees(s3, true, true);
    var s4 := Step(s3, quit);
    assert s4.world.timers == {1};
    RunCons(s0, create, [paint, paint, quit]);
    RunCons(s1, paint, [paint, quit]);
    RunCons(s2, paint, [quit]);
    RunOne(s3, quit);
    assert Step(s4, TimerFired(1)) == TimerCallback(s4);
  }

  /**
   * A CREATE whose second allocation fails keeps the first buffer, publishes no group,
   * and a following PAINT still arms the timer and draws through the `NULL` pointers.
   * The orphaned buffer is only reclaimed by QUIT.
   */
  lemma FailedCreateStillAnimates()
    ensures var r := Run(Initial(), [Event(Create, true, false), Event(Paint, true, true)]);
      && r.world.heap.Keys == {0} && r.frames[0].buffer == Some(0)
      && r.group == [Null, Null]
      && r.world.timers == {1}
      && r.world.log[|r.world.log| - 3..] == TickCalls([Null, Null])
    ensures Run(Initial(), [Event(Create, true, false), Event(Paint, true, true), Event(Quit, true, true)]).world.heap == map[]
  {
    var create, paint, quit := Event(Create, true, false), Event(Paint, true, true), Event(Quit, true, true);
    var s0 := Initial();
    var s1 := Step(s0, create);
    assert s1.world.heap == map[0 := FrameBytes] && s1.frames[0].buffer == Some(0) && s1.frames[1].buffer == None;
    PaintArmsTimer(s1, true, true);
    var s2 := Step(s1, paint);
    assert s2.world.log == s1.world.log + FirstFrameCalls(s1.group, 1) + TickCalls(s1.group);
    QuitFrees(s2, true, true);
    RunCons(s0, create, [paint]);
    RunOne(s1, paint);
    RunCons(s0, create, [paint, quit]);
    RunCons(s1, paint, [quit]);
    RunOne(s2, quit);
  }

  /** `free_frame` twice is `free_frame` once. */
  lemma FreeFrameIdempotent(s: SessionState, p: FramePtr)
    requires Shaped(s) && p.FrameAt?
    ensures FreeFrame(FreeFrame(s, p), p) == FreeFrame(s, p)
  {
  }

  /**
   * `free_drawing_resource` twice frees nothing the second time: the frames, the group,
   * the live blocks and the armed timers are as after the first call.
   */
  lemma FreeDrawingResourceTwice(s: SessionState)
    requires Shaped(s)
    ensures var once := FreeDrawingResource(s);
      var twice := FreeDrawingResource(once);
      && twice.frames == once.frames && twice.group == once.group
      && twice.world.heap == once.world.heap && twice.world.timers == once.world.timers
      && forall k | |once.world.log| <= k < |twice.world.log| :: !twice.world.log[k].DmaFree?
  {
  }

  /**
   * In the calls of `draw_first_frame`, the timer is created before the first blit, and
   * the first frame differs from a tick's only in the line colour and the image load.
   */
  lemma TimerArmedBeforeFirstBlit(s: SessionState)
    requires Shaped(s)
    ensures var r := DrawFirstFrame(s);
      var calls := Appended(s, r);
      && |calls| == 7
      && calls[3] == TimerCreated(TimerPeriodMs, r.timerId)
      && (forall k | 0 <= k < 3 :: !calls[k].BltFrame?)
      && calls[6].BltFrame?
      && calls[1] == calls[4]
      && calls[2].Line? && calls[5].Line? && calls[2] == calls[5].(color := FirstLineColor)
  {
    var r := DrawFirstFrame(s);
    assert Appended(s, r) == FirstFrameCalls(s.group, r.timerId) + TickCalls(s.group);
  }
}
