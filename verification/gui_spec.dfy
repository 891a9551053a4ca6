/**
 * The frame-buffer lifecycle and event handling of the LinkIt "spinning line" sample as
 * functions on a session value: one function per C function, each taking the state before
 * the call and giving the state after it. The class in module Gui runs the same steps in
 * place and is proved to agree with these functions.
 */
module GuiSpec {
  import opened Platform

  const ScreenWidth := 240
  const ScreenHeight := 240
  const LineLength := 100
  /** 16-bit colour: two bytes per pixel. */
  const BytesPerPixel := 2
  const FrameBytes := ScreenWidth * ScreenHeight * BytesPerPixel
  const TimerPeriodMs := 100

  /** Blue, the colour key the foreground frame is cleared to. */
  const KeyColor := Argb(255, 0, 0, 255)
  /** The line colour of every tick. */
  const TickLineColor := Argb(255, 0, 255, 255)
  /** The line colour of the first frame, drawn before the first tick. */
  const FirstLineColor := Argb(255, 255, 0, 255)

  /** A `vm_graphic_frame_t`. */
  datatype Frame = Frame(format: ColorFormat, width: int, height: int, bufferLength: int, buffer: Option<Addr>)

  /** A zero-initialised static frame struct. */
  const ZeroFrame := Frame(ZeroFormat, 0, 0, 0, None)

  /** The program's globals (`g_frame`, `g_frame_group`, `g_timer_id`) and the platform. */
  datatype SessionState = SessionState(frames: seq<Frame>, group: seq<FramePtr>, timerId: TimerId, world: World)

  predicate Shaped(s: SessionState) {
    |s.frames| == 2 && |s.group| == 2
  }

  function Initial(): (s: SessionState)
    ensures Shaped(s) && s.world.heap == map[] && s.world.timers == {}
  {
    SessionState([ZeroFrame, ZeroFrame], [Null, Null], 0, InitialWorld)
  }

  /** The calls appended to the log after the calls of `before`. */
  function Appended(before: SessionState, after: SessionState): (calls: seq<Call>) {
    if |before.world.log| <= |after.world.log| then after.world.log[|before.world.log|..] else []
  }

  /** `allocate_frame(p)`: fixed 16-bit 240x240 metadata, then a DMA buffer of that size. */
  function AllocateFrame(s: SessionState, p: FramePtr, grant: bool): (r: (SessionState, bool))
    requires Shaped(s)
    ensures Shaped(r.0)
    ensures p.Null? ==> r == (s, false)
    ensures r.1 <==> p.FrameAt? && grant
    ensures p.FrameAt? ==>
      var f := r.0.frames[p.index];
      && f.format == Format16Bit && f.width == ScreenWidth && f.height == ScreenHeight
      && f.bufferLength == f.width * f.height * BytesPerPixel == 115200
      && (grant ==> f.buffer == Some(s.world.nextAddr) && r.0.world.heap == s.world.heap[s.world.nextAddr := 115200])
      && (!grant ==> f.buffer == None && r.0.world.heap == s.world.heap)
      && r.0.frames[1 - p.index] == s.frames[1 - p.index]
      && r.0.group == s.group && r.0.timerId == s.timerId && r.0.world.timers == s.world.timers
      && r.0.world.log == s.world.log + [DmaAlloc(115200, f.buffer)]
  {
    if p.Null? then (s, false)
    else
      var i := p.index;
      var f := s.frames[i].(format := Format16Bit, width := ScreenWidth, height := ScreenHeight);
      var f := f.(bufferLength := ScreenWidth * ScreenHeight * 2);
      var (w, buffer) := s.world.MallocDma(f.bufferLength, grant);
      (s.(frames := s.frames[i := f.(buffer := buffer)], world := w), buffer.Some?)
  }

  /**
   * `allocate_drawing_resource()`: allocate frame 0, then frame 1, and only when both
   * succeeded point the frame group at them. A failure returns at once and releases nothing.
   */
  function AllocateDrawingResource(s: SessionState, grant0: bool, grant1: bool): (r: (SessionState, bool))
    requires Shaped(s)
    ensures Shaped(r.0)
    ensures r.1 <==> grant0 && grant1
    ensures r.1 ==> r.0.group == [FrameAt(0), FrameAt(1)]
    ensures !r.1 ==> r.0.group == s.group
    ensures grant0 ==> r.0.frames[0].buffer == Some(s.world.nextAddr)
    ensures grant0 && grant1 ==> r.0.frames[1].buffer == Some(s.world.nextAddr + 1)
    ensures grant0 && !grant1 ==> r.0.frames[1].buffer == None
    ensures !grant0 ==> r.0.frames[0].buffer == None && r.0.frames[1] == s.frames[1]
    ensures var n := s.world.nextAddr;
      r.0.world.heap ==
        if grant0 && grant1 then s.world.heap[n := FrameBytes][n + 1 := FrameBytes]
        else if grant0 then s.world.heap[n := FrameBytes]
        else s.world.heap
    ensures r.0.world.nextAddr == s.world.nextAddr + (if grant0 && grant1 then 2 else if grant0 then 1 else 0)
    ensures r.0.timerId == s.timerId && r.0.world.timers == s.world.timers
    ensures s.world.log <= r.0.world.log
    ensures forall c | c in Appended(s, r.0) :: c.DmaAlloc?
  {
    var (s1, ok0) := AllocateFrame(s, FrameAt(0), grant0);
    if !ok0 then (s1, false)
    else
      var (s2, ok1) := AllocateFrame(s1, FrameAt(1), grant1);
      if !ok1 then (s2, false)
      else (s2.(group := s2.group[0 := FrameAt(0)][1 := FrameAt(1)]), true)
  }

  /** `free_frame(p)`; the source dereferences `p` unchecked, so it must not be `NULL`. */
  function FreeFrame(s: SessionState, p: FramePtr): (r: SessionState)
    requires Shaped(s) && p.FrameAt?
    ensures Shaped(r)
    ensures var f, g := s.frames[p.index], r.frames[p.index];
      && g.buffer == None && g.bufferLength == 0
      && g.format == f.format && g.width == f.width && g.height == f.height
      && r.world.heap == (if f.buffer.Some? then s.world.heap - {f.buffer.value} else s.world.heap)
      && r.world.log == s.world.log + (if f.buffer.Some? then [DmaFree(f.buffer.value)] else [])
    ensures r.frames[1 - p.index] == s.frames[1 - p.index]
    ensures r.group == s.group && r.timerId == s.timerId && r.world.timers == s.world.timers
  {
    var f := s.frames[p.index];
    var (f, w) := if f.buffer.Some? then (f.(buffer := None), s.world.Free(f.buffer.value)) else (f, s.world);
    s.(frames := s.frames[p.index := f.(bufferLength := 0)], world := w)
  }

  /** The DMA blocks the two frames point at. */
  function Held(s: SessionState): (h: set<Addr>)
    requires Shaped(s)
    ensures forall i: FrameIndex :: s.frames[i].buffer.Some? ==> s.frames[i].buffer.value in h
    ensures forall a | a in h :: s.frames[0].buffer == Some(a) || s.frames[1].buffer == Some(a)
  {
    (if s.frames[0].buffer.Some? then {s.frames[0].buffer.value} else {})
    + (if s.frames[1].buffer.Some? then {s.frames[1].buffer.value} else {})
  }

  /** `free_drawing_resource()`: free both frames, clear the group, delete `g_timer_id`. */
  function FreeDrawingResource(s: SessionState): (r: SessionState)
    requires Shaped(s)
    ensures Shaped(r)
    ensures forall i: FrameIndex ::
      && r.frames[i].buffer == None && r.frames[i].bufferLength == 0
      && r.frames[i].format == s.frames[i].format
      && r.frames[i].width == s.frames[i].width && r.frames[i].height == s.frames[i].height
    ensures r.group == [Null, Null]
    ensures r.timerId == s.timerId && r.world.timers == s.world.timers - {s.timerId}
    ensures r.world.heap == s.world.heap - Held(s)
    ensures s.world.log <= r.world.log
    ensures var calls := Appended(s, r);
      && |calls| > 0 && calls[|calls| - 1] == TimerDeleted(s.timerId)
      && forall k | 0 <= k < |calls| - 1 :: calls[k].DmaFree?
  {
    var s1 := FreeFrame(FreeFrame(s, FrameAt(0)), FrameAt(1));
    var s2 := s1.(group := s1.group[0 := Null][1 := Null]);
    s2.(world := s2.world.DeleteTimer(s2.timerId))
  }

  /** What one tick calls, in order: clear frame 1 to the key colour, draw the line, blit. */
  function TickCalls(group: seq<FramePtr>): (calls: seq<Call>)
    requires |group| == 2
    ensures |calls| == 3
    ensures calls[0].SolidRectangle? && calls[0].target == group[1] && calls[0].color == KeyColor
    ensures calls[0].x == 0 && calls[0].y == 0 && calls[0].width == ScreenWidth && calls[0].height == ScreenHeight
    ensures calls[1] == HorizontalLine(group[1], TickLineColor)
    ensures calls[2].BltFrame? && calls[2].layers == group && calls[2].count == |group|
    ensures |calls[2].positions| == calls[2].count && forall q | q in calls[2].positions :: q == Point(0, 0)
  {
    [ SolidRectangle(group[1], 0, 0, ScreenWidth, ScreenHeight, KeyColor),
      HorizontalLine(group[1], TickLineColor),
      BltFrame(group, [Point(0, 0), Point(0, 0)], 2) ]
  }

  /** The line both the first frame and every tick draw: from the screen centre to the right. */
  function HorizontalLine(target: FramePtr, color: Argb): (c: Call)
    ensures c.Line? && c.target == target && c.color == color
    ensures c.y0 == c.y1 == ScreenHeight / 2 && c.x0 == ScreenWidth / 2
    ensures c.x1 - c.x0 + 1 == LineLength
    ensures 0 <= c.x0 <= c.x1 < ScreenWidth && 0 <= c.y0 < ScreenHeight
  {
    Line(target, ScreenWidth / 2, ScreenHeight / 2, ScreenWidth / 2 + LineLength - 1, ScreenHeight / 2, color)
  }

  /** `timer_callback`: redraws the foreground through `g_frame_group[1]` and blits the group. */
  function TimerCallback(s: SessionState): (r: SessionState)
    requires Shaped(s)
    ensures Shaped(r)
    ensures r.frames == s.frames && r.group == s.group && r.timerId == s.timerId
    ensures r.world.heap == s.world.heap && r.world.timers == s.world.timers
    ensures r.world.nextAddr == s.world.nextAddr && r.world.nextTimer == s.world.nextTimer
    ensures r.world.log == s.world.log + TickCalls(s.group)
    ensures r.world.pen == TickLineColor
  {
    var w := s.world.SetColor(KeyColor);
    var w := w.Append(SolidRectangle(s.group[1], 0, 0, ScreenWidth, ScreenHeight, w.pen));
    var w := w.SetColor(w.pen.(g := 255));
    var w := w.Append(Line(s.group[1], ScreenWidth / 2, ScreenHeight / 2, ScreenWidth / 2 + LineLength - 1, ScreenHeight / 2, w.pen));
    s.(world := w.Append(BltFrame(s.group, [Point(0, 0), Point(0, 0)], 2)))
  }

  /** What `draw_first_frame` calls before it runs the first tick. */
  function FirstFrameCalls(group: seq<FramePtr>, id: TimerId): (calls: seq<Call>)
    requires |group| == 2
    ensures |calls| == 4
    ensures calls[0] == ImageMemory(group[0], 0, 0)
    ensures calls[1] == TickCalls(group)[0]
    ensures calls[2] == HorizontalLine(group[1], FirstLineColor)
    ensures calls[3] == TimerCreated(TimerPeriodMs, id)
  {
    [ ImageMemory(group[0], 0, 0),
      SolidRectangle(group[1], 0, 0, ScreenWidth, ScreenHeight, KeyColor),
      HorizontalLine(group[1], FirstLineColor),
      TimerCreated(TimerPeriodMs, id) ]
  }

  /**
   * `draw_first_frame`: background image into frame 0, key colour and line into frame 1,
   * arm a 100 ms timer, then run one tick at once.
   */
  function DrawFirstFrame(s: SessionState): (r: SessionState)
    requires Shaped(s)
    ensures Shaped(r)
    ensures r.frames == s.frames && r.group == s.group && r.world.heap == s.world.heap
    ensures r.timerId == s.world.nextTimer
    ensures r.world.timers == s.world.timers + {r.timerId}
    ensures r.world.nextTimer == r.timerId + 1
    ensures r.world.log == s.world.log + FirstFrameCalls(s.group, r.timerId) + TickCalls(s.group)
    ensures r.world.pen == TickLineColor
  {
    var w := s.world.Append(ImageMemory(s.group[0], 0, 0));
    var w := w.SetColor(KeyColor);
    var w := w.Append(SolidRectangle(s.group[1], 0, 0, ScreenWidth, ScreenHeight, w.pen));
    var w := w.SetColor(w.pen.(r := 255));
    var w := w.Append(Line(s.group[1], ScreenWidth / 2, ScreenHeight / 2, ScreenWidth / 2 + LineLength - 1, ScreenHeight / 2, w.pen));
    var (w, id) := w.CreateTimer(TimerPeriodMs);
    TimerCallback(s.(timerId := id, world := w))
  }

  /** The lifecycle messages the platform delivers to `handle_system_event`. */
  datatype Message = Create | Paint | Quit | OtherMessage(code: int)

  /**
   * `handle_system_event(message, param)`. The outcome of the allocation of each frame
   * during CREATE is decided by the environment (`grant0`, `grant1`).
   */
  function HandleSystemEvent(s: SessionState, message: Message, grant0: bool, grant1: bool): (r: SessionState)
    requires Shaped(s)
    ensures Shaped(r)
    ensures message.Create? ==>
      && s.world.log + [ResourceInit] <= r.world.log
      && (grant0 && grant1 ==> r.group == [FrameAt(0), FrameAt(1)])
      && (!(grant0 && grant1) ==> r.group == s.group)
      && (grant0 ==> r.frames[0].buffer.Some? && r.frames[0].buffer.value in r.world.heap)
      && r.timerId == s.timerId && r.world.timers == s.world.timers
    ensures message.Paint? ==>
      && r.frames == s.frames && r.group == s.group && r.world.heap == s.world.heap
      && r.timerId in r.world.timers
      && r.world.log == s.world.log + FirstFrameCalls(s.group, r.timerId) + TickCalls(s.group)
    ensures message.Quit? ==>
      && (forall i: FrameIndex :: r.frames[i].buffer == None)
      && r.group == [Null, Null]
      && r.world.heap == s.world.heap - Held(s)
      && r.world.timers == s.world.timers - {s.timerId}
      && |r.world.log| > 0 && r.world.log[|r.world.log| - 1] == ResourceRelease
    ensures message.OtherMessage? ==> r == s
  {
    match message
    case Create =>
      AllocateDrawingResource(s.(world := s.world.Append(ResourceInit)), grant0, grant1).0
    case Paint =>
      DrawFirstFrame(s)
    case Quit =>
      var t := FreeDrawingResource(s);
      t.(world := t.world.Append(ResourceRelease))
    case OtherMessage(_) =>
      s
  }

  /** What the platform's dispatcher delivers: a lifecycle event or the firing of a timer. */
  datatype Input =
    | Event(message: Message, grant0: bool, grant1: bool)
    | TimerFired(id: TimerId)

  /** One dispatch. Only an armed timer fires, and every timer runs `timer_callback`. */
  function Step(s: SessionState, input: Input): (r: SessionState)
    requires Shaped(s)
    ensures Shaped(r)
  {
    match input
    case Event(m, g0, g1) => HandleSystemEvent(s, m, g0, g1)
    case TimerFired(id) => if id in s.world.timers then TimerCallback(s) else s
  }

  /** A sequence of dispatches, one after another. */
  function Run(s: SessionState, inputs: seq<Input>): (r: SessionState)
    requires Shaped(s)
    ensures Shaped(r)
    decreases |inputs|
  {
    if inputs == [] then s else Run(Step(s, inputs[0]), inputs[1..])
  }
}
