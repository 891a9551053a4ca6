/**
 * The sample's globals and functions as they run: `g_frame` is an array of frame structs
 * that `allocate_frame` and `free_frame` update field by field through a pointer,
 * `g_frame_group` an array of pointers into it, `g_timer_id` a variable. Each method does
 * what its C function does, step by step, and promises that the state it leaves is the one
 * the matching function of GuiSpec computes from the state it found.
 */
module Gui {
  import opened Platform
  import opened GuiSpec

  class Session {
    /** `g_frame`: [0] the background image, [1] the line drawn over the colour key. */
    const frames: array<Frame>
    /** `g_frame_group`: the layers handed to `vm_graphic_blt_frame`. */
    const group: array<FramePtr>
    /** `g_timer_id`. */
    var timerId: TimerId
    /** The platform services, as far as the program can observe them. */
    var world: World

    ghost predicate Valid()
      reads this
    {
      frames.Length == 2 && group.Length == 2
    }

    /** The globals and the platform as one value. */
    ghost function Model(): (s: SessionState)
      reads this, frames, group
      requires Valid()
      ensures Shaped(s)
    {
      SessionState(frames[..], group[..], timerId, world)
    }

    /** Program start: static storage is zero, nothing allocated, no timer. */
    constructor ()
      ensures Valid() && fresh(frames) && fresh(group)
      ensures Model() == Initial()
    {
      frames := new Frame[2](_ => ZeroFrame);
      group := new FramePtr[2](_ => Null);
      timerId := 0;
      world := InitialWorld;
      new;
      assert frames[..] == [ZeroFrame, ZeroFrame];
      assert group[..] == [Null, Null];
    }

    /** `allocate_frame(frame)`; `grant` is whether `vm_malloc_dma` finds the memory. */
    method AllocateFrame(frame: FramePtr, grant: bool) returns (ok: bool)
      requires Valid()
      modifies this`world, frames
      ensures Valid()
      ensures (Model(), ok) == GuiSpec.AllocateFrame(old(Model()), frame, grant)
    {
      if frame.Null? {
        return false;
      }
      var i := frame.index;
      frames[i] := frames[i].(format := Format16Bit);
      frames[i] := frames[i].(width := ScreenWidth);
      frames[i] := frames[i].(height := ScreenHeight);
      frames[i] := frames[i].(bufferLength := ScreenWidth * ScreenHeight * 2);
      var (w, buffer) := world.MallocDma(frames[i].bufferLength, grant);
      world := w;
      frames[i] := frames[i].(buffer := buffer);
      assert frames[..] == old(frames[..])[i := frames[i]];
      if buffer == None {
        return false;
      }
      return true;
    }

    /** `allocate_drawing_resource()`. */
    method AllocateDrawingResource(grant0: bool, grant1: bool) returns (ok: bool)
      requires Valid()
      modifies this`world, frames, group
      ensures Valid()
      ensures (Model(), ok) == GuiSpec.AllocateDrawingResource(old(Model()), grant0, grant1)
    {
      label attempt: {
        ok := AllocateFrame(FrameAt(0), grant0);
        if !ok {
          break attempt;
        }
        ok := AllocateFrame(FrameAt(1), grant1);
        if !ok {
          break attempt;
        }
        group[0] := FrameAt(0);
        group[1] := FrameAt(1);
        return true;
      }
      return false;
    }

    /** `free_frame(frame)`. */
    method FreeFrame(frame: FramePtr)
      requires Valid() && frame.FrameAt?
      modifies this`world, frames
      ensures Valid()
      ensures Model() == GuiSpec.FreeFrame(old(Model()), frame)
    {
      var i := frame.index;
      if frames[i].buffer != None {
        world := world.Free(frames[i].buffer.value);
        frames[i] := frames[i].(buffer := None);
      }
      frames[i] := frames[i].(bufferLength := 0);
    }

    /** `free_drawing_resource()`. */
    method FreeDrawingResource()
      requires Valid()
      modifies this`world, frames, group
      ensures Valid()
      ensures Model() == GuiSpec.FreeDrawingResource(old(Model()))
    {
      FreeFrame(FrameAt(0));
      FreeFrame(FrameAt(1));
      group[0] := Null;
      group[1] := Null;
      world := world.DeleteTimer(timerId);
    }

    /** `timer_callback`: one animation tick. */
    method TimerCallback()
      requires Valid()
      modifies this`world
      ensures Valid()
      ensures Model() == GuiSpec.TimerCallback(old(Model()))
    {
      var color := KeyColor;
      world := world.SetColor(color);
      world := world.Append(SolidRectangle(group[1], 0, 0, ScreenWidth, ScreenHeight, world.pen));
      color := color.(g := 255);
      world := world.SetColor(color);
      world := world.Append(Line(group[1], ScreenWidth / 2, ScreenHeight / 2,
                                 ScreenWidth / 2 + LineLength - 1, ScreenHeight / 2, world.pen));
      world := world.Append(BltFrame(group[..], [Point(0, 0), Point(0, 0)], 2));
    }

    /** `draw_first_frame`. */
    method DrawFirstFrame()
      requires Valid()
      modifies this`world, this`timerId
      ensures Valid()
      ensures Model() == GuiSpec.DrawFirstFrame(old(Model()))
    {
      world := world.Append(ImageMemory(group[0], 0, 0));
      var color := KeyColor;
      world := world.SetColor(color);
      world := world.Append(SolidRectangle(group[1], 0, 0, ScreenWidth, ScreenHeight, world.pen));
      color := color.(r := 255);
      world := world.SetColor(color);
      world := world.Append(Line(group[1], ScreenWidth / 2, ScreenHeight / 2,
                                 ScreenWidth / 2 + LineLength - 1, ScreenHeight / 2, world.pen));
      var (w, id) := world.CreateTimer(TimerPeriodMs);
      world := w;
      timerId := id;
      TimerCallback();
    }

    /** `handle_system_event(message, param)`; `param` is not used. */
    method HandleSystemEvent(message: Message, grant0: bool, grant1: bool)
      requires Valid()
      modifies this, frames, group
      ensures Valid()
      ensures Model() == GuiSpec.HandleSystemEvent(old(Model()), message, grant0, grant1)
    {
      match message
      case Create =>
        world := world.Append(ResourceInit);
        var _ := AllocateDrawingResource(grant0, grant1);
      case Paint =>
        DrawFirstFrame();
      case Quit =>
        FreeDrawingResource();
        world := world.Append(ResourceRelease);
      case OtherMessage(_) =>
    }
  }
}
