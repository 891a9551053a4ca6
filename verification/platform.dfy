/**
 * The platform services the sample calls into: the DMA heap (`vm_malloc_dma`, `vm_free`),
 * the precise timer service, the `vm_graphic` drawing library and the resource store.
 * Their internals are not modelled. What the program can observe of them is a `World`
 * value: the live DMA blocks, the armed timers, the library's current drawing colour and
 * the log of every call made, in order, with its arguments.
 */
module Platform {

  datatype Option<T> = None | Some(value: T)

  /** One colour channel (`VMUINT8`). */
  type Byte = x: int | 0 <= x < 256

  /** A non-null DMA block; `None` in an `Option<Addr>` stands for `NULL`. */
  type Addr = nat

  type TimerId = nat

  datatype Argb = Argb(a: Byte, r: Byte, g: Byte, b: Byte)

  /**
   * Pixel format of a frame. `ZeroFormat` is the all-zero value a statically allocated
   * frame starts with; which library format that encodes is not part of this model.
   */
  datatype ColorFormat = ZeroFormat | Format16Bit

  /** The program owns exactly two frame structs, `g_frame[0]` and `g_frame[1]`. */
  type FrameIndex = i: nat | i < 2

  /** A `vm_graphic_frame_t*` as the program can form it: `NULL` or `&g_frame[i]`. */
  datatype FramePtr = Null | FrameAt(index: FrameIndex)

  datatype Point = Point(x: int, y: int)

  /** One call into the platform, with the arguments it was given. */
  datatype Call =
    | DmaAlloc(length: nat, result: Option<Addr>)
    | DmaFree(addr: Addr)
    | ResourceInit
    | ResourceRelease
      /** `vm_res_get_image` followed by `vm_graphic_draw_image_memory` of that image. */
    | ImageMemory(target: FramePtr, x: int, y: int)
      /** `vm_graphic_draw_solid_rectangle` in the colour set last. */
    | SolidRectangle(target: FramePtr, x: int, y: int, width: int, height: int, color: Argb)
      /** `vm_graphic_draw_line` in the colour set last. */
    | Line(target: FramePtr, x0: int, y0: int, x1: int, y1: int, color: Argb)
      /** `vm_graphic_blt_frame`: the frame pointers in layer order, their positions, the count. */
    | BltFrame(layers: seq<FramePtr>, positions: seq<Point>, count: nat)
    | TimerCreated(periodMs: nat, id: TimerId)
    | TimerDeleted(id: TimerId)

  datatype World = World(
    heap: map<Addr, nat>,   // live DMA blocks and their lengths in bytes
    nextAddr: Addr,         // where the next successful allocation is placed
    timers: set<TimerId>,   // armed precise timers
    nextTimer: TimerId,     // the id the next created timer gets
    pen: Argb,              // the colour `vm_graphic_set_color` set last
    log: seq<Call>)
  {
    function Append(c: Call): (w: World) {
      this.(log := log + [c])
    }

    /**
     * `vm_malloc_dma(length)`. Whether the heap can satisfy the request is decided by the
     * environment and passed in as `grant`.
     */
    function MallocDma(length: nat, grant: bool): (r: (World, Option<Addr>)) {
      if grant then
        var w := this.(heap := heap[nextAddr := length], nextAddr := nextAddr + 1);
        (w.Append(DmaAlloc(length, Some(nextAddr))), Some(nextAddr))
      else
        (Append(DmaAlloc(length, None)), None)
    }

    /** `vm_free(addr)`. */
    function Free(addr: Addr): (w: World) {
      this.(heap := heap - {addr}).Append(DmaFree(addr))
    }

    /** `vm_timer_create_precise(periodMs, ...)`: arms a new repeating timer. */
    function CreateTimer(periodMs: nat): (r: (World, TimerId)) {
      var w := this.(timers := timers + {nextTimer}, nextTimer := nextTimer + 1);
      (w.Append(TimerCreated(periodMs, nextTimer)), nextTimer)
    }

    /** `vm_timer_delete_precise(id)`: disarms `id`; an id that is not armed stays unarmed. */
    function DeleteTimer(id: TimerId): (w: World) {
      this.(timers := timers - {id}).Append(TimerDeleted(id))
    }

    /** `vm_graphic_set_color(c)`. */
    function SetColor(c: Argb): (w: World) {
      this.(pen := c)
    }
  }

  /** Nothing allocated, no timer armed, nothing called yet. The library's initial colour is
      not known; every draw in this program sets the colour first. */
  const InitialWorld := World(map[], 0, {}, 1, Argb(0, 0, 0, 0), [])
}
