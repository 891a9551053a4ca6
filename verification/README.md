# LinkIt "spinning line" sample: frame-buffer lifecycle and event handling

This project models the core of `linkit_assist_xui/gui.c`, a LinkIt ONE sample. The sample
keeps two 240x240 16-bit off-screen frames. Frame 0 holds a background image. Frame 1 is cleared
to a blue colour key every 100 ms tick, and a 100-pixel horizontal line is drawn into it. The
two frames are then composited onto the display with `vm_graphic_blt_frame`. The platform
drives the program through `handle_system_event`:

- CREATE opens the resource store and allocates both frames.
- PAINT draws the first frame, arms the timer and runs one tick at once.
- QUIT frees the frames, deletes the timer and closes the resource store.

The project has four modules:

- `Platform` (`platform.dfy`) covers the services the sample calls into, which are not part of the
  model: the DMA heap, precise timers, the `vm_graphic` library and the resource store. The program
  sees them as a `World` value, made of the live DMA blocks with their lengths, the armed timers,
  the current drawing colour and a log of every drawing, allocation, timer and resource-store
  call. Some calls are folded rather than logged:
  - `vm_graphic_set_color` sets the current colour, which the next fill or line records.
  - `vm_res_get_image` is folded into the logged image draw.
  - The constant trailing `0` of `vm_graphic_draw_image_memory` and the `0` of `vm_res_init(0)`
    are dropped.

  Whether `vm_malloc_dma` finds memory is an input (`grant`). Pixels are not modelled: a fill, a
  line, an image decode and a blit are each one logged call.
- `GuiSpec` (`gui_spec.dfy`) holds one function per C function. Each takes the session state
  (`g_frame`, `g_frame_group`, `g_timer_id` and the `World`) and returns the state after the call.
  `Step` and `Run` feed a sequence of lifecycle events and timer firings to it, one at a time, the
  way the platform's dispatcher does.
- `Gui` (`gui_session.dfy`) is the same program in imperative form, as the class `Session`:
  - `g_frame` is an array of frame structs, updated field by field.
  - `g_frame_group` is an array of frame pointers (`Null` or `FrameAt(i)`).
  - `g_timer_id` is a field.

  Each method runs the C statements in order and is proved to leave exactly the state that the
  matching `GuiSpec` function computes.
- `Lifecycle` (`lifecycle.dfy`) proves properties of whole runs: invariants kept by every
  dispatch, the absence of leaks under an assumed event order, and concrete runs that leak when
  that order is broken. The order is one session at a time: CREATE only at start or after QUIT,
  and PAINT once per session. `handle_system_event` does not enforce it, and nothing in the
  source says the platform guarantees it. The leak-freedom results (`StepKeepsBalanced`,
  `DisciplinedRunKeepsBalanced`, `SessionReleasesEverything`, `NormalSessionReleasesEverything`)
  hold only under that assumption.

What the code does, where its own comments say otherwise or where it has no guard:

- The header comment (gui.c:17-20) says each tick rotates the line with
  `vm_graphic_linear_transform`. The code never calls it and computes no angle: every tick
  draws the same horizontal line.
- The comment "free" on the failure path of `allocate_drawing_resource` (gui.c:145) sits on a
  path that frees nothing. When the second allocation fails, the first block stays live until
  QUIT.
- An allocation failure does not stop PAINT. It still draws through the `NULL` group pointers
  and arms the timer.
- A second CREATE or a second PAINT is not rejected. It loses the earlier buffers or the
  earlier timer.
- Teardown frees the buffers first and deletes the timer last. Nothing can tick in between,
  because dispatch is single-threaded.

## Model

| member | source | states |
|---|---|---|
| GuiSpec.Initial | linkit_assist_xui/gui.c:48-52 | at program start no DMA block is live and no timer is armed |
| Gui.Session.constructor | linkit_assist_xui/gui.c:48-52 | the globals start zeroed: both frames empty, both group slots `NULL`, timer id 0 |
| GuiSpec.AllocateFrame | linkit_assist_xui/gui.c:108-124 | a `NULL` frame gives false and changes nothing; otherwise the frame gets 16-bit format, 240x240 and length width*height*2 = 115200 even if the allocation fails; the result is true exactly when the DMA allocation succeeds; on success the buffer is a new 115200-byte block, on failure it is `NULL` and the heap is unchanged; the other frame, the group and the timers are untouched |
| Gui.Session.AllocateFrame | linkit_assist_xui/gui.c:108-124 | writes the fields in place and leaves exactly the state and result of GuiSpec.AllocateFrame |
| GuiSpec.AllocateDrawingResource | linkit_assist_xui/gui.c:127-147 | true exactly when both allocations succeed; only then are the group slots set to frame 0 and frame 1, otherwise they are unchanged; frame 1 is not attempted after frame 0 fails; if frame 1 fails, frame 0 keeps its new block, which stays live, and only allocation calls are made, never a free; the exact blocks added to the heap |
| Gui.Session.AllocateDrawingResource | linkit_assist_xui/gui.c:127-147 | the early-exit block leaves exactly the state and result of GuiSpec.AllocateDrawingResource |
| GuiSpec.FreeFrame | linkit_assist_xui/gui.c:150-156 | afterwards the buffer is `NULL` and the length 0; format, width and height are kept; the block is freed (and logged) only if there was one; nothing else changes |
| Gui.Session.FreeFrame | linkit_assist_xui/gui.c:150-156 | leaves exactly the state of GuiSpec.FreeFrame |
| Lifecycle.FreeFrameIdempotent | linkit_assist_xui/gui.c:150-156 | freeing a frame twice is the same as freeing it once |
| GuiSpec.FreeDrawingResource | linkit_assist_xui/gui.c:159-165 | both frames end `NULL` with length 0 and keep their format and size; both group slots end `NULL`; `g_timer_id` is disarmed; exactly the blocks the frames held leave the heap; the calls made are frees followed by one timer deletion, last |
| Gui.Session.FreeDrawingResource | linkit_assist_xui/gui.c:159-165 | leaves exactly the state of GuiSpec.FreeDrawingResource |
| Lifecycle.FreeDrawingResourceTwice | linkit_assist_xui/gui.c:159-165 | a second release changes no frame, group slot, live block or armed timer and frees nothing |
| GuiSpec.TickCalls | linkit_assist_xui/gui.c:55-75 | a tick makes exactly three logged calls (the two colour settings are not logged), in order: fill all of frame 1 (0, 0, 240, 240) with the key colour a=255 r=0 g=0 b=255; the centre line in a=255 r=0 g=255 b=255; blit both group frames in order, at zero offsets, count 2 |
| GuiSpec.HorizontalLine | linkit_assist_xui/gui.c:70-71 | the line lies on row 120 from column 120 to 219: exactly LINE_LENGTH = 100 columns, inside the 240x240 frame |
| GuiSpec.TimerCallback | linkit_assist_xui/gui.c:55-75 | a tick changes no frame, group slot, timer or heap block; it appends exactly the tick's calls to the log and leaves the current colour at the line colour a=255 r=0 g=255 b=255 |
| Gui.Session.TimerCallback | linkit_assist_xui/gui.c:55-75 | leaves exactly the state of GuiSpec.TimerCallback |
| Lifecycle.TicksKeepResources | linkit_assist_xui/gui.c:55-75 | any number of timer firings leave frames, group, timer id, live blocks and armed timers as they were |
| GuiSpec.FirstFrameCalls | linkit_assist_xui/gui.c:78-101 | the first frame loads the background image into frame 0 at (0, 0), clears frame 1 like a tick, draws the same line in a=255 r=255 g=0 b=255, then creates a 100 ms timer |
| GuiSpec.DrawFirstFrame | linkit_assist_xui/gui.c:78-105 | frames, group and heap are untouched; a new timer is armed and stored in `g_timer_id`; the calls made are the first-frame calls followed by one full tick, which leaves the current colour at the tick's line colour |
| Gui.Session.DrawFirstFrame | linkit_assist_xui/gui.c:78-105 | leaves exactly the state of GuiSpec.DrawFirstFrame |
| Lifecycle.TimerArmedBeforeFirstBlit | linkit_assist_xui/gui.c:100-104 | the timer is created before any blit; the first tick's clear is the first frame's clear; the two lines differ only in colour |
| GuiSpec.HandleSystemEvent | linkit_assist_xui/gui.c:168-185 | CREATE logs the resource init, then publishes the group exactly when both allocations succeed; PAINT arms a timer and draws the first frame and one tick; QUIT releases both frames and the current timer, clears the group and ends with the resource release; any other message changes nothing |
| Gui.Session.HandleSystemEvent | linkit_assist_xui/gui.c:168-185 | leaves exactly the state of GuiSpec.HandleSystemEvent |
| Lifecycle.InitialConsistent | linkit_assist_xui/gui.c:48-52 | the zeroed start state satisfies the invariant `Consistent` |
| Lifecycle.AllocateDrawingResourceKeepsConsistent | linkit_assist_xui/gui.c:127-147 | allocation keeps `Consistent`: a held buffer is a live block of the frame's length, and that length is width*height*2 of a 16-bit frame; the two frames never share a block; each group slot is `NULL` or points at its own frame |
| Lifecycle.FreeDrawingResourceKeepsConsistent | linkit_assist_xui/gui.c:159-165 | release keeps `Consistent` |
| Lifecycle.DrawFirstFrameKeepsConsistent | linkit_assist_xui/gui.c:78-105 | drawing the first frame keeps `Consistent` |
| Lifecycle.HandleSystemEventKeepsConsistent | linkit_assist_xui/gui.c:168-185 | every lifecycle event keeps `Consistent` |
| Lifecycle.StepKeepsConsistent | linkit_assist_xui/gui.c:168-185 | every dispatch, event or timer firing, keeps `Consistent` |
| Lifecycle.RunKeepsConsistent | linkit_assist_xui/gui.c:168-185 | every state reachable by any sequence of events and firings is `Consistent` |
| Lifecycle.RunOnlyAppends | linkit_assist_xui/gui.c:168-185 | a sanity property of the `World` abstraction under any run of the program: the call log is only extended, and the next block address and next timer id never decrease, so none is handed out twice |
| Lifecycle.StepKeepsBalanced | linkit_assist_xui/gui.c:168-185 | assuming (not enforced by the source) that CREATE comes only when no frame holds a buffer and PAINT only when no timer is armed, a dispatch keeps the live blocks equal to the frames' buffers and the armed timers within `g_timer_id` |
| Lifecycle.DisciplinedRunKeepsBalanced | linkit_assist_xui/gui.c:168-185 | the same for whole runs in that assumed event order: nothing leaks |
| Lifecycle.QuitReleasesEverything | linkit_assist_xui/gui.c:179-183 | QUIT in a state that leaks nothing leaves no live block and no armed timer |
| Lifecycle.InitialBalanced | linkit_assist_xui/gui.c:48-52 | the start state leaks nothing and holds no buffer |
| Lifecycle.OpenSessionKeepsBalanced | linkit_assist_xui/gui.c:170-178 | CREATE then PAINT from a state holding nothing leaks nothing, whatever the allocations yield |
| Lifecycle.SessionReleasesEverything | linkit_assist_xui/gui.c:168-185 | CREATE (any allocation outcome), PAINT, any number of ticks and QUIT, from a state holding nothing, end with no live block, no armed timer and both group slots `NULL` |
| Lifecycle.NormalSessionReleasesEverything | linkit_assist_xui/gui.c:168-185 | the same from program start |
| Lifecycle.CreateAllocatesTwo | linkit_assist_xui/gui.c:170-174 | a fully granted CREATE adds two new 115200-byte blocks, held by the two frames, and points the group at them |
| Lifecycle.PaintArmsTimer | linkit_assist_xui/gui.c:175-178 | PAINT arms one new timer, stores it in `g_timer_id` and leaves frames, group and heap alone |
| Lifecycle.QuitFrees | linkit_assist_xui/gui.c:179-183 | QUIT removes exactly the held blocks and the timer in `g_timer_id`, and clears the group |
| Lifecycle.DoubleCreateLeaks | linkit_assist_xui/gui.c:170-174 | CREATE, CREATE, QUIT from start leaves the first two blocks (0 and 1) live: the second CREATE overwrites the buffer pointers |
| Lifecycle.DoublePaintOutlivesQuit | linkit_assist_xui/gui.c:100-101 | CREATE, PAINT, PAINT, QUIT leaves the first timer armed, and its next firing draws and blits through `NULL` group pointers |
| Lifecycle.FailedCreateStillAnimates | linkit_assist_xui/gui.c:134-146 | after CREATE with the second allocation failing, frame 0's block stays live and the group stays `NULL`; PAINT still arms the timer, and the tick draws through `NULL`; QUIT then reclaims the block |

## Left out

- Pixel effects of `vm_graphic_draw_solid_rectangle`, `vm_graphic_draw_line`,
  `vm_graphic_draw_image_memory` and `vm_graphic_blt_frame`. These are library code and are not
  part of this model: fills, lines, image decoding and key-colour compositing are logged calls
  with their arguments and the colour in effect.
- The resource store (`vm_res_init`, `vm_res_get_image`, `vm_res_release`). Init and release
  are logged calls. The image lookup is folded into the logged image draw, and its data and size
  are not modelled.
- Timer cadence. `vm_timer_create_precise` is modelled as arming a timer with a fresh id, and a
  firing as a dispatch that runs `timer_callback` while that id is armed. Real timing and the
  number of firings per interval are left to the platform's scheduler.
- Failure of `vm_timer_create_precise`. Its failure value is defined by the library, and the
  source neither checks it nor stores anything else.
- The `param` argument of `handle_system_event`, which the source ignores. The numeric values of
  the VM_EVENT_* codes come from a platform header that is not part of this model; messages are
  named instead.
- `free_frame` on a `NULL` pointer. The source dereferences it unchecked, and the program only
  passes `&g_frame[0]` and `&g_frame[1]`. `GuiSpec.FreeFrame` therefore requires a non-null pointer.
- `lcd_backlight_level` (PWM hardware I/O), `vm_main` (LCD bring-up, callback registration,
  the unrelated text-view init), and the unused `PI`, `FREQUENCY` and `<math.h>`.
- Integer widths. Every quantity here is a small constant (115200 bytes, 240, 100), so no
  32-bit wrap-around can occur, and none is modelled.
