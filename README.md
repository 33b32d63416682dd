# One-bit photo booth: capture session and layout arithmetic

A model in Dafny of the deterministic core of a photo-booth kiosk
(`one_bit_photo`): the event-driven capture session that arms a countdown and
takes four photos, the integer geometry that stacks images into rows on the
screen and on the print strip, and the centred square crop of a camera image.

Modules:

- `Wrappers`: `Option` (Python's `None` return) and `Result` (a raised exception).
- `ImageOperations` (one_bit_photo/image_operations.py): surfaces as row-major
  grids, `CropWindow` (the square `Rect` computed from the image size, with the
  float halving and `Rect`'s truncating conversion written out on reals) and
  `CropMiddleSquare` (the pixels under that window).
- `VerticalBlit` (one_bit_photo/main.py, `blit_images_vertical` and the print
  strip size in `main`): `Layout` is the list of rects the function blits,
  `BlitImagesVertical` is its loop, proved equal to `Layout`; a zero row count
  or a zero-height image is the `ZeroDivision` failure Python raises.
- `Capture` (one_bit_photo/main.py, `capture_loop` and `take_camera_shot`):
  the specification is a set of functions on a `State` value (`Handle` for one
  event, `HandleBatch` for one batch of `pygame.event.get()`, `Iteration` for
  one turn of the `while` loop with its live preview, `RunFrom` for the loop);
  the classes `Camera`, `Display` and `CaptureSession` run the same loop
  imperatively, and each of their methods is proved to leave exactly the state
  the specification describes.

The camera is an environment parameter: `feed(n)` is the n-th frame it
delivers, and every call of `capture_camera_image` (a shot or the live
preview frame) takes the next one. The event queue is a finite sequence of
batches. Every outcome of the loop carries the state it leaves: `Aborted` on
QUIT (Python returns `None`), `Crashed` when the preview raises
ZeroDivisionError on a frame of zero height (the exception escapes
`capture_loop`), `Finished` at exactly four shots, and `Waiting` when the
finite event sequence runs out before any of these. Display and
timer side effects (arming the countdown, the white and red flashes, the
preview montage) are recorded as a trace of `Effect`s.

The model follows the code where the system's documented design describes other behaviour:

- `capturing` is never reset and `countdown_beeps` keeps counting across
  shots: after a countdown has fired, the next shot comes four ticks later
  without a new trigger, rather than the countdown returning to idle.
- The loop ends only when the shot count is exactly 4, tested once per batch.
  A batch that takes two shots at three (two RETURN presses, or RETURN and the
  fourth tick) leaves five shots; the loop then never ends normally and the
  live frame's preview row falls below the screen (`OvershootNeverFinishes`,
  `DoubleReturnOvershoots`, `PreviewRows`). The shot count can therefore
  exceed the target.
- `crop_middle_square` does not reject an empty image: a zero width or height
  gives an empty square window.

## Model

| member | source | states |
|---|---|---|
| `ImageOperations.ClampedHalf` | one_bit_photo/image_operations.py:36-37 | `max((a - b) / 2, 0)` converted by `Rect` is `(a - b) // 2` when `a > b` and 0 otherwise |
| `ImageOperations.CropWindow` | one_bit_photo/image_operations.py:36-39 | the window is a square of side min(w, h) inside the image; at most one of left/top is nonzero; a square image gives the whole image; right margin minus left margin, and bottom minus top, is 0 or 1 (top-left bias) |
| `ImageOperations.CropMiddleSquare` | one_bit_photo/image_operations.py:35-40 | the crop is a well-formed square of side min(w, h) and its pixel (r, c) is the source pixel (r + top, c + left) |
| `ImageOperations.CropOfSquareIsWhole` | one_bit_photo/image_operations.py:36-39 | a square image is returned unchanged |
| `ImageOperations.CropIdempotent` | one_bit_photo/image_operations.py:35-40 | cropping a crop changes nothing |
| `VerticalBlit.Layout` | one_bit_photo/main.py:128-138 | definition of the rects blitted, `ZeroDivision` for a zero row count or height; constrained by `LayoutSucceeds`, `RowGeometry`, `RowsDisjoint`, `RowsFit`, and `BlitImagesVertical` is proved equal to it |
| `VerticalBlit.Row` | one_bit_photo/main.py:134-138 | definition of one scaled, top-aligned, centred rect; constrained by `RowGeometry` |
| `VerticalBlit.CenteredLeft` | one_bit_photo/main.py:137-138 | definition of the left edge `centerx` gives; constrained by `RowGeometry` (margins differ by at most one) |
| `VerticalBlit.BlitImagesVertical` | one_bit_photo/main.py:122-140 | the loop blits exactly the rects of `Layout`, or fails with ZeroDivision exactly when `Layout` does |
| `VerticalBlit.LayoutSucceeds` | one_bit_photo/main.py:128-133 | the layout succeeds iff the row count (`total_images_count`, else the image count) is nonzero and every image has a nonzero height, and then has one rect per image |
| `VerticalBlit.RowGeometry` | one_bit_photo/main.py:131-138 | row i starts at i row heights, is one row height tall, its width is the aspect-preserving width rounded down, and its left and right margins differ by at most one (nonnegative when it fits) |
| `VerticalBlit.RowsDisjoint` | one_bit_photo/main.py:131-136 | a row ends at or above the top of every later row |
| `VerticalBlit.RowsFit` | one_bit_photo/main.py:128-136 | with no more images than rows, every row lies within the destination height |
| `VerticalBlit.PrintStripSize` | one_bit_photo/main.py:69-71 | definition of the 696 × 696·n strip; constrained by `PrintStripRows`, `FinishedSessionPrintStrip` |
| `VerticalBlit.PrintStrip` | one_bit_photo/main.py:69-72 | definition of the rects blitted onto the strip; constrained by `PrintStripRows`, `FinishedSessionPrintStrip` |
| `VerticalBlit.PrintStripRows` | one_bit_photo/main.py:69-72 | on the 696 × 696·n strip each row is 696 tall at 696·i, the last ends at the strip's bottom, and a square image fills its row as `Placement(0, 696·i, 696, 696)` |
| `Capture.Shoot` | one_bit_photo/main.py:143-148 | definition of `take_camera_shot` on the state; constrained by `ReturnShoots`, `TimerTick`, `CountdownShootsEveryFourthTick`, and `TakeCameraShot` is proved equal to it |
| `Capture.Arm` | one_bit_photo/main.py:95-99 | definition of arming the countdown; constrained by `ArmingEvents` |
| `Capture.Handle` | one_bit_photo/main.py:90-109 | only QUIT returns `None`; any other event keeps `capturing` set, beeps and camera reads non-decreasing, earlier shots and effects unchanged, and adds at most one shot |
| `Capture.HandleBatch` | one_bit_photo/main.py:90-109 | a batch returns `None` iff it contains QUIT; otherwise its state extends the starting state |
| `Capture.TimerTick` | one_bit_photo/main.py:102-109 | an unarmed tick changes nothing; an armed tick adds one beep, appends the camera's next frame iff the new count is a multiple of 4, and otherwise only counts the beep and flashes red, reading no frame |
| `Capture.ReturnShoots` | one_bit_photo/main.py:100-101 | RETURN appends exactly the camera's next frame and leaves `capturing` and the beep count unchanged |
| `Capture.ArmingEvents` | one_bit_photo/main.py:94-99 | MOUSEBUTTONUP always arms; SPACE arms only when unarmed and otherwise does nothing; arming sets `capturing` and touches neither shots nor beeps |
| `Capture.HandleBatchSnoc` | one_bit_photo/main.py:90 | events of a batch are handled left to right: a batch plus one event is the batch, then the event |
| `Capture.CountdownShootsEveryFourthTick` | one_bit_photo/main.py:102-105 | k armed ticks add k beeps and exactly one shot per multiple of 4 crossed: (b + k) / 4 - b / 4 |
| `Capture.IdleTicksIgnored` | one_bit_photo/main.py:102 | any number of ticks while unarmed leave the state unchanged |
| `Capture.MontageLayout` | one_bit_photo/main.py:112-114 | definition of the preview rows (shots plus the live frame, 4 rows on the screen); constrained by `IterationRaises`, `PreviewRows` |
| `Capture.Preview` | one_bit_photo/main.py:111-114 | definition of drawing the preview; constrained by `PreviewRows`, and `ShowPreview` is proved equal to it |
| `Capture.Iteration` | one_bit_photo/main.py:88-114 | definition of one turn of the loop; constrained by `QuitAborts`, `IterationExtends`, `IterationRaises`, `CameraWithHeightNeverRaises`, `DoubleReturnOvershoots` |
| `Capture.RunFrom` | one_bit_photo/main.py:88-115 | definition of the loop over event batches; constrained by `RunExtends`, `FinishedWithTarget`, `ReachingTargetFinishes`, `QuitAborts`, `OvershootNeverFinishes`, `FinishedShotsHaveHeight`, and `RunLoop` is proved equal to it |
| `Capture.QuitAborts` | one_bit_photo/main.py:90-93 | a QUIT in the batch being handled ends the session as `Aborted`, with the state left by the events before the first QUIT |
| `Capture.IterationExtends` | one_bit_photo/main.py:88-114 | every turn of the loop, however it ends, leaves a state that extends the one it started from |
| `Capture.RunExtends` | one_bit_photo/main.py:86-115 | however the run ends, `capturing` was never cleared, beeps and camera reads never decreased, and shots and effects were only appended |
| `Capture.FinishedWithTarget` | one_bit_photo/main.py:88-115 | the loop returns shots only when there are exactly `PHOTOS_TO_TAKE` (4) of them |
| `Capture.ReachingTargetFinishes` | one_bit_photo/main.py:88-115 | a turn that brings the count to exactly 4 and whose preview does not raise ends the loop with that turn's state |
| `Capture.IterationRaises` | one_bit_photo/main.py:111-114 | without QUIT, a turn raises exactly when a shot or the live frame has zero height |
| `Capture.BatchKeepsHeights` | one_bit_photo/main.py:100-105 | shots come from the camera: if its frames all have a height, so do all shots after a batch |
| `Capture.CameraWithHeightNeverRaises` | one_bit_photo/main.py:111-114 | with such a camera and such shots the preview never raises |
| `Capture.OneClickTakesFourPhotos` | one_bit_photo/main.py:94-105 | with a camera whose frames have a height, a click followed by sixteen ticks in one batch ends the session normally with four shots |
| `Capture.OvershootNeverFinishes` | one_bit_photo/main.py:88 | with more than 4 shots no sequence of later batches ends the loop normally |
| `Capture.DoubleReturnOvershoots` | one_bit_photo/main.py:88-101 | two RETURN presses in one batch at three shots leave five shots and the loop never ends normally |
| `Capture.PreviewRows` | one_bit_photo/main.py:111-114 | the preview lays shots plus the live frame out in 400-pixel rows at 400·i; the live frame's row is on screen iff fewer than 4 shots were taken, and then all rows are |
| `Capture.FinishedShotsHaveHeight` | one_bit_photo/main.py:88-115 | a zero-height shot makes its own batch's preview raise, so a run from shots with a height that ends normally has only shots with a height, whatever the camera delivers |
| `Capture.FinishedSessionPrintStrip` | one_bit_photo/main.py:69-72 | the shots of any finished session started with shots of nonzero height (a fresh session has none) give a 696 × 2784 strip of four 696-pixel rows, whatever the camera delivers |
| `Capture.Camera.CaptureImage` | one_bit_photo/main.py:112 | each capture returns the camera's next frame and advances its count |
| `Capture.CaptureSession.constructor` | one_bit_photo/main.py:85-87 | the session starts with no shots, not capturing, zero beeps |
| `Capture.CaptureSession.TakeCameraShot` | one_bit_photo/main.py:143-148 | a white flash, then the camera's next frame appended |
| `Capture.CaptureSession.HandleEvent` | one_bit_photo/main.py:91-109 | the new state is `Handle` of the old one; QUIT changes nothing and reports quitting |
| `Capture.CaptureSession.HandleEvents` | one_bit_photo/main.py:90-109 | reports QUIT iff the batch has one; the state is `HandleBatch` of the whole batch, or of the events before the first QUIT |
| `Capture.CaptureSession.ShowPreview` | one_bit_photo/main.py:111-114 | reads one live frame, draws the montage of `Preview`, and reports raising exactly when its layout fails |
| `Capture.CaptureSession.RunLoop` | one_bit_photo/main.py:88-115 | the loop's outcome is `RunFrom` of the starting state, and the object is left in the outcome's state |
| `Capture.CaptureLoop` | one_bit_photo/main.py:84-115 | `capture_loop` from fresh variables has outcome `RunFrom(Start(..))`; the camera's read count and the display's trace afterwards are the outcome's |

## Left out

- `ease_in_out_cubic` and `printing_animation_loop`: floating-point easing driven by the wall clock.
- `convert_to_1bit`, `enhance_for_print`, `surface_to_image`, `image_to_surface`: library conversions (PIL's Floyd–Steinberg dithering and enhancement); the preview's `dither_surface` is taken to keep each frame's size, so the model lays out the undithered frames.
- `capture_camera_image` is not part of this model: frames come from the camera parameter `feed`, which may deliver frames of any size. `PreviewRows` and `OneClickTakesFourPhotos` state their facts for frames of nonzero height; a zero-height frame ends the loop as `Crashed`.
- `Capture.Iteration`: when the preview raises, the model records the whole montage as a failed layout; Python has already filled the screen and blitted the rows before the zero-height frame, which the trace does not show.
- `VerticalBlit.BlitImagesVertical`: pixel scaling (`smoothscale`) and the blit itself are not modelled, only the rects; on a zero-height image Python has already blitted the earlier images before raising, which the `Failure` result does not record.
- `ImageOperations.CropMiddleSquare`: the result is a copy of the pixels, not a view sharing them with the camera image (nothing writes through it in this code).
- Rect coordinates are C ints in pygame; the model uses unbounded integers (all values here are far below 2^31).
- The pygame timer's real-time period, the 100 ms waits and `display.flip` are recorded only as `Effect` entries; re-arming the timer with MOUSEBUTTONUP restarts its period, which the trace shows as a second `ArmCountdown`.
- `main`'s endless outer loop, camera start/stop, and the printer (`one_bit_photo/printer.py`, raster conversion and USB transport). `main` also passes `None` on to the animation after a QUIT; that path is not modelled.
- Camera discovery (`_find_camera_name`, `find_camera`): device enumeration, iterated in set order.
