/**
 * The capture session of `capture_loop` and `take_camera_shot`
 * (one_bit_photo/main.py): pointer and keyboard events arm a countdown, every
 * fourth countdown tick (and every RETURN key) takes a photo, and the session
 * ends once exactly `PHOTOS_TO_TAKE` photos have been taken.
 *
 * The specification is a set of functions on `State`; the classes below run
 * the same loop imperatively and are proved equal to them.
 */
module Capture {
  import opened Wrappers
  import opened ImageOperations
  import opened VerticalBlit

  const PHOTOS_TO_TAKE: nat := 4
  const SCREEN_WIDTH: nat := 600
  const SCREEN_HEIGHT: nat := 1600
  /** Period of the countdown timer, in milliseconds. */
  const COUNTDOWN_PERIOD_MS: nat := 1000

  const WHITE := Rgb(255, 255, 255)
  const RED := Rgb(200, 0, 0)

  /** A camera image, as `capture_camera_image` returns it. */
  type Frame = Surface<Rgb>

  /** The events `capture_loop` tells apart. */
  datatype Event =
    | Quit        // pygame.QUIT
    | MouseUp     // pygame.MOUSEBUTTONUP
    | KeySpace    // KEYDOWN with K_SPACE
    | KeyReturn   // KEYDOWN with K_RETURN
    | KeyOther    // KEYDOWN with any other key
    | Timer       // the countdown timer's custom event
    | Other       // any other event type

  /** What the loop does to the world outside its own variables. */
  datatype Effect =
    | ArmCountdown(periodMs: nat)                        // set_timer on the countdown event
    | Flash(color: Rgb)                                  // fill, flip and a 100 ms wait
    | Montage(rows: Result<seq<Placement>, LayoutError>) // the live preview, drawn by blit_images_vertical

  /**
   * The loop's variables (`captured_images`, `capturing`, `countdown_beeps`),
   * how many frames the camera has delivered, and the effects so far.
   */
  datatype State = State(shots: seq<Frame>, capturing: bool, beeps: nat, delivered: nat, shown: seq<Effect>)

  /** The state `capture_loop` starts from. */
  function Start(delivered: nat, shown: seq<Effect>): State
  {
    State([], false, 0, delivered, shown)
  }

  /** `t` is a later state than `s`: nothing recorded in `s` has been undone. */
  predicate Extends(s: State, t: State)
  {
    && (s.capturing ==> t.capturing)
    && s.beeps <= t.beeps
    && s.delivered <= t.delivered
    && s.shots <= t.shots
    && s.shown <= t.shown
  }

  lemma ExtendsTransitive(s: State, t: State, u: State)
    requires Extends(s, t) && Extends(t, u)
    ensures Extends(s, u)
  {
  }

  /** `take_camera_shot`: a white flash, then the camera's next frame is appended. */
  function Shoot(s: State, camera: nat -> Frame): State
  {
    s.(shots := s.shots + [camera(s.delivered)], delivered := s.delivered + 1, shown := s.shown + [Flash(WHITE)])
  }

  /** Starting the countdown timer and setting `capturing`. */
  function Arm(s: State): State
  {
    s.(capturing := true, shown := s.shown + [ArmCountdown(COUNTDOWN_PERIOD_MS)])
  }

  /**
   * One event of the `match` in `capture_loop`; `None` is the `return` on QUIT.
   * Every other event leaves a later state with at most one more shot.
   */
  function Handle(s: State, e: Event, camera: nat -> Frame): (r: Option<State>)
    ensures r.None? <==> e == Quit
    ensures r.Some? ==> Extends(s, r.value) && |r.value.shots| <= |s.shots| + 1
  {
    match e
    case Quit => None
    case MouseUp => Some(Arm(s))
    case KeySpace => if !s.capturing then Some(Arm(s)) else Some(s)
    case KeyReturn => Some(Shoot(s, camera))
    case Timer =>
      if !s.capturing then Some(s)
      else
        var ticked := s.(beeps := s.beeps + 1);
        if ticked.beeps % 4 == 0 then Some(Shoot(ticked, camera))
        else Some(ticked.(shown := ticked.shown + [Flash(RED)]))
    case KeyOther => Some(s)
    case Other => Some(s)
  }

  /** The inner `for` loop over one batch of events from `pygame.event.get()`. */
  function HandleBatch(s: State, batch: seq<Event>, camera: nat -> Frame): (r: Option<State>)
    ensures r.None? <==> Quit in batch
    ensures r.Some? ==> Extends(s, r.value)
    decreases |batch|
  {
    if batch == [] then Some(s)
    else match Handle(s, batch[0], camera)
      case None => None
      case Some(t) =>
        var r := HandleBatch(t, batch[1..], camera);
        assert batch == [batch[0]] + batch[1..];
        if r.Some? then ExtendsTransitive(s, t, r.value); r else r
  }

  /** The sizes of a list of frames, as `blit_images_vertical` reads them. */
  function Sizes(frames: seq<Frame>): seq<Size>
  {
    seq(|frames|, i requires 0 <= i < |frames| => Size(frames[i].width, frames[i].height))
  }

  /** Sizes are taken frame by frame. */
  lemma SizesAppend(a: seq<Frame>, b: seq<Frame>)
    ensures Sizes(a + b) == Sizes(a) + Sizes(b)
  {
  }

  /** Appending a frame with a height to frames that all have one keeps them all with one. */
  lemma AppendKeepsHeights(frames: seq<Frame>, f: Frame)
    requires AllHaveHeight(Sizes(frames)) && f.height > 0
    ensures AllHaveHeight(Sizes(frames + [f]))
  {
    SizesAppend(frames, [f]);
  }

  /**
   * The rows of the live preview drawn after each batch: the shots taken so
   * far and one more camera frame below them, in `PHOTOS_TO_TAKE` rows of
   * the screen.
   */
  function MontageLayout(s: State, camera: nat -> Frame): Result<seq<Placement>, LayoutError>
  {
    Layout(SCREEN_WIDTH, SCREEN_HEIGHT, Sizes(s.shots + [camera(s.delivered)]), Some(PHOTOS_TO_TAKE))
  }

  /** Drawing the live preview: one more camera frame read, one montage shown. */
  function Preview(s: State, camera: nat -> Frame): State
  {
    s.(delivered := s.delivered + 1, shown := s.shown + [Montage(MontageLayout(s, camera))])
  }

  /**
   * How one turn of the `while` loop ends: `return` on QUIT, an exception
   * raised by the preview, or on to the loop test.
   */
  datatype Turn = Quitted(state: State) | Raised(state: State) | Continued(state: State)

  /**
   * One iteration of the `while` loop: a batch of events, then the preview.
   * On QUIT the state is what the events before it made; a layout failure in
   * the preview is the ZeroDivisionError that escapes `capture_loop`.
   */
  function Iteration(s: State, batch: seq<Event>, camera: nat -> Frame): Turn
  {
    if Quit in batch then Quitted(HandleBatch(s, batch[..FirstQuit(batch)], camera).value)
    else
      var t := HandleBatch(s, batch, camera).value;
      if MontageLayout(t, camera).Failure? then Raised(Preview(t, camera))
      else Continued(Preview(t, camera))
  }

  /**
   * How the loop ends, with the state it leaves: QUIT (`return None`), an
   * exception, the target count (`return captured_images`), or, in a finite
   * model of the event queue, the events ran out.
   */
  datatype Session = Aborted(state: State) | Crashed(state: State) | Finished(state: State) | Waiting(state: State)

  /** `while len(captured_images) != PHOTOS_TO_TAKE`, over the batches the event queue delivers. */
  function RunFrom(s: State, batches: seq<seq<Event>>, camera: nat -> Frame): Session
    decreases |batches|
  {
    if |s.shots| == PHOTOS_TO_TAKE then Finished(s)
    else if batches == [] then Waiting(s)
    else match Iteration(s, batches[0], camera)
      case Quitted(t) => Aborted(t)
      case Raised(t) => Crashed(t)
      case Continued(t) => RunFrom(t, batches[1..], camera)
  }

  // ---------------------------------------------------------------------
  // Single events

  /**
   * A countdown tick does nothing unless `capturing`; then it counts one beep
   * and takes a shot exactly when the new count is a multiple of 4, and
   * flashes red otherwise.
   */
  lemma TimerTick(s: State, camera: nat -> Frame)
    ensures !s.capturing ==> Handle(s, Timer, camera) == Some(s)
    ensures s.capturing ==>
              var t := Handle(s, Timer, camera).value;
              && t.capturing
              && t.beeps == s.beeps + 1
              && (t.shots == s.shots + [camera(s.delivered)] <==> t.beeps % 4 == 0)
              && (t.beeps % 4 != 0 ==> t == s.(beeps := s.beeps + 1, shown := s.shown + [Flash(RED)]))
  {
  }

  /** RETURN takes exactly one shot whatever the countdown state, which it leaves alone. */
  lemma ReturnShoots(s: State, camera: nat -> Frame)
    ensures Handle(s, KeyReturn, camera).Some?
    ensures Handle(s, KeyReturn, camera).value.shots == s.shots + [camera(s.delivered)]
    ensures Handle(s, KeyReturn, camera).value.capturing == s.capturing
    ensures Handle(s, KeyReturn, camera).value.beeps == s.beeps
  {
  }

  /**
   * A mouse button release always arms the countdown; SPACE arms it only when
   * it is not armed yet. Neither takes a shot or touches the beep count.
   */
  lemma ArmingEvents(s: State, camera: nat -> Frame)
    ensures Handle(s, MouseUp, camera) == Some(Arm(s))
    ensures Handle(s, KeySpace, camera) == if s.capturing then Some(s) else Some(Arm(s))
    ensures Arm(s).capturing && Arm(s).shots == s.shots && Arm(s).beeps == s.beeps
  {
  }

  // ---------------------------------------------------------------------
  // Batches

  /** Handling `batch + [e]` is handling `batch`, then `e`. */
  lemma {:induction false} HandleBatchSnoc(s: State, batch: seq<Event>, e: Event, camera: nat -> Frame)
    ensures HandleBatch(s, batch + [e], camera) ==
              match HandleBatch(s, batch, camera)
              case None => None
              case Some(t) => Handle(t, e, camera)
    decreases |batch|
  {
    if batch == [] {
      assert [e][1..] == [];
    } else {
      assert (batch + [e])[1..] == batch[1..] + [e];
      match Handle(s, batch[0], camera)
      case None =>
      case Some(t) => HandleBatchSnoc(t, batch[1..], e, camera);
    }
  }

  /** `k` countdown ticks in a row. */
  function Ticks(k: nat): seq<Event>
  {
    seq(k, _ => Timer)
  }

  /**
   * While the countdown runs, `k` ticks count `k` beeps and take one shot per
   * multiple of 4 passed: the shutter fires on ticks 4, 8, 12, … only.
   */
  lemma {:induction false} CountdownShootsEveryFourthTick(s: State, k: nat, camera: nat -> Frame)
    requires s.capturing
    ensures HandleBatch(s, Ticks(k), camera).Some?
    ensures HandleBatch(s, Ticks(k), camera).value.capturing
    ensures HandleBatch(s, Ticks(k), camera).value.beeps == s.beeps + k
    ensures |HandleBatch(s, Ticks(k), camera).value.shots| == |s.shots| + (s.beeps + k) / 4 - s.beeps / 4
    decreases k
  {
    if k > 0 {
      assert Ticks(k) == [Timer] + Ticks(k - 1);
      var t := Handle(s, Timer, camera).value;
      CountdownShootsEveryFourthTick(t, k - 1, camera);
    }
  }

  /** Ticks that arrive while the countdown is not armed change nothing. */
  lemma {:induction false} IdleTicksIgnored(s: State, k: nat, camera: nat -> Frame)
    requires !s.capturing
    ensures HandleBatch(s, Ticks(k), camera) == Some(s)
  {
    if k > 0 {
      assert Ticks(k) == [Timer] + Ticks(k - 1);
      IdleTicksIgnored(s, k - 1, camera);
    }
  }

  /** The index of the first QUIT in a batch. */
  function FirstQuit(batch: seq<Event>): (k: nat)
    requires Quit in batch
    ensures k < |batch| && batch[k] == Quit && Quit !in batch[..k]
  {
    if batch[0] == Quit then 0
    else
      assert Quit in batch[1..];
      var k := 1 + FirstQuit(batch[1..]);
      assert batch[..k] == [batch[0]] + batch[1..][..k - 1];
      k
  }

  // ---------------------------------------------------------------------
  // The session

  /**
   * A QUIT anywhere in the batch being handled ends the session as `Aborted`,
   * with the state the events before the first QUIT left.
   */
  lemma QuitAborts(s: State, batches: seq<seq<Event>>, camera: nat -> Frame)
    requires |s.shots| != PHOTOS_TO_TAKE
    requires batches != [] && Quit in batches[0]
    ensures RunFrom(s, batches, camera)
            == Aborted(HandleBatch(s, batches[0][..FirstQuit(batches[0])], camera).value)
  {
  }

  /** Each turn of the loop leaves a later state. */
  lemma IterationExtends(s: State, batch: seq<Event>, camera: nat -> Frame)
    ensures Extends(s, Iteration(s, batch, camera).state)
  {
  }

  /**
   * However the run ends, `capturing` was never cleared, beeps and camera
   * reads never decreased, and shots and effects were only appended.
   */
  lemma {:induction false} RunExtends(s: State, batches: seq<seq<Event>>, camera: nat -> Frame)
    ensures Extends(s, RunFrom(s, batches, camera).state)
    decreases |batches|
  {
    if |s.shots| != PHOTOS_TO_TAKE && batches != [] {
      var t := Iteration(s, batches[0], camera).state;
      IterationExtends(s, batches[0], camera);
      if Iteration(s, batches[0], camera).Continued? {
        RunExtends(t, batches[1..], camera);
        ExtendsTransitive(s, t, RunFrom(t, batches[1..], camera).state);
      }
    }
  }

  /** The loop returns its shots only when there are exactly `PHOTOS_TO_TAKE` of them. */
  lemma {:induction false} FinishedWithTarget(s: State, batches: seq<seq<Event>>, camera: nat -> Frame)
    ensures RunFrom(s, batches, camera).Finished? ==> |RunFrom(s, batches, camera).state.shots| == PHOTOS_TO_TAKE
    decreases |batches|
  {
    if |s.shots| != PHOTOS_TO_TAKE && batches != [] && Iteration(s, batches[0], camera).Continued? {
      FinishedWithTarget(Iteration(s, batches[0], camera).state, batches[1..], camera);
    }
  }

  /** A turn whose batch reaches the target count and whose preview succeeds ends the loop. */
  lemma ReachingTargetFinishes(s: State, batch: seq<Event>, rest: seq<seq<Event>>, camera: nat -> Frame)
    requires |s.shots| != PHOTOS_TO_TAKE
    requires Iteration(s, batch, camera).Continued?
    requires |Iteration(s, batch, camera).state.shots| == PHOTOS_TO_TAKE
    ensures RunFrom(s, [batch] + rest, camera) == Finished(Iteration(s, batch, camera).state)
  {
    assert ([batch] + rest)[1..] == rest;
  }

  /** The preview raises exactly when one of the frames it lays out has no height. */
  lemma IterationRaises(s: State, batch: seq<Event>, camera: nat -> Frame)
    requires Quit !in batch
    ensures var t := HandleBatch(s, batch, camera).value;
            Iteration(s, batch, camera).Raised? <==> !AllHaveHeight(Sizes(t.shots + [camera(t.delivered)]))
  {
  }

  /** Every frame the camera delivers has a nonzero height. */
  ghost predicate CameraHasHeight(camera: nat -> Frame)
  {
    forall k :: camera(k).height > 0
  }

  /** Shots come from the camera, so a camera whose frames have height adds only such shots. */
  lemma {:induction false} BatchKeepsHeights(s: State, batch: seq<Event>, camera: nat -> Frame)
    requires CameraHasHeight(camera) && AllHaveHeight(Sizes(s.shots))
    ensures HandleBatch(s, batch, camera).Some? ==> AllHaveHeight(Sizes(HandleBatch(s, batch, camera).value.shots))
    decreases |batch|
  {
    if batch != [] && Handle(s, batch[0], camera).Some? {
      var t := Handle(s, batch[0], camera).value;
      if t.shots != s.shots {
        AppendKeepsHeights(s.shots, camera(s.delivered));
      }
      BatchKeepsHeights(t, batch[1..], camera);
    }
  }

  /** With such a camera the preview never raises. */
  lemma CameraWithHeightNeverRaises(s: State, batch: seq<Event>, camera: nat -> Frame)
    requires CameraHasHeight(camera) && AllHaveHeight(Sizes(s.shots))
    ensures !Iteration(s, batch, camera).Raised?
  {
    BatchKeepsHeights(s, batch, camera);
    if Quit !in batch {
      var t := HandleBatch(s, batch, camera).value;
      AppendKeepsHeights(t.shots, camera(t.delivered));
    }
  }

  /**
   * One click followed by sixteen countdown ticks, all in one batch, takes
   * four photos and ends the session normally, when the camera's frames have
   * a height.
   */
  lemma OneClickTakesFourPhotos(delivered: nat, shown: seq<Effect>, rest: seq<seq<Event>>, camera: nat -> Frame)
    requires CameraHasHeight(camera)
    ensures RunFrom(Start(delivered, shown), [[MouseUp] + Ticks(16)] + rest, camera).Finished?
    ensures |RunFrom(Start(delivered, shown), [[MouseUp] + Ticks(16)] + rest, camera).state.shots| == PHOTOS_TO_TAKE
  {
    var s := Start(delivered, shown);
    var batch := [MouseUp] + Ticks(16);
    assert batch[0] == MouseUp && batch[1..] == Ticks(16);
    CountdownShootsEveryFourthTick(Arm(s), 16, camera);
    CameraWithHeightNeverRaises(s, batch, camera);
    ReachingTargetFinishes(s, batch, rest, camera);
  }

  /**
   * The loop test `!=` runs only between batches: once a batch has gone past
   * the target count, no later batch can bring the loop to a normal end.
   */
  lemma {:induction false} OvershootNeverFinishes(s: State, batches: seq<seq<Event>>, camera: nat -> Frame)
    requires |s.shots| > PHOTOS_TO_TAKE
    ensures !RunFrom(s, batches, camera).Finished?
    decreases |batches|
  {
    if batches != [] && Iteration(s, batches[0], camera).Continued? {
      IterationExtends(s, batches[0], camera);
      OvershootNeverFinishes(Iteration(s, batches[0], camera).state, batches[1..], camera);
    }
  }

  /** Two RETURN presses in one batch at three shots take the session to five, past the target. */
  lemma DoubleReturnOvershoots(s: State, rest: seq<seq<Event>>, camera: nat -> Frame)
    requires |s.shots| == PHOTOS_TO_TAKE - 1
    ensures |Iteration(s, [KeyReturn, KeyReturn], camera).state.shots| == PHOTOS_TO_TAKE + 1
    ensures !RunFrom(s, [[KeyReturn, KeyReturn]] + rest, camera).Finished?
  {
    var batch := [KeyReturn, KeyReturn];
    assert batch[1..] == [KeyReturn];
    var t := Iteration(s, batch, camera).state;
    OvershootNeverFinishes(t, rest, camera);
    assert ([batch] + rest)[1..] == rest;
  }

  // ---------------------------------------------------------------------
  // The live preview and the print strip

  /**
   * The preview lays the shots and the live frame out in rows of
   * SCREEN_HEIGHT / PHOTOS_TO_TAKE pixels, the live frame last; its row is on
   * screen exactly when fewer than `PHOTOS_TO_TAKE` shots have been taken,
   * and then every row is.
   */
  lemma PreviewRows(s: State, camera: nat -> Frame)
    requires AllHaveHeight(Sizes(s.shots)) && camera(s.delivered).height > 0
    ensures var t := Preview(s, camera);
            && t.shown[..|s.shown|] == s.shown && |t.shown| == |s.shown| + 1
            && t.shown[|s.shown|].Montage?
            && var rows := t.shown[|s.shown|].rows;
            && rows.Success?
            && |rows.value| == |s.shots| + 1
            && (forall i :: 0 <= i < |rows.value| ==>
                  rows.value[i].top == i * (SCREEN_HEIGHT / PHOTOS_TO_TAKE) &&
                  rows.value[i].height == SCREEN_HEIGHT / PHOTOS_TO_TAKE)
            && (rows.value[|s.shots|].top + rows.value[|s.shots|].height <= SCREEN_HEIGHT
                <==> |s.shots| < PHOTOS_TO_TAKE)
            && (|s.shots| < PHOTOS_TO_TAKE ==>
                  forall i :: 0 <= i < |rows.value| ==> rows.value[i].top + rows.value[i].height <= SCREEN_HEIGHT)
  {
    AppendKeepsHeights(s.shots, camera(s.delivered));
  }

  /**
   * A shot of zero height makes the preview of its own batch raise, so a run
   * that ends normally has only shots with a height, whatever the camera
   * delivers.
   */
  lemma {:induction false} FinishedShotsHaveHeight(s: State, batches: seq<seq<Event>>, camera: nat -> Frame)
    requires AllHaveHeight(Sizes(s.shots))
    ensures RunFrom(s, batches, camera).Finished? ==> AllHaveHeight(Sizes(RunFrom(s, batches, camera).state.shots))
    decreases |batches|
  {
    if |s.shots| != PHOTOS_TO_TAKE && batches != [] && Iteration(s, batches[0], camera).Continued? {
      var u := HandleBatch(s, batches[0], camera).value;
      LayoutSucceeds(SCREEN_WIDTH, SCREEN_HEIGHT, Sizes(u.shots + [camera(u.delivered)]), Some(PHOTOS_TO_TAKE));
      SizesAppend(u.shots, [camera(u.delivered)]);
      var t := Iteration(s, batches[0], camera).state;
      assert forall i :: 0 <= i < |Sizes(t.shots)| ==> Sizes(t.shots)[i] == Sizes(u.shots + [camera(u.delivered)])[i];
      FinishedShotsHaveHeight(t, batches[1..], camera);
    }
  }

  /**
   * The shots of a finished session make a print strip of 696 × 2784 pixels
   * whose four rows are each 696 pixels tall.
   */
  lemma FinishedSessionPrintStrip(s: State, batches: seq<seq<Event>>, camera: nat -> Frame)
    requires RunFrom(s, batches, camera).Finished?
    requires AllHaveHeight(Sizes(s.shots))
    ensures PrintStripSize(|RunFrom(s, batches, camera).state.shots|) == Size(PRINT_WIDTH_PX, 2784)
    ensures var rows := PrintStrip(Sizes(RunFrom(s, batches, camera).state.shots));
            rows.Success? && |rows.value| == 4 &&
            forall i :: 0 <= i < 4 ==> rows.value[i].top == 696 * i && rows.value[i].height == 696
  {
    var shots := RunFrom(s, batches, camera).state.shots;
    FinishedWithTarget(s, batches, camera);
    FinishedShotsHaveHeight(s, batches, camera);
    PrintStripRows(Sizes(shots));
  }

  // ---------------------------------------------------------------------
  // The imperative loop

  /** The camera: `feed(n)` is the n-th frame it delivers. */
  class Camera {
    const feed: nat -> Frame
    var delivered: nat

    constructor (feed: nat -> Frame)
      ensures this.feed == feed && delivered == 0
    {
      this.feed := feed;
      delivered := 0;
    }

    /** `capture_camera_image`: the camera's next frame. */
    method CaptureImage() returns (frame: Frame)
      modifies this
      ensures frame == feed(old(delivered)) && delivered == old(delivered) + 1
    {
      frame := feed(delivered);
      delivered := delivered + 1;
    }
  }

  /** The screen and timer, recorded as the effects they were asked for. */
  class Display {
    var shown: seq<Effect>

    constructor ()
      ensures shown == []
    {
      shown := [];
    }

    method Show(effect: Effect)
      modifies this
      ensures shown == old(shown) + [effect]
    {
      shown := shown + [effect];
    }
  }

  /** The local variables of one call of `capture_loop`. */
  class CaptureSession {
    var shots: seq<Frame>
    var capturing: bool
    var beeps: nat
    const camera: Camera
    const display: Display

    function Model(): State
      reads this, camera, display
    {
      State(shots, capturing, beeps, camera.delivered, display.shown)
    }

    constructor (camera: Camera, display: Display)
      ensures this.camera == camera && this.display == display
      ensures Model() == Start(camera.delivered, display.shown)
    {
      shots := [];
      capturing := false;
      beeps := 0;
      this.camera := camera;
      this.display := display;
    }

    /** `take_camera_shot`. */
    method TakeCameraShot()
      modifies this, camera, display
      ensures Model() == Shoot(old(Model()), camera.feed)
    {
      display.Show(Flash(WHITE));
      var frame := camera.CaptureImage();
      shots := shots + [frame];
    }

    /** One case of the `match` on the event type. */
    method HandleEvent(e: Event) returns (quit: bool)
      modifies this, camera, display
      ensures quit <==> e == Quit
      ensures quit ==> Model() == old(Model())
      ensures !quit ==> Handle(old(Model()), e, camera.feed) == Some(Model())
    {
      quit := false;
      match e
      case Quit =>
        quit := true;
      case MouseUp =>
        display.Show(ArmCountdown(COUNTDOWN_PERIOD_MS));
        capturing := true;
      case KeySpace =>
        if !capturing {
          display.Show(ArmCountdown(COUNTDOWN_PERIOD_MS));
          capturing := true;
        }
      case KeyReturn =>
        TakeCameraShot();
      case Timer =>
        if capturing {
          beeps := beeps + 1;
          if beeps % 4 == 0 {
            TakeCameraShot();
          } else {
            display.Show(Flash(RED));
          }
        }
      case KeyOther =>
      case Other =>
    }

    /**
     * The `for` loop over one batch. On QUIT the loop stops at once: the
     * state is what the events before it made, and the rest are not handled.
     */
    method HandleEvents(batch: seq<Event>) returns (quit: bool)
      modifies this, camera, display
      ensures quit <==> Quit in batch
      ensures !quit ==> HandleBatch(old(Model()), batch, camera.feed) == Some(Model())
      ensures quit ==> HandleBatch(old(Model()), batch[..FirstQuit(batch)], camera.feed) == Some(Model())
    {
      var i := 0;
      quit := false;
      while i < |batch|
        invariant 0 <= i <= |batch|
        invariant Quit !in batch[..i]
        invariant HandleBatch(old(Model()), batch[..i], camera.feed) == Some(Model())
      {
        quit := HandleEvent(batch[i]);
        if quit {
          assert FirstQuit(batch) == i;
          return;
        }
        HandleBatchSnoc(old(Model()), batch[..i], batch[i], camera.feed);
        assert batch[..i + 1] == batch[..i] + [batch[i]];
        i := i + 1;
      }
      assert batch[..i] == batch;
    }

    /** Drawing the live preview after a batch; `raised` when `blit_images_vertical` raises. */
    method ShowPreview() returns (raised: bool)
      modifies camera, display
      ensures Model() == Preview(old(Model()), camera.feed)
      ensures raised <==> MontageLayout(old(Model()), camera.feed).Failure?
    {
      var live := camera.CaptureImage();
      var rows := BlitImagesVertical(SCREEN_WIDTH, SCREEN_HEIGHT, Sizes(shots + [live]), Some(PHOTOS_TO_TAKE));
      display.Show(Montage(rows));
      raised := rows.Failure?;
    }

    /** The `while` loop, over the batches the event queue delivers. */
    method RunLoop(batches: seq<seq<Event>>) returns (result: Session)
      modifies this, camera, display
      ensures result == RunFrom(old(Model()), batches, camera.feed)
      ensures Model() == result.state
    {
      var i := 0;
      while i < |batches| && |shots| != PHOTOS_TO_TAKE
        invariant 0 <= i <= |batches|
        invariant RunFrom(Model(), batches[i..], camera.feed) == RunFrom(old(Model()), batches, camera.feed)
        decreases |batches| - i
      {
        assert batches[i..][0] == batches[i] && batches[i..][1..] == batches[i + 1..];
        var quit := HandleEvents(batches[i]);
        if quit {
          return Aborted(Model());
        }
        var raised := ShowPreview();
        if raised {
          return Crashed(Model());
        }
        i := i + 1;
      }
      if |shots| == PHOTOS_TO_TAKE {
        return Finished(Model());
      }
      return Waiting(Model());
    }
  }

  /** `capture_loop`: fresh loop variables, then the loop. */
  method CaptureLoop(camera: Camera, display: Display, batches: seq<seq<Event>>) returns (result: Session)
    modifies camera, display
    ensures result == RunFrom(Start(old(camera.delivered), old(display.shown)), batches, camera.feed)
    ensures camera.delivered == result.state.delivered && display.shown == result.state.shown
  {
    var session := new CaptureSession(camera, display);
    result := session.RunLoop(batches);
  }
}
