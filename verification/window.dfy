/** The window's event loop as a decision table: how each window event,
    each redraw and each end of a batch of events changes the window flag,
    the context and the loop's control flow. */
module Windows {
  import opened Optional
  import opened Algebra
  import opened Events
  import opened Axes
  import opened Cameras
  import opened FrameHistory
  import opened Contexts

  const FrameRateShowDefault: bool := true

  /** The wrapper around the winit window: whether the title shows the
      frame rates. */
  datatype Window = Window(showFrameRate: bool)

  datatype ControlFlow = Poll | Exit

  /** The state the event-loop closure owns. */
  datatype Loop = Loop(window: Window, context: Context, controlFlow: ControlFlow)

  /** The errors `get_current_texture` can report to `render`. */
  datatype SurfaceError = Lost | OutOfMemory | Outdated | Timeout

  /** What `Context::render` returned. */
  datatype RenderOutcome = Rendered | Failed(error: SurfaceError)

  /** The window title: the bare initial title, or the initial title with
      the current and average frame rates. */
  datatype Title = Plain | WithRates(frameRate: Option<real>, averageFrameRate: Option<real>)

  /** `Window::new`. */
  function New(): (w: Window)
    ensures w.showFrameRate
  {
    Window(FrameRateShowDefault)
  }

  /** The camera a pressed arrow key selects as up axis: Up gives Y, Left
      gives X and Right gives Z. */
  function ArrowAxis(key: VirtualKeyCode): Option<Axis>
  {
    match key
    case Up => Some(Y)
    case Left => Some(X)
    case Right => Some(Z)
    case _ => None
  }

  /** The context's camera with its up axis set. */
  function WithUpAxis(ctx: Context, axis: Axis): (r: Context)
    ensures r == ctx.(camera := SetUpAxis(ctx.camera, axis))
    ensures Contexts.Valid(ctx) ==> Contexts.Valid(r)
    ensures Running(ctx) ==> Running(r)
  {
    ctx.(camera := SetUpAxis(ctx.camera, axis))
  }

  /** The window-event arm of `Window::run`. The context sees the event
      first; if it handled it, nothing else happens. Otherwise a close
      request or a pressed Escape exits, a pressed F toggles the frame-rate
      title, a pressed arrow sets the camera's up axis, and a resize or
      scale-factor change resizes the context. */
  function OnWindowEvent(l: Loop, e: WindowEvent): (r: Loop)
    requires e.CursorMoved? ==> l.context.size.width > 0 && l.context.size.height > 0
    ensures Input(l.context, e).1 ==> r == l.(context := Input(l.context, e).0)
    ensures e.CloseRequested? || IsPress(e, Escape) ==> r.controlFlow == Exit
    ensures !Input(l.context, e).1 && (e.CloseRequested? || IsPress(e, Escape)) ==> r == l.(controlFlow := Exit)
    ensures !Input(l.context, e).1 && IsPress(e, F) ==> r == l.(window := Window(!l.window.showFrameRate))
    ensures !Input(l.context, e).1 && IsPress(e, Up) ==> r == l.(context := WithUpAxis(l.context, Y))
    ensures !Input(l.context, e).1 && IsPress(e, Left) ==> r == l.(context := WithUpAxis(l.context, X))
    ensures !Input(l.context, e).1 && IsPress(e, Right) ==> r == l.(context := WithUpAxis(l.context, Z))
    ensures e.OtherEvent? ==> r == l
    ensures e.KeyboardInput? && !Input(l.context, e).1
            && !(IsPress(e, Escape) || IsPress(e, F) || IsPress(e, Up) || IsPress(e, Left) || IsPress(e, Right))
            ==> r == l
    ensures r.controlFlow != l.controlFlow ==> r.controlFlow == Exit && (e.CloseRequested? || IsPress(e, Escape))
    ensures r.window.showFrameRate != l.window.showFrameRate <==> IsPress(e, F)
    ensures IsPress(e, Up) ==> r.context.camera.up == ToVector3(Y)
    ensures IsPress(e, Left) ==> r.context.camera.up == ToVector3(X)
    ensures IsPress(e, Right) ==> r.context.camera.up == ToVector3(Z)
    ensures e.Resized? ==> r.context == Resize(l.context, e.size)
    ensures e.ScaleFactorChanged? ==> r.context == Resize(l.context, e.newInnerSize)
    ensures Contexts.Valid(l.context) ==> Contexts.Valid(r.context)
    ensures Running(l.context) ==> Running(r.context)
  {
    var (ctx, handled) := Input(l.context, e);
    if handled then l.(context := ctx)
    else
      match e
      case CloseRequested => l.(context := ctx, controlFlow := Exit)
      case KeyboardInput(Pressed, Some(Escape)) => l.(context := ctx, controlFlow := Exit)
      case KeyboardInput(Pressed, Some(F)) => l.(context := ctx, window := Window(!l.window.showFrameRate))
      case KeyboardInput(Pressed, Some(key)) =>
        (match ArrowAxis(key)
         case Some(axis) => l.(context := WithUpAxis(ctx, axis))
         case None => l.(context := ctx))
      case Resized(size) => l.(context := Resize(ctx, size))
      case ScaleFactorChanged(size) => l.(context := Resize(ctx, size))
      case _ => l.(context := ctx)
  }

  /** Pressing F twice shows the title as it was. */
  lemma ToggleTwiceRestores(l: Loop)
    ensures var press := KeyboardInput(Pressed, Some(F));
            OnWindowEvent(OnWindowEvent(l, press), press).window == l.window
  {
  }

  /** A released key other than W, A, S and D changes nothing at all. */
  lemma ReleasedKeyIgnored(l: Loop, key: VirtualKeyCode)
    requires key !in {W, A, S, D}
    ensures OnWindowEvent(l, KeyboardInput(Released, Some(key))) == l
  {
  }

  /** The redraw arm: the context updates, then renders. A lost surface is
      reconfigured at the current size, which keeps that size; running out
      of memory exits; any other error is only logged. The render itself is
      the GPU's and appears as its outcome. */
  function OnRedrawRequested(l: Loop, clock: real, u: Uninterpreted, outcome: RenderOutcome): (r: Loop)
    requires Lawful(u)
    requires |l.context.frameBuffer| > 0
    ensures var updated := Update(l.context, clock, u);
            && r.window == l.window
            && (outcome == Failed(Lost) ==> r.context == Resize(updated, updated.size) && r.context.size == l.context.size)
            && (outcome != Failed(Lost) ==> r.context == updated)
            && (r.controlFlow == Exit <==> outcome == Failed(OutOfMemory) || l.controlFlow == Exit)
    ensures Contexts.Valid(l.context) ==> Contexts.Valid(r.context)
    ensures Running(l.context) ==> Running(r.context)
  {
    var ctx := Update(l.context, clock, u);
    match outcome
    case Rendered => l.(context := ctx)
    case Failed(Lost) => l.(context := Resize(ctx, ctx.size))
    case Failed(OutOfMemory) => l.(context := ctx, controlFlow := Exit)
    case Failed(_) => l.(context := ctx)
  }

  /** `Window::update_title`: which title the window shows. */
  function TitleOf(w: Window, ctx: Context, clock: real): (t: Title)
    ensures t.Plain? <==> !w.showFrameRate
    ensures t.WithRates? ==> t.frameRate == FrameRate(ctx.frameBuffer, clock)
    ensures t.WithRates? ==> t.averageFrameRate == AverageFrameRate(ctx.frameRateBuffer)
  {
    if w.showFrameRate then WithRates(CurrentFrameRate(ctx, clock), CurrentAverageFrameRate(ctx)) else Plain
  }

  /** The arm for the end of a batch of events: the context finalises the
      frame, then the title is chosen from the finalised context. */
  function OnMainEventsCleared(l: Loop, clock: real): (r: (Loop, Title))
    ensures r.0 == l.(context := Finalize(l.context, clock))
    ensures r.1 == TitleOf(l.window, r.0.context, clock)
    ensures Contexts.Valid(l.context) ==> Contexts.Valid(r.0.context)
    ensures Running(l.context) ==> Running(r.0.context)
  {
    FinalizeKeepsRunning(l.context, clock);
    var ctx := Finalize(l.context, clock);
    (l.(context := ctx), TitleOf(l.window, ctx, clock))
  }

  /** The loop as `run` starts it: a new window, a new context that has
      been initialised, and polling. */
  function Start(size: PhysicalSize, clock: real, clock': real, u: Uninterpreted): (l: Loop)
    requires Lawful(u)
    ensures l.window.showFrameRate && l.controlFlow == Poll
    ensures Running(l.context)
    ensures l.context.frameBuffer == [] && l.context.frameRateBuffer == []
  {
    Loop(New(), Init(Contexts.New(size, clock, u), clock'), Poll)
  }

  /** Once one batch of events has been finalised, the frame history is
      non-empty, so a redraw can read its newest frame. */
  lemma FinalizedLoopCanRedraw(l: Loop, clock: real)
    ensures |OnMainEventsCleared(l, clock).0.context.frameBuffer| > 0
  {
  }
}
