/** The tracing surface (view/DrawingView.kt): the touch session, the ink bitmap and the
    deferred "is the attempt finished?" checks.

    The bitmap is kept abstractly as the guide glyph drawn on it plus the strokes committed
    since it was last erased; `sized` says whether the bitmap exists yet (it is created by
    the first size change). Each pointer-up posts a check 1500 ms later; all checks have
    the same delay, so they run in the order they were posted: `pending` is that queue,
    holding the touch-point count each check captured. The completion callback is the
    log `completions` of (score, duration) pairs.

    The pure functions OnDown ... OnSizeChanged give each event's effect on a ViewState;
    the class DrawingView updates its fields in place and is proved against them; the
    lemmas speak about runs of events. */
module Tracing {
  import opened Model
  import opened Scoring

  datatype Point = Point(x: real, y: real)

  /** The drawing commands recorded by the in-progress path. */
  datatype PathOp = MoveTo(p: Point) | LineTo(p: Point)

  type Stroke = seq<PathOp>

  /** The bitmap: the guide glyph drawn on it ("" for none) and the committed strokes. */
  datatype Layer = Layer(guide: string, strokes: seq<Stroke>)

  const Blank: Layer := Layer("", [])

  /** One invocation of the completion callback. */
  datatype Completion = Completion(score: int, duration: int)

  datatype ViewState = ViewState(
    letter: string,
    sized: bool,
    layer: Layer,
    path: seq<PathOp>,
    isDrawing: bool,
    touchPointCount: int,
    startTime: int,
    pending: seq<int>,
    completions: seq<Completion>)

  /** The view as constructed: no letter, no bitmap, no session. */
  const Initial: ViewState := ViewState("", false, Blank, [], false, 0, 0, [], [])

  /** What every reachable state satisfies. */
  ghost predicate Inv(s: ViewState)
  {
    && s.touchPointCount >= 0
    && (s.isDrawing ==> s.touchPointCount >= 1)
    && (forall i :: 0 <= i < |s.pending| ==> s.pending[i] >= 1)
    && (!s.sized ==> s.layer == Blank)
    && (s.sized && s.letter != "" ==> s.layer.guide == s.letter)
    && (forall i :: 0 <= i < |s.completions| ==> 0 <= s.completions[i].score <= MaxScore)
  }

  /** ACTION_DOWN at time `now`: opens a session unless one is open, then starts a contour. */
  function OnDown(s: ViewState, p: Point, now: int): ViewState
  {
    var session := if s.isDrawing then s else s.(isDrawing := true, startTime := now, touchPointCount := 0);
    session.(path := session.path + [MoveTo(p)], touchPointCount := session.touchPointCount + 1)
  }

  /** ACTION_MOVE. */
  function OnMove(s: ViewState, p: Point): ViewState
  {
    s.(path := s.path + [LineTo(p)], touchPointCount := s.touchPointCount + 1)
  }

  /** ACTION_UP: commits the path to the bitmap, counts one more point and posts a check
      that captures the count. */
  function OnUp(s: ViewState): ViewState
    requires s.sized
  {
    var count := s.touchPointCount + 1;
    s.(layer := s.layer.(strokes := s.layer.strokes + [s.path]),
       path := [],
       touchPointCount := count,
       pending := s.pending + [count])
  }

  /** The oldest posted check runs at time `now`. */
  function OnSettle(s: ViewState, now: int): ViewState
    requires s.pending != []
  {
    var snapshot := s.pending[0];
    var popped := s.(pending := s.pending[1..]);
    if !s.isDrawing then popped
    else
      var duration := now - s.startTime;
      popped.(completions := s.completions + [Completion(CalculateScore(snapshot, duration), duration)],
              isDrawing := false,
              touchPointCount := 0)
  }

  /** drawGuideLetter: on an existing bitmap and a non-empty letter, erase and draw the guide. */
  function DrawGuideLetter(s: ViewState): ViewState
  {
    if !s.sized || s.letter == "" then s else s.(layer := Layer(s.letter, []))
  }

  /** clear(): only once the bitmap exists. Posted checks stay queued. */
  function OnClear(s: ViewState): ViewState
  {
    if !s.sized then s
    else DrawGuideLetter(s.(layer := Blank)).(path := [], isDrawing := false, touchPointCount := 0)
  }

  /** setLetter(letter). */
  function OnSetLetter(s: ViewState, letter: string): ViewState
  {
    var stored := s.(letter := letter);
    if stored.sized then DrawGuideLetter(stored) else stored
  }

  /** onSizeChanged: a new, blank bitmap with the guide drawn on it. */
  function OnSizeChanged(s: ViewState): ViewState
  {
    DrawGuideLetter(s.(sized := true, layer := Blank))
  }

  datatype Event =
    | TouchDown(p: Point, now: int)
    | TouchMove(p: Point)
    | TouchUp
    | CheckRuns(now: int)
    | ClearRequested
    | LetterSet(letter: string)
    | SizeChanged

  /** Touch events reach only a laid-out view, and a check runs only if one was posted. */
  predicate Enabled(s: ViewState, e: Event)
  {
    match e
    case TouchUp => s.sized
    case CheckRuns(_) => s.pending != []
    case _ => true
  }

  function Step(s: ViewState, e: Event): ViewState
    requires Enabled(s, e)
  {
    match e
    case TouchDown(p, now) => OnDown(s, p, now)
    case TouchMove(p) => OnMove(s, p)
    case TouchUp => OnUp(s)
    case CheckRuns(now) => OnSettle(s, now)
    case ClearRequested => OnClear(s)
    case LetterSet(letter) => OnSetLetter(s, letter)
    case SizeChanged => OnSizeChanged(s)
  }

  predicate Runnable(s: ViewState, trace: seq<Event>)
    decreases |trace|
  {
    trace == [] || (Enabled(s, trace[0]) && Runnable(Step(s, trace[0]), trace[1..]))
  }

  function Run(s: ViewState, trace: seq<Event>): ViewState
    requires Runnable(s, trace)
    decreases |trace|
  {
    if trace == [] then s else Run(Step(s, trace[0]), trace[1..])
  }

  function DownCount(trace: seq<Event>): nat
  {
    if trace == [] then 0
    else (if trace[0].TouchDown? then 1 else 0) + DownCount(trace[1..])
  }

  /** 1 while a session is open, else 0. */
  function Open(s: ViewState): nat
  {
    if s.isDrawing then 1 else 0
  }

  lemma StepPreservesInv(s: ViewState, e: Event)
    requires Inv(s) && Enabled(s, e)
    ensures Inv(Step(s, e))
  {
  }

  lemma {:induction false} RunPreservesInv(s: ViewState, trace: seq<Event>)
    requires Inv(s) && Runnable(s, trace)
    ensures Inv(Run(s, trace))
    decreases |trace|
  {
    if trace != [] {
      StepPreservesInv(s, trace[0]);
      RunPreservesInv(Step(s, trace[0]), trace[1..]);
    }
  }

  /** The callback log only grows: a run appends to it and rewrites nothing. */
  lemma {:induction false} RunExtendsCompletions(s: ViewState, trace: seq<Event>)
    requires Runnable(s, trace)
    ensures |s.completions| <= |Run(s, trace).completions|
    ensures Run(s, trace).completions[..|s.completions|] == s.completions
    decreases |trace|
  {
    if trace != [] {
      var t := Step(s, trace[0]);
      assert |s.completions| <= |t.completions| && t.completions[..|s.completions|] == s.completions;
      RunExtendsCompletions(t, trace[1..]);
      var r := Run(t, trace[1..]);
      assert r.completions[..|s.completions|] == r.completions[..|t.completions|][..|s.completions|];
    }
  }

  /** The pointer-downs of a run that open a session: those taken while none is open. */
  function SessionOpens(s: ViewState, trace: seq<Event>): nat
    requires Runnable(s, trace)
    decreases |trace|
  {
    if trace == [] then 0
    else (if trace[0].TouchDown? && !s.isDrawing then 1 else 0) + SessionOpens(Step(s, trace[0]), trace[1..])
  }

  /** Only a pointer-down opens a session. */
  lemma {:induction false} SessionOpensAtMostDowns(s: ViewState, trace: seq<Event>)
    requires Runnable(s, trace)
    ensures SessionOpens(s, trace) <= DownCount(trace)
    decreases |trace|
  {
    if trace != [] {
      SessionOpensAtMostDowns(Step(s, trace[0]), trace[1..]);
    }
  }

  /** At most one callback per session: a firing check closes the session it reports,
      and only a pointer-down taken with no session open opens one. */
  lemma {:induction false} AtMostOneCompletionPerSession(s: ViewState, trace: seq<Event>)
    requires Runnable(s, trace)
    ensures |Run(s, trace).completions| + Open(Run(s, trace)) <= |s.completions| + Open(s) + SessionOpens(s, trace)
    decreases |trace|
  {
    if trace != [] {
      var t := Step(s, trace[0]);
      assert |t.completions| + Open(t) <= |s.completions| + Open(s) + (if trace[0].TouchDown? && !s.isDrawing then 1 else 0);
      AtMostOneCompletionPerSession(t, trace[1..]);
    }
  }

  /** With no session open and no pointer-down to come, no check fires the callback. */
  lemma NoCompletionWithoutDown(s: ViewState, trace: seq<Event>)
    requires Runnable(s, trace)
    requires !s.isDrawing && DownCount(trace) == 0
    ensures Run(s, trace).completions == s.completions
  {
    AtMostOneCompletionPerSession(s, trace);
    SessionOpensAtMostDowns(s, trace);
    RunExtendsCompletions(s, trace);
  }

  /** clear() on a laid-out view silences every check posted before it, unless a new
      pointer-down opens a session first. */
  lemma ClearSilencesPendingChecks(s: ViewState, trace: seq<Event>)
    requires s.sized
    requires Runnable(OnClear(s), trace) && DownCount(trace) == 0
    ensures Run(OnClear(s), trace).completions == s.completions
  {
    NoCompletionWithoutDown(OnClear(s), trace);
  }

  /** A two-stroke letter is scored on its first stroke: the check posted by the first
      pointer-up still finds the session open, fires with the two points it captured, and
      closes the session, so the check posted by the second stroke fires nothing. */
  lemma TwoStrokesScoredOnFirstStroke(s: ViewState, p: Point, q: Point, t0: int, t1: int, t2: int, t3: int)
    requires s.sized && !s.isDrawing && s.pending == []
    ensures var s4 := OnUp(OnDown(OnUp(OnDown(s, p, t0)), q, t1));
      && s4.pending == [2, 4]
      && OnSettle(s4, t2).completions == s.completions + [Completion(CalculateScore(2, t2 - t0), t2 - t0)]
      && OnSettle(OnSettle(s4, t2), t3).completions == OnSettle(s4, t2).completions
  {
  }

  /** A check outlives its session: after down, up, down, up the first check closes the
      session, and the second stroke's check, run after a new pointer-down, fires for the
      new session with the four points it captured in the old one. */
  lemma StaleCheckScoresNextSession(s: ViewState, p: Point, q: Point, r: Point, t0: int, t1: int, t2: int, t3: int, t4: int)
    requires s.sized && !s.isDrawing && s.pending == []
    ensures var s4 := OnUp(OnDown(OnUp(OnDown(s, p, t0)), q, t1));
      var s6 := OnDown(OnSettle(s4, t2), r, t3);
      && s6.pending == [4] && s6.touchPointCount == 1
      && OnSettle(s6, t4).completions == OnSettle(s4, t2).completions + [Completion(CalculateScore(4, t4 - t3), t4 - t3)]
  {
  }

  /** The check as its comment describes it ("see if the user continues drawing"): it
      fires only if a session is open and the count still equals the check's snapshot.
      Within one session this means no touch point was counted since its pointer-up, so a
      stroke that follows within the delay defers the score to the last stroke's check.
      clear() zeroes the count but keeps the queue, so a check posted before it can still
      fire for a new session that reaches the same count. */
  function OnSettleWhenIdle(s: ViewState, now: int): (r: ViewState)
    requires s.pending != []
    ensures r.pending == s.pending[1..]
    ensures |r.completions| == |s.completions| + (if s.isDrawing && s.touchPointCount == s.pending[0] then 1 else 0)
    ensures |r.completions| > |s.completions| ==>
      r.completions == s.completions + [Completion(CalculateScore(s.touchPointCount, now - s.startTime), now - s.startTime)]
      && !r.isDrawing && r.touchPointCount == 0
  {
    if s.isDrawing && s.touchPointCount == s.pending[0] then OnSettle(s, now)
    else s.(pending := s.pending[1..])
  }

  /** With that check, down, up, down, up scores once, on the last stroke, with all four
      points over the whole session. */
  lemma TwoStrokesScoredOnLastStroke(s: ViewState, p: Point, q: Point, t0: int, t1: int, t2: int, t3: int)
    requires s.sized && !s.isDrawing && s.pending == []
    ensures var s4 := OnUp(OnDown(OnUp(OnDown(s, p, t0)), q, t1));
      && OnSettleWhenIdle(s4, t2).completions == s.completions
      && OnSettleWhenIdle(OnSettleWhenIdle(s4, t2), t3).completions
         == s.completions + [Completion(CalculateScore(4, t3 - t0), t3 - t0)]
  {
  }

  /** The limit of that check: down, up, clear(), down, up queues two checks that both
      captured 2, and the first, posted before the clear, fires for the new session
      although two points were counted since its pointer-up. */
  lemma IdleCheckAcrossClear(s: ViewState, p: Point, q: Point, t0: int, t1: int, t2: int)
    requires s.sized && !s.isDrawing && s.pending == []
    ensures var s5 := OnUp(OnDown(OnClear(OnUp(OnDown(s, p, t0))), q, t1));
      && s5.pending == [2, 2] && s5.touchPointCount == 2
      && OnSettleWhenIdle(s5, t2).completions == s.completions + [Completion(CalculateScore(2, t2 - t1), t2 - t1)]
  {
  }

  /** A letter set before the first layout is drawn once the view gets its size. */
  lemma LetterSetBeforeLayoutIsDrawn(s: ViewState, letter: string)
    requires Inv(s) && !s.sized
    ensures OnSetLetter(s, letter).layer == Blank
    ensures OnSizeChanged(OnSetLetter(s, letter)).layer == Layer(letter, [])
  {
  }

  /** Setting the empty letter on a laid-out view keeps the bitmap as it was, old guide
      and strokes included. */
  lemma EmptyLetterKeepsInk(s: ViewState)
    requires s.sized
    ensures OnSetLetter(s, "").layer == s.layer
  {
  }

  class DrawingView {
    var letter: string
    var sized: bool
    var layer: Layer
    var path: seq<PathOp>
    var isDrawing: bool
    var touchPointCount: int
    var startTime: int
    var pending: seq<int>
    ghost var completions: seq<Completion>

    ghost function State(): ViewState
      reads this
    {
      ViewState(letter, sized, layer, path, isDrawing, touchPointCount, startTime, pending, completions)
    }

    ghost predicate Valid()
      reads this
    {
      Inv(State())
    }

    constructor ()
      ensures Valid() && State() == Initial
    {
      letter, sized, layer, path := "", false, Blank, [];
      isDrawing, touchPointCount, startTime := false, 0, 0;
      pending := [];
      completions := [];
    }

    /** ACTION_DOWN at (p.x, p.y), the clock reading `now`. */
    method Down(p: Point, now: int)
      requires Valid()
      modifies this
      ensures Valid() && State() == OnDown(old(State()), p, now)
      ensures isDrawing
      ensures startTime == if old(isDrawing) then old(startTime) else now
      ensures touchPointCount == if old(isDrawing) then old(touchPointCount) + 1 else 1
    {
      if !isDrawing {
        isDrawing := true;
        startTime := now;
        touchPointCount := 0;
      }
      path := path + [MoveTo(p)];
      touchPointCount := touchPointCount + 1;
    }

    /** ACTION_MOVE. */
    method Move(p: Point)
      requires Valid()
      modifies this
      ensures Valid() && State() == OnMove(old(State()), p)
      ensures touchPointCount == old(touchPointCount) + 1
      ensures isDrawing == old(isDrawing) && startTime == old(startTime)
    {
      path := path + [LineTo(p)];
      touchPointCount := touchPointCount + 1;
    }

    /** ACTION_UP. */
    method Up()
      requires Valid() && sized
      modifies this
      ensures Valid() && State() == OnUp(old(State()))
      ensures layer.strokes == old(layer.strokes) + [old(path)] && path == []
      ensures touchPointCount == old(touchPointCount) + 1
      ensures pending == old(pending) + [touchPointCount]
    {
      layer := layer.(strokes := layer.strokes + [path]);
      path := [];
      touchPointCount := touchPointCount + 1;
      var currentPointCount := touchPointCount;
      pending := pending + [currentPointCount];
    }

    /** The oldest posted check runs at time `now`; `fired` is what it passes to the
        completion callback, if anything. */
    method Settle(now: int) returns (fired: Option<Completion>)
      requires Valid() && pending != []
      modifies this
      ensures Valid() && State() == OnSettle(old(State()), now)
      ensures fired.Some? <==> old(isDrawing)
      ensures fired.Some? ==>
        fired.value == Completion(CalculateScore(old(pending[0]), now - old(startTime)), now - old(startTime))
      ensures completions == old(completions) + (if fired.Some? then [fired.value] else [])
      ensures !isDrawing && (fired.Some? ==> touchPointCount == 0)
    {
      var currentPointCount := pending[0];
      pending := pending[1..];
      if !isDrawing {
        return None;
      }
      var duration := now - startTime;
      var score := CalculateScore(currentPointCount, duration);
      fired := Some(Completion(score, duration));
      completions := completions + [fired.value];
      isDrawing := false;
      touchPointCount := 0;
    }

    method DrawGuide()
      modifies this`layer
      ensures State() == DrawGuideLetter(old(State()))
    {
      if !sized || letter == "" {
        return;
      }
      layer := Layer(letter, []);
    }

    /** clear(). */
    method Clear()
      requires Valid()
      modifies this
      ensures Valid() && State() == OnClear(old(State()))
      ensures sized ==> layer.strokes == [] && path == [] && !isDrawing && touchPointCount == 0
      ensures !sized ==> State() == old(State())
      ensures pending == old(pending)
    {
      if sized {
        layer := Blank;
        DrawGuide();
        path := [];
        isDrawing := false;
        touchPointCount := 0;
      }
    }

    /** startTraceAnimation(letter), which only clears. */
    method StartTraceAnimation(letter: string)
      requires Valid()
      modifies this
      ensures Valid() && State() == OnClear(old(State()))
    {
      Clear();
    }

    /** setLetter(letter). */
    method SetLetter(letter: string)
      requires Valid()
      modifies this
      ensures Valid() && State() == OnSetLetter(old(State()), letter)
      ensures this.letter == letter
      ensures layer == if sized && letter != "" then Layer(letter, []) else old(layer)
    {
      this.letter := letter;
      if sized {
        DrawGuide();
      }
    }

    /** onSizeChanged: the bitmap is (re)created at the new size. */
    method SizeChanged()
      requires Valid()
      modifies this
      ensures Valid() && State() == OnSizeChanged(old(State()))
      ensures sized && layer == Layer(letter, [])
    {
      sized := true;
      layer := Blank;
      DrawGuide();
    }
  }
}
