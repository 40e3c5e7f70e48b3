/**
 * The frame-advance animation of client/src/lib/game/Sprite.ts: a list of
 * frames, each shown for its own duration, played once or in a loop.
 */
module SpriteModel {
  import opened Wrappers

  /** One frame: its rectangle on the sprite sheet and how long it is shown. */
  datatype Frame = Frame(x: real, y: real, width: real, height: real, duration: real)

  datatype SpriteData = SpriteData(
    frames: seq<Frame>, currentFrame: int, frameTimer: real,
    loop: bool, isPlaying: bool, isComplete: bool)

  /** The current frame indexes the list whenever the list is non-empty. */
  ghost predicate Inv(s: SpriteData)
  {
    0 <= s.currentFrame && (s.frames != [] ==> s.currentFrame < |s.frames|)
  }

  /** The field initialisers and the constructor: stopped on the first frame. */
  function Created(frames: seq<Frame>, loop: bool): (s: SpriteData)
    ensures s.frames == frames && s.loop == loop
    ensures s.currentFrame == 0 && s.frameTimer == 0.0 && !s.isPlaying && !s.isComplete
    ensures Inv(s)
  {
    SpriteData(frames, 0, 0.0, loop, false, false)
  }

  /** `play()`: restart from the first frame. */
  function Played(s: SpriteData): (r: SpriteData)
    ensures r.isPlaying && !r.isComplete && r.currentFrame == 0 && r.frameTimer == 0.0
    ensures r.frames == s.frames && r.loop == s.loop
    ensures Inv(r)
  {
    s.(isPlaying := true, isComplete := false, currentFrame := 0, frameTimer := 0.0)
  }

  /** `stop()`: only the playing flag changes. */
  function Stopped(s: SpriteData): (r: SpriteData)
    ensures !r.isPlaying && r.(isPlaying := s.isPlaying) == s
    ensures Inv(s) ==> Inv(r)
  {
    s.(isPlaying := false)
  }

  /** `reset()`: back to the first frame, not complete; the playing flag is untouched. */
  function Rewound(s: SpriteData): (r: SpriteData)
    ensures r.currentFrame == 0 && r.frameTimer == 0.0 && !r.isComplete
    ensures r.isPlaying == s.isPlaying && r.frames == s.frames && r.loop == s.loop
    ensures Inv(r)
  {
    s.(currentFrame := 0, frameTimer := 0.0, isComplete := false)
  }

  /** Whether an update of `dt` ends the current frame's time. */
  predicate Due(s: SpriteData, dt: real)
    requires Inv(s)
  {
    s.isPlaying && s.frames != [] && s.frameTimer + dt >= s.frames[s.currentFrame].duration
  }

  /**
   * `update(deltaTime)`: nothing while stopped or without frames; otherwise
   * the timer runs, and once it reaches the frame's duration it restarts and
   * the next frame is shown. Past the last frame a looping sprite wraps to
   * the first, a one-shot one stays on the last and completes.
   */
  function Advanced(s: SpriteData, dt: real): (r: SpriteData)
    requires Inv(s)
    ensures Inv(r)
    ensures r.frames == s.frames && r.loop == s.loop
    ensures !s.isPlaying || s.frames == [] ==> r == s
    ensures s.isPlaying && s.frames != [] && !Due(s, dt) ==> r == s.(frameTimer := s.frameTimer + dt)
    ensures Due(s, dt) ==> r.frameTimer == 0.0
    ensures Due(s, dt) && s.currentFrame + 1 < |s.frames| ==> r == s.(frameTimer := 0.0, currentFrame := s.currentFrame + 1)
  {
    if !s.isPlaying || s.frames == [] then s
    else
      var timer := s.frameTimer + dt;
      if timer >= s.frames[s.currentFrame].duration then
        var next := s.currentFrame + 1;
        if next >= |s.frames| then
          if s.loop then s.(frameTimer := 0.0, currentFrame := 0)
          else s.(frameTimer := 0.0, currentFrame := |s.frames| - 1, isPlaying := false, isComplete := true)
        else s.(frameTimer := 0.0, currentFrame := next)
      else s.(frameTimer := timer)
  }

  /** `getCurrentFrame()`: JavaScript gives `undefined` for an empty list. */
  function CurrentFrame(s: SpriteData): (f: Option<Frame>)
    requires Inv(s)
    ensures f.Some? <==> s.frames != []
    ensures f.Some? ==> f.value in s.frames && f.value == s.frames[s.currentFrame]
  {
    if s.frames == [] then None else Some(s.frames[s.currentFrame])
  }

  /** A looping sprite wraps from its last frame to the first and keeps playing. */
  lemma LoopWraps(s: SpriteData, dt: real)
    requires Inv(s) && s.loop && Due(s, dt) && s.currentFrame == |s.frames| - 1
    ensures var r := Advanced(s, dt);
            r.currentFrame == 0 && r.isPlaying && r.isComplete == s.isComplete
  {
  }

  /**
   * A one-shot sprite stops on its last frame and completes; from then on
   * updates change nothing and it reports being finished.
   */
  lemma OneShotHoldsLastFrame(s: SpriteData, dt: real, later: real)
    requires Inv(s) && !s.loop && Due(s, dt) && s.currentFrame == |s.frames| - 1
    ensures var r := Advanced(s, dt);
            r.currentFrame == |s.frames| - 1 && !r.isPlaying && r.isComplete &&
            CurrentFrame(r) == Some(s.frames[|s.frames| - 1]) &&
            Advanced(r, later) == r
  {
  }

  /** A stopped sprite is frozen: updates leave it exactly as `stop` left it. */
  lemma StopFreezes(s: SpriteData, dt: real)
    requires Inv(s)
    ensures Advanced(Stopped(s), dt) == Stopped(s)
  {
  }

  /** `play` and `reset` both show the first frame again. */
  lemma RestartShowsFirstFrame(s: SpriteData)
    requires Inv(s) && s.frames != []
    ensures CurrentFrame(Played(s)) == Some(s.frames[0])
    ensures CurrentFrame(Rewound(s)) == Some(s.frames[0])
  {
  }

  /** `n` updates of `dt` each. */
  function Run(s: SpriteData, dt: real, n: nat): (r: SpriteData)
    requires Inv(s)
    ensures Inv(r) && r.frames == s.frames && r.loop == s.loop
  {
    if n == 0 then s else Advanced(Run(s, dt, n - 1), dt)
  }

  /** Every frame lasts at most `dt`, so each update of `dt` ends the frame shown. */
  predicate Brief(frames: seq<Frame>, dt: real)
  {
    forall i :: 0 <= i < |frames| ==> frames[i].duration <= dt
  }

  /**
   * When every frame lasts at most one update, a sprite just played shows
   * frame `n` after `n` updates and is still playing, for every `n` before
   * the last frame: exactly one frame per update.
   */
  lemma {:induction false} StepsThrough(s: SpriteData, dt: real, n: nat)
    requires Inv(s) && s.frames != [] && dt >= 0.0 && Brief(s.frames, dt)
    requires n < |s.frames|
    ensures var r := Run(Played(s), dt, n);
            r.currentFrame == n && r.isPlaying && !r.isComplete && r.frameTimer == 0.0
  {
    if n > 0 {
      StepsThrough(s, dt, n - 1);
      var prev := Run(Played(s), dt, n - 1);
      assert Due(prev, dt);
    }
  }

  /** ... then one more update finishes a one-shot sprite on its last frame. */
  lemma OneShotFinishes(s: SpriteData, dt: real)
    requires Inv(s) && !s.loop && s.frames != [] && dt >= 0.0 && Brief(s.frames, dt)
    ensures var r := Run(Played(s), dt, |s.frames|);
            r.isComplete && !r.isPlaying && r.currentFrame == |s.frames| - 1
  {
    StepsThrough(s, dt, |s.frames| - 1);
    assert Due(Run(Played(s), dt, |s.frames| - 1), dt);
  }

  /** ... and brings a looping sprite back to exactly where `play` left it. */
  lemma LoopReturns(s: SpriteData, dt: real)
    requires Inv(s) && s.loop && s.frames != [] && dt >= 0.0 && Brief(s.frames, dt)
    ensures Run(Played(s), dt, |s.frames|) == Played(s)
  {
    StepsThrough(s, dt, |s.frames| - 1);
    assert Due(Run(Played(s), dt, |s.frames| - 1), dt);
  }

  class Sprite {
    const frames: seq<Frame>
    var currentFrame: int
    var frameTimer: real
    const loop: bool
    var isPlaying: bool
    var isComplete: bool

    function Data(): SpriteData
      reads this
    {
      SpriteData(frames, currentFrame, frameTimer, loop, isPlaying, isComplete)
    }

    ghost predicate Valid()
      reads this
    {
      Inv(Data())
    }

    constructor (frames0: seq<Frame>, loop0: bool)
      ensures Data() == Created(frames0, loop0)
      ensures Valid()
    {
      frames, loop := frames0, loop0;
      currentFrame, frameTimer := 0, 0.0;
      isPlaying, isComplete := false, false;
    }

    method Play()
      modifies this
      ensures Data() == Played(old(Data()))
      ensures Valid()
    {
      isPlaying := true;
      isComplete := false;
      currentFrame := 0;
      frameTimer := 0.0;
    }

    method Stop()
      requires Valid()
      modifies this
      ensures Data() == Stopped(old(Data()))
      ensures Valid()
    {
      isPlaying := false;
    }

    method Reset()
      modifies this
      ensures Data() == Rewound(old(Data()))
      ensures Valid()
    {
      currentFrame := 0;
      frameTimer := 0.0;
      isComplete := false;
    }

    method Update(deltaTime: real)
      requires Valid()
      modifies this
      ensures Data() == Advanced(old(Data()), deltaTime)
      ensures Valid()
    {
      if !isPlaying || |frames| == 0 {
        return;
      }
      frameTimer := frameTimer + deltaTime;
      if frameTimer >= frames[currentFrame].duration {
        frameTimer := 0.0;
        currentFrame := currentFrame + 1;
        if currentFrame >= |frames| {
          if loop {
            currentFrame := 0;
          } else {
            Finish();
          }
        }
      }
    }

    /** The one-shot ending of `update`: hold the last frame and complete. */
    method Finish()
      requires frames != []
      modifies this
      ensures Data() == old(Data()).(currentFrame := |frames| - 1, isPlaying := false, isComplete := true)
    {
      currentFrame := |frames| - 1;
      isPlaying := false;
      isComplete := true;
    }

    function GetCurrentFrame(): (f: Option<Frame>)
      requires Valid()
      reads this
      ensures f == CurrentFrame(Data())
    {
      if |frames| == 0 then None else Some(frames[currentFrame])
    }

    function IsFinished(): (r: bool)
      reads this
      ensures r == Data().isComplete
    {
      isComplete
    }
  }
}
