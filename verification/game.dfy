/**
 * The game session: the catcher, the two falling streams, the score, the countdown
 * clock and the win/lose decision, as one object whose methods update its fields the way
 * the per-frame update and the one-second timer do.
 */
module LaddooGame {
  import opened Geometry
  import opened Passes
  import opened Entities

  /** Laddoos needed to win, and the length of a round in seconds. */
  const TargetScore: int := 10
  const RoundSeconds: int := 15

  /** The catcher's fixed size, step per frame and resting height; it starts centred. */
  const CatcherSize: real := 60.0
  const CatcherStep: real := 5.0
  const CatcherY: real := GameHeight - 80.0
  const CatcherHomeX: real := GameWidth / 2.0 - 30.0

  /** A drag moves the catcher only past this gap, by this fraction of the gap. */
  const DragThreshold: real := 2.0
  const DragSensitivity: real := 0.8

  datatype Catcher = Catcher(x: real, y: real, width: real, height: real, speed: real)
  {
    function Box(): Rect { Rect(x, y, width, height) }
  }

  /** Which screen the session shows. */
  datatype Phase = Idle | CountingDown | Running | Won | Lost

  /** The catcher picture: the resting one, and the one shown briefly after a catch. */
  datatype CharImage = CharOpen | CharClosed

  /** The seven random draws of one frame, each taken in [0, 1). */
  datatype Draws = Draws(laddooChance: real, laddooX: real, laddooSpeed: real,
                         hazardChance: real, hazardKind: real, hazardX: real, hazardSpeed: real)
  {
    predicate InUnit()
    {
      0.0 <= laddooChance < 1.0 && 0.0 <= laddooX < 1.0 && 0.0 <= laddooSpeed < 1.0 &&
      0.0 <= hazardChance < 1.0 && 0.0 <= hazardKind < 1.0 && 0.0 <= hazardX < 1.0 &&
      0.0 <= hazardSpeed < 1.0
    }
  }

  function Abs(v: real): real { if v < 0.0 then -v else v }

  /**
   * `Math.max(lo, Math.min(hi, v))`: within [lo, hi] whenever that range is non-empty,
   * and `v` itself when it already lies there.
   */
  function Clamp(lo: real, hi: real, v: real): (r: real)
    ensures lo <= hi ==> lo <= r <= hi
    ensures lo <= v <= hi ==> r == v
    ensures lo <= hi && v < lo ==> r == lo
    ensures lo <= hi && hi < v ==> r == hi
  {
    Max(lo, Min(hi, v))
  }

  /** A key counts as held when it has been recorded as down; unknown keys are up. */
  predicate KeyDown(keys: map<string, bool>, k: string)
  {
    k in keys && keys[k]
  }

  predicate LeftKeyHeld(keys: map<string, bool>)
  {
    KeyDown(keys, "ArrowLeft") || KeyDown(keys, "a") || KeyDown(keys, "A")
  }

  predicate RightKeyHeld(keys: map<string, bool>)
  {
    KeyDown(keys, "ArrowRight") || KeyDown(keys, "d") || KeyDown(keys, "D")
  }

  /**
   * The drag step of one frame: nothing unless a finger is down and has moved more than
   * the threshold away from the anchor; then a move towards the finger of 0.8 times the
   * gap.
   */
  function DragMove(isTouching: bool, startX: real, currentX: real): (m: real)
    ensures m != 0.0 <==> isTouching && Abs(currentX - startX) > DragThreshold
  {
    var delta := currentX - startX;
    if isTouching && Abs(delta) > DragThreshold then delta * DragSensitivity else 0.0
  }

  /**
   * A drag step goes towards the finger and covers 80% of the gap between the anchor
   * and the finger: never past it.
   */
  lemma DragTowardsFinger(isTouching: bool, startX: real, currentX: real)
    requires DragMove(isTouching, startX, currentX) != 0.0
    ensures var m := DragMove(isTouching, startX, currentX);
      Abs(m) < Abs(currentX - startX) && m * (currentX - startX) > 0.0 &&
      m / (currentX - startX) == DragSensitivity
  {
  }

  /**
   * The anchor follows the finger: after a drag step that moves the anchor by half the
   * catcher's move, the remaining gap is 60% of the previous one and on the same side.
   */
  lemma DragNarrowsGap(isTouching: bool, startX: real, currentX: real)
    requires DragMove(isTouching, startX, currentX) != 0.0
    ensures currentX - (startX + DragMove(isTouching, startX, currentX) / 2.0)
            == 0.6 * (currentX - startX)
  {
  }

  /**
   * The unclamped horizontal displacement of one frame: key steps, the drag step and
   * on-screen button steps, added up.
   */
  function Steer(keyLeft: bool, keyRight: bool, isTouching: bool, startX: real, currentX: real,
                 buttonLeft: bool, buttonRight: bool, step: real): real
  {
    (if keyLeft then -step else 0.0) +
    (if keyRight then step else 0.0) +
    DragMove(isTouching, startX, currentX) +
    (if buttonLeft then -step else 0.0) +
    (if buttonRight then step else 0.0)
  }

  /** The new laddoos of one frame: one when the chance draw falls under the spawn rate. */
  function LaddooSpawn(d: Draws): (r: seq<Entity>)
    requires d.InUnit()
    ensures r == [] || r == [NewLaddoo(d.laddooX, d.laddooSpeed)]
    ensures r != [] <==> d.laddooChance < LaddooSpawnRate
  {
    if d.laddooChance < LaddooSpawnRate then [NewLaddoo(d.laddooX, d.laddooSpeed)] else []
  }

  /** The new hazards of one frame: one when the chance draw falls under the spawn rate. */
  function HazardSpawn(d: Draws): (r: seq<Entity>)
    requires d.InUnit()
    ensures r == [] || r == [NewBadObject(d.hazardKind, d.hazardX, d.hazardSpeed)]
    ensures r != [] <==> d.hazardChance < BadObjectSpawnRate
  {
    if d.hazardChance < BadObjectSpawnRate then [NewBadObject(d.hazardKind, d.hazardX, d.hazardSpeed)] else []
  }

  /**
   * The score after the hazard pass when it starts at `s` and `hits` hazards are caught:
   * one point lost per hazard, but never below zero.
   */
  function AfterHazards(s: int, hits: nat): (r: int)
    requires s >= 0
    ensures 0 <= r <= s
    ensures r == s - (if hits < s then hits else s)
  {
    if s - hits > 0 then s - hits else 0
  }

  /** The effect of one catch check on the two lists and the score, as values. */
  datatype Catches = Catches(laddoos: seq<Entity>, badObjects: seq<Entity>, score: int,
                             caught: nat, hits: nat)

  /**
   * The catch check against the catcher's box `box`: overlapping laddoos are removed
   * and each scores a point; then, only when the score is positive after that, the
   * overlapping hazards are removed and each costs a point, never going below zero.
   */
  function Resolve(score: int, laddoos: seq<Entity>, badObjects: seq<Entity>, box: Rect): (c: Catches)
    requires score >= 0
    ensures c.score >= 0
    ensures c.laddoos == Select(laddoos, CatchBy(box))
    ensures c.caught == |laddoos| - |c.laddoos|
    ensures score + c.caught > 0 ==>
              c.badObjects == Select(badObjects, CatchBy(box)) &&
              c.hits == |badObjects| - |c.badObjects| &&
              c.score == score + c.caught - (if c.hits < score + c.caught then c.hits else score + c.caught)
    ensures score + c.caught == 0 ==> c.badObjects == badObjects && c.hits == 0 && c.score == 0
  {
    var kept := Select(laddoos, CatchBy(box));
    var caught := Dropped(laddoos, CatchBy(box));
    var scored := score + caught;
    if scored > 0 then
      var hits := Dropped(badObjects, CatchBy(box));
      Catches(kept, Select(badObjects, CatchBy(box)), AfterHazards(scored, hits), caught, hits)
    else
      Catches(kept, badObjects, scored, caught, 0)
  }

  class Game {
    var gameRunning: bool
    var score: int
    var timeLeft: int
    /** Whether the one-second countdown interval is scheduled. */
    var timerActive: bool
    var phase: Phase
    var catcher: Catcher
    var laddoos: seq<Entity>
    var badObjects: seq<Entity>

    /** Input state, as left by the keyboard, touch and button event handlers. */
    var keys: map<string, bool>
    var touchLeft: bool
    var touchRight: bool
    var touchStartX: real
    var touchCurrentX: real
    var isTouching: bool

    /** Feedback cues: the catcher picture and the "-1" indicator. */
    var charImage: CharImage
    var showMinusOne: bool

    /**
     * The round's bookkeeping agrees with its phase: a running round has its timer on,
     * time left and the target not yet reached.
     */
    ghost predicate RoundValid()
      reads this`score, this`timeLeft, this`timerActive, this`gameRunning, this`phase
    {
      0 <= score && 0 <= timeLeft <= RoundSeconds &&
      timerActive == gameRunning &&
      (gameRunning ==> phase == Running && 1 <= timeLeft && score < TargetScore)
    }

    /** The catcher keeps its fixed size, speed and row, and stays on the field. */
    ghost predicate CatcherValid()
      reads this`catcher
    {
      catcher.y == CatcherY && catcher.width == CatcherSize &&
      catcher.height == CatcherSize && catcher.speed == CatcherStep &&
      0.0 <= catcher.x <= GameWidth - catcher.width
    }

    /**
     * The session invariant: the score is never negative, the clock stays within the
     * round, a running session has time left and has not yet reached the target, the
     * interval runs exactly while the session does, and the catcher keeps its shape and
     * stays on the field.
     */
    ghost predicate Valid()
      reads this`score, this`timeLeft, this`timerActive, this`gameRunning, this`phase, this`catcher
    {
      RoundValid() && CatcherValid()
    }

    constructor ()
      ensures Valid()
      ensures !gameRunning && score == 0 && timeLeft == RoundSeconds && !timerActive && phase == Idle
      ensures catcher == Catcher(CatcherHomeX, CatcherY, CatcherSize, CatcherSize, CatcherStep)
      ensures laddoos == [] && badObjects == []
      ensures keys == map[] && !touchLeft && !touchRight && !isTouching
      ensures touchStartX == 0.0 && touchCurrentX == 0.0
      ensures charImage == CharOpen && !showMinusOne
    {
      gameRunning := false;
      score := 0;
      timeLeft := RoundSeconds;
      timerActive := false;
      phase := Idle;
      catcher := Catcher(CatcherHomeX, CatcherY, CatcherSize, CatcherSize, CatcherStep);
      laddoos := [];
      badObjects := [];
      keys := map[];
      touchLeft, touchRight := false, false;
      touchStartX, touchCurrentX := 0.0, 0.0;
      isTouching := false;
      charImage := CharOpen;
      showMinusOne := false;
    }

    /** Leaves the start or end screen for the three-second countdown. */
    method StartGame()
      requires Valid() && !gameRunning
      modifies this`phase
      ensures Valid() && phase == CountingDown
    {
      phase := CountingDown;
    }

    /** The end of the countdown: a fresh round starts and the interval is scheduled. */
    method StartActualGame()
      requires Valid()
      modifies this`gameRunning, this`score, this`timeLeft, this`laddoos, this`badObjects,
               this`timerActive, this`phase
      ensures Valid()
      ensures gameRunning && score == 0 && timeLeft == RoundSeconds
      ensures laddoos == [] && badObjects == []
      ensures timerActive && phase == Running
    {
      gameRunning := true;
      score := 0;
      timeLeft := RoundSeconds;
      laddoos := [];
      badObjects := [];
      phase := Running;
      timerActive := true;
    }

    /** One firing of the one-second interval. */
    method TimerTick()
      requires Valid() && timerActive
      modifies this`timeLeft, this`gameRunning, this`timerActive, this`phase
      ensures Valid()
      ensures timeLeft == old(timeLeft) - 1
      ensures timeLeft <= 0 ==> !gameRunning && !timerActive &&
                                phase == (if score >= TargetScore then Won else Lost)
      ensures timeLeft > 0 ==> gameRunning && timerActive && phase == old(phase)
      // A running session is always below the target, so running out of time loses.
      ensures timeLeft <= 0 ==> phase == Lost
    {
      timeLeft := timeLeft - 1;
      if timeLeft <= 0 {
        EndGame();
      }
    }

    /** Stops the round and the interval; a win exactly when the target is reached. */
    method EndGame()
      modifies this`gameRunning, this`timerActive, this`phase
      ensures !gameRunning && !timerActive
      ensures phase == (if score >= TargetScore then Won else Lost)
    {
      gameRunning := false;
      timerActive := false;
      if score >= TargetScore {
        phase := Won;
      } else {
        phase := Lost;
      }
    }

    /** Back to the start screen with a cleared session and a centred catcher. */
    method ResetGame()
      requires Valid()
      modifies this`gameRunning, this`score, this`timeLeft, this`laddoos, this`badObjects,
               this`timerActive, this`catcher, this`phase
      ensures Valid()
      ensures !gameRunning && score == 0 && timeLeft == RoundSeconds
      ensures laddoos == [] && badObjects == [] && !timerActive
      ensures catcher == old(catcher).(x := CatcherHomeX)
      ensures phase == Idle
    {
      gameRunning := false;
      score := 0;
      timeLeft := RoundSeconds;
      laddoos := [];
      badObjects := [];
      timerActive := false;
      catcher := catcher.(x := CatcherHomeX);
      phase := Idle;
    }

    /** "Play again": the same cleared session, then straight into the countdown. */
    method RestartGame()
      requires Valid()
      modifies this`gameRunning, this`score, this`timeLeft, this`laddoos, this`badObjects,
               this`timerActive, this`catcher, this`phase
      ensures Valid()
      ensures !gameRunning && score == 0 && timeLeft == RoundSeconds
      ensures laddoos == [] && badObjects == [] && !timerActive
      ensures catcher == old(catcher).(x := CatcherHomeX)
      ensures phase == CountingDown
    {
      gameRunning := false;
      score := 0;
      timeLeft := RoundSeconds;
      laddoos := [];
      badObjects := [];
      timerActive := false;
      catcher := catcher.(x := CatcherHomeX);
      StartGame();
    }

    /** The mouth timeout of a catch: the catcher picture goes back to the resting one. */
    method MouthTimeout()
      modifies this`charImage
      ensures charImage == CharOpen
    {
      charImage := CharOpen;
    }

    /** The timeout of the "-1" cue: the indicator is hidden again. */
    method MinusOneTimeout()
      modifies this`showMinusOne
      ensures !showMinusOne
    {
      showMinusOne := false;
    }

    /**
     * Where this frame's input takes the catcher: its position moved by the summed key,
     * drag and button steps and clamped to the field; nothing else about it changes.
     */
    function Steered(): (c: Catcher)
      reads this`catcher, this`keys, this`isTouching, this`touchStartX, this`touchCurrentX,
            this`touchLeft, this`touchRight
      ensures c == catcher.(x := c.x)
      ensures catcher.width <= GameWidth ==> 0.0 <= c.x <= GameWidth - catcher.width
    {
      catcher.(x := Clamp(0.0, GameWidth - catcher.width,
                          catcher.x + Steer(LeftKeyHeld(keys), RightKeyHeld(keys), isTouching,
                                            touchStartX, touchCurrentX, touchLeft, touchRight,
                                            catcher.speed)))
    }

    /** Where this frame's drag leaves the anchor: half the catcher's drag move further. */
    function DraggedAnchor(): (a: real)
      reads this`isTouching, this`touchStartX, this`touchCurrentX
      ensures DragMove(isTouching, touchStartX, touchCurrentX) != 0.0 ==>
                touchCurrentX - a == 0.6 * (touchCurrentX - touchStartX)
      ensures DragMove(isTouching, touchStartX, touchCurrentX) == 0.0 ==> a == touchStartX
    {
      touchStartX + DragMove(isTouching, touchStartX, touchCurrentX) / 2.0
    }

    /**
     * Moves the catcher by the keys, the drag and the buttons, then clamps it to the
     * field; the drag anchor advances by half the drag move.
     */
    method HandleMovement()
      requires Valid()
      modifies this`catcher, this`touchStartX
      ensures Valid()
      ensures catcher == old(Steered()) && touchStartX == old(DraggedAnchor())
    {
      var x := catcher.x;
      if LeftKeyHeld(keys) {
        x := x - catcher.speed;
      }
      if RightKeyHeld(keys) {
        x := x + catcher.speed;
      }
      if isTouching {
        var touchDelta := touchCurrentX - touchStartX;
        if Abs(touchDelta) > DragThreshold {
          var movement := touchDelta * DragSensitivity;
          x := x + movement;
          touchStartX := touchStartX + movement * 0.5;
        }
      }
      if touchLeft {
        x := x - catcher.speed;
      }
      if touchRight {
        x := x + catcher.speed;
      }
      catcher := catcher.(x := Clamp(0.0, GameWidth - catcher.width, x));
    }

    /** Appends a new laddoo at the end of the list when the chance draw says so. */
    method SpawnLaddoos(d: Draws)
      requires d.InUnit()
      modifies this`laddoos
      ensures laddoos == old(laddoos) + LaddooSpawn(d)
    {
      if d.laddooChance < LaddooSpawnRate {
        laddoos := laddoos + [NewLaddoo(d.laddooX, d.laddooSpeed)];
      }
    }

    /** Appends a new hazard of a drawn kind at the end of the list when the chance draw says so. */
    method SpawnBadObjects(d: Draws)
      requires d.InUnit()
      modifies this`badObjects
      ensures badObjects == old(badObjects) + HazardSpawn(d)
    {
      if d.hazardChance < BadObjectSpawnRate {
        badObjects := badObjects + [NewBadObject(d.hazardKind, d.hazardX, d.hazardSpeed)];
      }
    }

    /**
     * Moves every laddoo down by its own speed and splices out, back to front, those that
     * have left the field.
     */
    method UpdateLaddoos()
      modifies this`laddoos
      ensures laddoos == Select(old(laddoos), Fall)
    {
      var i := |laddoos| - 1;
      while i >= 0
        invariant -1 <= i < |old(laddoos)|
        invariant laddoos == old(laddoos)[..i + 1] + Select(old(laddoos)[i + 1..], Fall)
        decreases i
      {
        AtCursor(old(laddoos), laddoos, i, Fall);
        ghost var cur := laddoos;
        var laddoo := Moved(laddoos[i]);
        laddoos := laddoos[i := laddoo];
        if laddoo.y > GameHeight {
          DropStep(old(laddoos), cur, i, Fall);
          laddoos := laddoos[..i] + laddoos[i + 1..];
        } else {
          KeepStep(old(laddoos), cur, i, Fall);
        }
        i := i - 1;
      }
    }

    /**
     * Moves every hazard down by its own speed and splices out, back to front, those that
     * have left the field.
     */
    method UpdateBadObjects()
      modifies this`badObjects
      ensures badObjects == Select(old(badObjects), Fall)
    {
      var i := |badObjects| - 1;
      while i >= 0
        invariant -1 <= i < |old(badObjects)|
        invariant badObjects == old(badObjects)[..i + 1] + Select(old(badObjects)[i + 1..], Fall)
        decreases i
      {
        AtCursor(old(badObjects), badObjects, i, Fall);
        ghost var cur := badObjects;
        var badObject := Moved(badObjects[i]);
        badObjects := badObjects[i := badObject];
        if badObject.y > GameHeight {
          DropStep(old(badObjects), cur, i, Fall);
          badObjects := badObjects[..i] + badObjects[i + 1..];
        } else {
          KeepStep(old(badObjects), cur, i, Fall);
        }
        i := i - 1;
      }
    }

    /**
     * One frame of play. Nothing happens unless the round is running; otherwise the
     * catcher moves, each stream may spawn one entity, everything falls and leaves the
     * field, and the catches are resolved against the moved catcher.
     */
    method Update(d: Draws)
      requires Valid() && d.InUnit()
      modifies this`catcher, this`touchStartX, this`laddoos, this`badObjects, this`score,
               this`gameRunning, this`timerActive, this`phase, this`charImage, this`showMinusOne
      ensures Valid()
      ensures !old(gameRunning) ==> unchanged(this)
      ensures old(gameRunning) ==> catcher == old(Steered()) && touchStartX == old(DraggedAnchor())
      ensures old(gameRunning) ==>
        var c := Resolve(old(score), Select(old(laddoos) + LaddooSpawn(d), Fall),
                         Select(old(badObjects) + HazardSpawn(d), Fall), catcher.Box());
        laddoos == c.laddoos && badObjects == c.badObjects && score == c.score &&
        (gameRunning <==> old(score) + c.caught < TargetScore) &&
        phase == (if old(score) + c.caught < TargetScore then Running else Won)
    {
      if !gameRunning {
        return;
      }
      HandleMovement();
      ghost var moved := catcher;
      SpawnLaddoos(d);
      SpawnBadObjects(d);
      UpdateLaddoos();
      UpdateBadObjects();
      CheckCollisions();
      assert catcher == moved;
    }

    /**
     * Resolves the frame's catches. Every laddoo overlapping the catcher is removed and
     * scores a point, and reaching the target ends the round as a win; the pass does not
     * stop there. Then, only if the score is positive at that moment, every hazard
     * overlapping the catcher is removed and costs a point, the score stopping at zero.
     */
    method CheckCollisions()
      requires Valid()
      modifies this`laddoos, this`badObjects, this`score, this`gameRunning, this`timerActive,
               this`phase, this`charImage, this`showMinusOne
      ensures Valid()
      ensures var c := Resolve(old(score), old(laddoos), old(badObjects), catcher.Box());
        laddoos == c.laddoos && badObjects == c.badObjects && score == c.score &&
        showMinusOne == (c.hits > 0 || old(showMinusOne)) &&
        charImage == (if c.caught > 0 || c.hits > 0 then CharClosed else old(charImage)) &&
        if c.caught > 0 && old(score) + c.caught >= TargetScore then
          !gameRunning && !timerActive && phase == Won
        else
          gameRunning == old(gameRunning) && timerActive == old(timerActive) && phase == old(phase)
    {
      CatchLaddoos();
      if score > 0 {
        HitHazards();
      }
    }

    /**
     * The laddoo pass of the catch check: back to front, every laddoo overlapping the
     * catcher is spliced out and scores a point; each catch that leaves the score at or
     * above the target ends the round, and the pass goes on regardless.
     */
    method CatchLaddoos()
      requires RoundValid()
      modifies this`laddoos, this`score, this`gameRunning, this`timerActive, this`phase, this`charImage
      ensures laddoos == Select(old(laddoos), CatchBy(catcher.Box()))
      ensures score == old(score) + Dropped(old(laddoos), CatchBy(catcher.Box()))
      ensures charImage == (if score > old(score) then CharClosed else old(charImage))
      ensures if score > old(score) && score >= TargetScore
              then !gameRunning && !timerActive && phase == Won
              else gameRunning == old(gameRunning) && timerActive == old(timerActive) && phase == old(phase)
      ensures RoundValid()
    {
      var box := catcher.Box();
      ghost var s0, score0, image0 := laddoos, score, charImage;
      ghost var running0, timer0, phase0 := gameRunning, timerActive, phase;
      var i := |laddoos| - 1;
      while i >= 0
        invariant -1 <= i < |s0|
        invariant laddoos == s0[..i + 1] + Select(s0[i + 1..], CatchBy(box))
        invariant score == score0 + Dropped(s0[i + 1..], CatchBy(box))
        invariant charImage == (if score > score0 then CharClosed else image0)
        invariant if score > score0 && score >= TargetScore
                  then !gameRunning && !timerActive && phase == Won
                  else gameRunning == running0 && timerActive == timer0 && phase == phase0
        decreases i
      {
        CatchStep(s0, laddoos, i, box);
        var laddoo := laddoos[i];
        if IsColliding(box, laddoo.Box()) {
          laddoos := laddoos[..i] + laddoos[i + 1..];
          score := score + 1;
          charImage := CharClosed;
          if score >= TargetScore {
            EndGame();
          }
        }
        i := i - 1;
      }
    }

    /**
     * The hazard pass of the catch check, entered only with a positive score: back to
     * front, every hazard overlapping the catcher is spliced out, costs a point (never
     * below zero) and raises the "-1" cue.
     */
    method HitHazards()
      requires RoundValid() && score > 0
      modifies this`badObjects, this`score, this`showMinusOne, this`charImage
      ensures RoundValid()
      ensures badObjects == Select(old(badObjects), CatchBy(catcher.Box()))
      ensures var hits := Dropped(old(badObjects), CatchBy(catcher.Box()));
        score == AfterHazards(old(score), hits) &&
        showMinusOne == (hits > 0 || old(showMinusOne)) &&
        charImage == (if hits > 0 then CharClosed else old(charImage))
    {
      var box := catcher.Box();
      var i := |badObjects| - 1;
      while i >= 0
        invariant -1 <= i < |old(badObjects)|
        invariant badObjects == old(badObjects)[..i + 1] + Select(old(badObjects)[i + 1..], CatchBy(box))
        invariant var hits := Dropped(old(badObjects)[i + 1..], CatchBy(box));
          score == AfterHazards(old(score), hits) &&
          showMinusOne == (hits > 0 || old(showMinusOne)) &&
          charImage == (if hits > 0 then CharClosed else old(charImage))
        decreases i
      {
        CatchStep(old(badObjects), badObjects, i, box);
        var badObject := badObjects[i];
        if IsColliding(box, badObject.Box()) {
          badObjects := badObjects[..i] + badObjects[i + 1..];
          score := if score - 1 > 0 then score - 1 else 0;
          showMinusOne := true;
          charImage := CharClosed;
        }
        i := i - 1;
      }
    }
  }
}
