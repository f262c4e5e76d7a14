/**
 * Worked sessions: concrete rounds driven through the game's own methods, each stating
 * what the session looks like afterwards.
 */
module Scenarios {
  import opened Geometry
  import opened Entities
  import opened Passes
  import opened LaddooGame

  /** A laddoo resting just above the centred catcher's top edge, overlapping it. */
  const OverlappingLaddoo: Entity := Entity(160.0, 560.0, EntitySize, EntitySize, 3.0, Laddoo)

  /** A hazard in the same spot. */
  const OverlappingBall: Entity := Entity(160.0, 560.0, EntitySize, EntitySize, 3.0, Ball)

  /** A laddoo far away from the catcher, near the top of the field. */
  const DistantLaddoo: Entity := Entity(10.0, 20.0, EntitySize, EntitySize, 3.0, Laddoo)

  /** A fresh session whose round has just started. */
  method RunningSession() returns (g: Game)
    ensures fresh(g) && g.Valid()
    ensures g.gameRunning && g.timerActive && g.phase == Running
    ensures g.score == 0 && g.timeLeft == RoundSeconds && g.laddoos == [] && g.badObjects == []
    ensures g.catcher == Catcher(CatcherHomeX, CatcherY, CatcherSize, CatcherSize, CatcherStep)
    ensures !g.showMinusOne && g.charImage == CharOpen
  {
    g := new Game();
    g.StartActualGame();
  }

  /** The centred catcher's box. */
  function HomeBox(): (b: Rect)
    ensures b == Rect(157.5, 587.0, 60.0, 60.0)
  {
    Catcher(CatcherHomeX, CatcherY, CatcherSize, CatcherSize, CatcherStep).Box()
  }

  /** A collision pass over one entry that overlaps the box removes it and counts it. */
  lemma CaughtAlone(e: Entity, box: Rect)
    requires IsColliding(box, e.Box())
    ensures Select([e], CatchBy(box)) == [] && Dropped([e], CatchBy(box)) == 1
  {
    assert [e][1..] == [];
  }

  /** A collision pass over one entry clear of the box keeps it. */
  lemma MissedAlone(e: Entity, box: Rect)
    requires !IsColliding(box, e.Box())
    ensures Select([e], CatchBy(box)) == [e] && Dropped([e], CatchBy(box)) == 0
  {
    assert [e][1..] == [];
  }

  /**
   * A laddoo overlapping the centred catcher is caught by one catch check: it leaves the
   * list and the score goes from 0 to 1.
   */
  method CatchOneLaddoo() returns (score: int, left: nat, running: bool)
    ensures score == 1 && left == 0 && running
  {
    var g := RunningSession();
    g.laddoos := [OverlappingLaddoo];
    CaughtAlone(OverlappingLaddoo, HomeBox());
    g.CheckCollisions();
    score, left, running := g.score, |g.laddoos|, g.gameRunning;
  }

  /**
   * With the score at 0 a hazard overlapping the catcher costs nothing, and because the
   * hazard pass is skipped altogether it also stays in the list.
   */
  method HazardAtZeroStays() returns (score: int, hazards: seq<Entity>, cue: bool)
    ensures score == 0 && hazards == [OverlappingBall] && !cue
  {
    var g := RunningSession();
    g.badObjects := [OverlappingBall];
    g.CheckCollisions();
    score, hazards, cue := g.score, g.badObjects, g.showMinusOne;
  }

  /** With the score at 3 an overlapping hazard is removed, costs a point and shows "-1". */
  method HazardCostsAPoint() returns (score: int, left: nat, cue: bool)
    ensures score == 2 && left == 0 && cue
  {
    var g := RunningSession();
    g.score := 3;
    g.badObjects := [OverlappingBall];
    CaughtAlone(OverlappingBall, HomeBox());
    g.CheckCollisions();
    score, left, cue := g.score, |g.badObjects|, g.showMinusOne;
  }

  /** Running out of time one laddoo short of the target loses the round. */
  method TimeRunsOutShort() returns (phase: Phase, running: bool, timer: bool)
    ensures phase == Lost && !running && !timer
  {
    var g := RunningSession();
    g.score := 9;
    g.timeLeft := 1;
    g.TimerTick();
    phase, running, timer := g.phase, g.gameRunning, g.timerActive;
  }

  /**
   * Ending a round that stands at the target records a win. The clock can never be what
   * ends such a round, since a running round is always below the target.
   */
  method EndAtTarget() returns (phase: Phase, running: bool, timer: bool)
    ensures phase == Won && !running && !timer
  {
    var g := RunningSession();
    g.score := TargetScore;
    g.EndGame();
    phase, running, timer := g.phase, g.gameRunning, g.timerActive;
  }

  /**
   * The tenth laddoo ends the round at once as a win, with seven seconds still on the
   * clock: the interval is cancelled and the clock is left where it was.
   */
  method TenthLaddooWins() returns (phase: Phase, running: bool, timer: bool, timeLeft: int)
    ensures phase == Won && !running && !timer && timeLeft == 7
  {
    var g := RunningSession();
    g.score := 9;
    g.timeLeft := 7;
    g.laddoos := [OverlappingLaddoo];
    CaughtAlone(OverlappingLaddoo, HomeBox());
    g.CheckCollisions();
    phase, running, timer, timeLeft := g.phase, g.gameRunning, g.timerActive, g.timeLeft;
  }

  /**
   * The win check does not stop the catch check: a hazard caught in the same frame as the
   * tenth laddoo still costs its point, so the round is won with a score of 9.
   */
  method WinThenHazard() returns (phase: Phase, score: int)
    ensures phase == Won && score == 9
  {
    var g := RunningSession();
    g.score := 9;
    g.laddoos := [OverlappingLaddoo];
    g.badObjects := [OverlappingBall];
    CaughtAlone(OverlappingLaddoo, HomeBox());
    CaughtAlone(OverlappingBall, HomeBox());
    g.CheckCollisions();
    phase, score := g.phase, g.score;
  }

  /** A laddoo clear of the catcher is left alone by the catch check. */
  method DistantLaddooStays() returns (score: int, laddoos: seq<Entity>)
    ensures score == 0 && laddoos == [DistantLaddoo]
  {
    var g := RunningSession();
    g.laddoos := [DistantLaddoo];
    MissedAlone(DistantLaddoo, HomeBox());
    g.CheckCollisions();
    score, laddoos := g.score, g.laddoos;
  }

  /** Resetting twice leaves the session exactly as resetting once does. */
  method ResetTwice(g: Game) returns (same: bool)
    requires g.Valid()
    modifies g
    ensures same
    ensures g.Valid() && !g.gameRunning && !g.timerActive && g.phase == Idle
    ensures g.score == 0 && g.timeLeft == RoundSeconds && g.laddoos == [] && g.badObjects == []
    ensures g.catcher == old(g.catcher).(x := CatcherHomeX)
  {
    g.ResetGame();
    var once := (g.gameRunning, g.score, g.timeLeft, g.laddoos, g.badObjects,
                 g.timerActive, g.catcher, g.phase);
    g.ResetGame();
    same := (g.gameRunning, g.score, g.timeLeft, g.laddoos, g.badObjects,
             g.timerActive, g.catcher, g.phase) == once;
  }
}
