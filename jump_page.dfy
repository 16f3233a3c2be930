/** The "jump" eye exercise: a character pops up in one of the four quarters
    of the screen every 1.5 s, never twice in a row in the same quarter, and
    after 40 s the exercise is logged and the page returns to the menu. */
module JumpPage {
  import opened Wrappers

  const FallbackMessage: string := "すごい！ たくさん みつけたね！"

  /** The quarter shown on a tick: the draw (`Math.floor(Math.random() * 4)`)
      unless it repeats the previous quarter, in which case the next one
      round the four. */
  function PickQuadrant(draw: int, previous: int): (q: int)
    requires 0 <= draw < 4
    ensures 0 <= q < 4
    ensures q != previous
    ensures draw != previous ==> q == draw
    ensures draw == previous ==> q == (draw + 1) % 4
  {
    if draw == previous then (draw + 1) % 4 else draw
  }

  /** Every quarter stays reachable: whatever the previous quarter, each of
      the other three is picked by some draw. */
  lemma EveryOtherQuadrantReachable(previous: int, target: int)
    requires 0 <= target < 4 && target != previous
    ensures exists draw :: 0 <= draw < 4 && PickQuadrant(draw, previous) == target
  {
    assert PickQuadrant(target, previous) == target;
  }

  /** The quarter's top-left corner, in percent: the lower half for 2 and 3,
      the right half for the odd ones. */
  datatype Base = Base(top: int, left: int)

  function BaseOffset(q: int): (b: Base)
    requires 0 <= q < 4
    ensures b.top == 50 <==> q >= 2
    ensures b.left == 50 <==> q % 2 == 1
    ensures b.top in {0, 50} && b.left in {0, 50}
  {
    Base(if q >= 2 then 50 else 0, if q % 2 == 1 then 50 else 0)
  }

  /** The four quarters have four different corners. */
  lemma BaseOffsetInjective(p: int, q: int)
    requires 0 <= p < 4 && 0 <= q < 4 && p != q
    ensures BaseOffset(p) != BaseOffset(q)
  {
  }

  /** One coordinate: 10% to 40% into the quarter, from `Math.random()`. */
  function Coordinate(base: int, random: real): (c: real)
    requires 0.0 <= random < 1.0
    ensures base as real + 10.0 <= c < base as real + 40.0
  {
    base as real + random * 30.0 + 10.0
  }

  /** Positions in different quarters never coincide: each quarter's positions
      lie in its own 30% box. */
  lemma PositionsSeparated(p: int, q: int, r1: real, r2: real, r3: real, r4: real)
    requires 0 <= p < 4 && 0 <= q < 4 && p != q
    requires 0.0 <= r1 < 1.0 && 0.0 <= r2 < 1.0 && 0.0 <= r3 < 1.0 && 0.0 <= r4 < 1.0
    ensures Coordinate(BaseOffset(p).top, r1) != Coordinate(BaseOffset(q).top, r3)
         || Coordinate(BaseOffset(p).left, r2) != Coordinate(BaseOffset(q).left, r4)
  {
    BaseOffsetInjective(p, q);
  }

  class Game {
    const selectedChildId: Option<int>
    var isStarted: bool
    var isCompleted: bool
    var message: string
    var showCharacter: bool
    var top: real
    var left: real
    var prevQuadrant: int       // the closure variable of the running loop
    var loopLive: bool          // the 1.5 s spawn interval
    var endTimerLive: bool      // the 40 s end timer
    var navigationScheduled: bool
    var logRequests: nat

    /** Both effects run exactly while the game is started and not
        completed; the end timer may already have fired. */
    ghost predicate Valid()
      reads this
    {
      && (loopLive <==> isStarted && !isCompleted)
      && (endTimerLive ==> loopLive)
      && -1 <= prevQuadrant < 4
      && (isCompleted ==> isStarted && navigationScheduled)
    }

    constructor (selectedChildId: Option<int>)
      ensures Valid() && this.selectedChildId == selectedChildId
      ensures !isStarted && !isCompleted && !loopLive && !endTimerLive
      ensures message == "" && !showCharacter && !navigationScheduled && logRequests == 0
    {
      this.selectedChildId := selectedChildId;
      isStarted := false;
      isCompleted := false;
      message := "";
      showCharacter := false;
      top := 50.0;
      left := 50.0;
      prevQuadrant := -1;
      loopLive := false;
      endTimerLive := false;
      navigationScheduled := false;
      logRequests := 0;
    }

    /** The start button: both effects start, and the loop's closure begins
        with no previous quarter, so the first draw is never altered. */
    method Start()
      requires Valid() && !isStarted
      modifies this
      ensures Valid() && isStarted && !isCompleted
      ensures loopLive && endTimerLive
      ensures prevQuadrant == -1
      ensures message == old(message) && logRequests == old(logRequests)
    {
      isStarted := true;
      prevQuadrant := -1;
      loopLive := true;
      endTimerLive := true;
    }

    /** One tick of the spawn loop with its three random numbers. */
    method SpawnTick(draw: int, randomTop: real, randomLeft: real) returns (q: int)
      requires Valid() && loopLive
      requires 0 <= draw < 4 && 0.0 <= randomTop < 1.0 && 0.0 <= randomLeft < 1.0
      modifies this
      ensures Valid()
      ensures q == PickQuadrant(draw, old(prevQuadrant)) && q != old(prevQuadrant)
      ensures prevQuadrant == q
      ensures top == Coordinate(BaseOffset(q).top, randomTop)
      ensures left == Coordinate(BaseOffset(q).left, randomLeft)
      ensures showCharacter
      ensures isStarted == old(isStarted) && isCompleted == old(isCompleted)
      ensures loopLive && endTimerLive == old(endTimerLive) && message == old(message)
    {
      q := draw;
      if q == prevQuadrant {
        q := (q + 1) % 4;
      }
      prevQuadrant := q;
      var base := BaseOffset(q);
      top := Coordinate(base.top, randomTop);
      left := Coordinate(base.left, randomLeft);
      showCharacter := true;
    }

    /** The 1.2 s timeout after a spawn. */
    method HideCharacter()
      modifies this
      ensures !showCharacter
      ensures isStarted == old(isStarted) && isCompleted == old(isCompleted)
      ensures loopLive == old(loopLive) && endTimerLive == old(endTimerLive)
      ensures prevQuadrant == old(prevQuadrant) && message == old(message)
      ensures navigationScheduled == old(navigationScheduled)
    {
      showCharacter := false;
    }

    /** `handleComplete`, given the outcome of the exercise log raced against
        its 3 s timeout. Without a selected child (`!selectedChildId`, which
        also holds for id 0) nothing happens; otherwise the page completes
        whatever the log's outcome, both effects are cleaned up and the return
        to the menu is scheduled. It is reached only through the end timer,
        so the game has started. */
    method HandleComplete(log: Call<string>)
      requires Valid() && isStarted
      modifies this
      ensures Valid()
      ensures selectedChildId.None? || selectedChildId == Some(0) ==>
        && isCompleted == old(isCompleted) && message == old(message)
        && loopLive == old(loopLive) && endTimerLive == old(endTimerLive)
        && logRequests == old(logRequests)
        && navigationScheduled == old(navigationScheduled)
      ensures selectedChildId.Some? && selectedChildId != Some(0) ==>
        && isCompleted && navigationScheduled && !loopLive && !endTimerLive
        && logRequests == old(logRequests) + 1
        && message == (if log.Done? then log.value else FallbackMessage)
    {
      if selectedChildId.None? || selectedChildId == Some(0) {
        return;
      }
      logRequests := logRequests + 1;
      if log.Done? {
        message := log.value;
      } else {
        message := FallbackMessage;
      }
      isCompleted := true;
      navigationScheduled := true;
      // `isCompleted` changed: both effects run their cleanup.
      loopLive := false;
      endTimerLive := false;
    }

    /** The 40 s end timer fires and calls the latest `handleComplete`. */
    method EndTimerFires(log: Call<string>)
      requires Valid() && endTimerLive
      modifies this
      ensures Valid() && !endTimerLive
      ensures selectedChildId.Some? && selectedChildId != Some(0) ==> isCompleted && !loopLive
      ensures selectedChildId.None? || selectedChildId == Some(0) ==> !isCompleted && loopLive
    {
      endTimerLive := false;
      HandleComplete(log);
    }
  }

  /** Two consecutive ticks always show different quarters, and a game whose
      end timer fires without a selected child never completes: its spawn loop
      keeps running with no end timer left to stop it. */
  method TwoTicks(childId: Option<int>, d1: int, d2: int) returns (q1: int, q2: int, running: bool)
    requires 0 <= d1 < 4 && 0 <= d2 < 4
    ensures q1 == d1 && q2 != q1 && 0 <= q2 < 4
    ensures running <==> childId.None? || childId == Some(0)
  {
    var game := new Game(childId);
    game.Start();
    q1 := game.SpawnTick(d1, 0.5, 0.5);
    q2 := game.SpawnTick(d2, 0.5, 0.5);
    game.EndTimerFires(Failed(""));
    running := game.loopLive && !game.isCompleted;
  }
}
