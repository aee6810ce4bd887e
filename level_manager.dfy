/** The level sequence and the per-level bookkeeping (game/level_manager.rs):
    which level is being played, how long it has run, which collectibles
    have been picked up, whether the boss is down, and the completion
    latches. */
module LevelManagers {
  import opened Core
  import opened Levels
  import opened WinConditions

  /** The number of collected items among `cs`. */
  function Collected(cs: seq<Collectible>): (n: nat)
    ensures n <= |cs|
    ensures n == 0 <==> forall i :: 0 <= i < |cs| ==> !cs[i].collected
  {
    if cs == [] then 0 else Collected(cs[..|cs| - 1]) + (if cs[|cs| - 1].collected then 1 else 0)
  }

  /** Picking up an item that was still there adds exactly one to the
      number collected. */
  lemma {:induction false} CollectOneMore(cs: seq<Collectible>, i: nat)
    requires i < |cs| && !cs[i].collected
    ensures Collected(cs[i := cs[i].(collected := true)]) == Collected(cs) + 1
  {
    var cs' := cs[i := cs[i].(collected := true)];
    var n := |cs| - 1;
    if i < n {
      assert cs'[..n] == cs[..n][i := cs[i].(collected := true)];
      CollectOneMore(cs[..n], i);
    } else {
      assert cs'[..n] == cs[..n];
    }
  }

  /** The collectibles with every flag cleared. */
  function Uncollected(cs: seq<Collectible>): (r: seq<Collectible>)
    ensures |r| == |cs| && Collected(r) == 0
    ensures forall i :: 0 <= i < |cs| ==> r[i].position == cs[i].position
  {
    seq(|cs|, i requires 0 <= i < |cs| => cs[i].(collected := false))
  }

  class LevelManager {
    var levels: seq<Level>
    var currentLevelIndex: nat
    var levelTimeElapsed: real
    var itemsCollected: nat
    var bossDefeated: bool
    var levelComplete: bool
    var allLevelsComplete: bool

    /** There is a current level, and the item counter agrees with that
        level's collectible flags. */
    ghost predicate Valid()
      reads this
    {
      currentLevelIndex < |levels| && itemsCollected == Collected(levels[currentLevelIndex].collectibles)
    }

    /** `LevelManager::new`, with the level list as a parameter: at the
        first level, nothing done yet. The game's own levels start with no
        item collected. */
    constructor (ls: seq<Level>)
      requires ls != [] && Collected(ls[0].collectibles) == 0
      ensures Valid() && levels == ls && currentLevelIndex == 0
      ensures levelTimeElapsed == 0.0 && itemsCollected == 0
      ensures !bossDefeated && !levelComplete && !allLevelsComplete
    {
      levels := ls;
      currentLevelIndex := 0;
      levelTimeElapsed := 0.0;
      itemsCollected := 0;
      bossDefeated := false;
      levelComplete := false;
      allLevelsComplete := false;
    }

    /** `get_current_level`. */
    function GetCurrentLevel(): (l: Level)
      reads this
      requires Valid()
      ensures l == levels[currentLevelIndex] && l in levels
    {
      levels[currentLevelIndex]
    }

    /** `update`: the level clock runs only until the level is complete. */
    method Update(dt: real)
      modifies this
      ensures levelTimeElapsed == old(levelTimeElapsed) + (if levelComplete then 0.0 else dt)
      ensures levels == old(levels) && currentLevelIndex == old(currentLevelIndex)
      ensures itemsCollected == old(itemsCollected) && bossDefeated == old(bossDefeated)
      ensures levelComplete == old(levelComplete) && allLevelsComplete == old(allLevelsComplete)
    {
      if !levelComplete {
        levelTimeElapsed := levelTimeElapsed + dt;
      }
    }

    /** The facts the current level's objective is checked against. */
    function Progress(playerPos: Vec2, enemyCount: nat): Status
      reads this
    {
      Status(playerPos, enemyCount, levelTimeElapsed, itemsCollected, bossDefeated)
    }

    /** `check_win_condition`: the objective's verdict and progress, and the
        completion latch set once the objective is met (never cleared
        here). */
    method CheckWinCondition(playerPos: Vec2, enemyCount: nat, length: Vec2 -> real)
      returns (complete: bool, progress: WinProgress)
      requires Valid()
      modifies this
      ensures Valid()
      ensures (complete, progress) == CheckCompletion(levels[currentLevelIndex].winCondition,
                                                      old(Progress(playerPos, enemyCount)), length)
      ensures levelComplete == (old(levelComplete) || complete)
      ensures levels == old(levels) && currentLevelIndex == old(currentLevelIndex)
      ensures levelTimeElapsed == old(levelTimeElapsed) && itemsCollected == old(itemsCollected)
      ensures bossDefeated == old(bossDefeated) && allLevelsComplete == old(allLevelsComplete)
    {
      var level := levels[currentLevelIndex];
      var r := CheckCompletion(level.winCondition, Progress(playerPos, enemyCount), length);
      complete, progress := r.0, r.1;
      if complete && !levelComplete {
        levelComplete := true;
      }
    }

    /** `collect_item`: an item of the current level that is still there is
        picked up and counted; any other index changes nothing. */
    method CollectItem(index: nat) returns (ok: bool)
      requires Valid()
      modifies this
      ensures Valid()
      ensures var cs := old(levels[currentLevelIndex].collectibles);
              ok <==> index < |cs| && !cs[index].collected
      ensures ok ==> levels == old(levels)[old(currentLevelIndex) := old(levels[currentLevelIndex]).(
                         collectibles := old(levels[currentLevelIndex].collectibles)[index := Collectible(
                           old(levels[currentLevelIndex].collectibles[index].position), true)])] &&
                     itemsCollected == old(itemsCollected) + 1
      ensures !ok ==> levels == old(levels) && itemsCollected == old(itemsCollected)
      ensures currentLevelIndex == old(currentLevelIndex) && levelTimeElapsed == old(levelTimeElapsed)
      ensures bossDefeated == old(bossDefeated) && levelComplete == old(levelComplete)
      ensures allLevelsComplete == old(allLevelsComplete)
    {
      var level := levels[currentLevelIndex];
      if index < |level.collectibles| && !level.collectibles[index].collected {
        CollectOneMore(level.collectibles, index);
        var cs := level.collectibles[index := level.collectibles[index].(collected := true)];
        levels := levels[currentLevelIndex := level.(collectibles := cs)];
        itemsCollected := itemsCollected + 1;
        return true;
      }
      return false;
    }

    /** `defeat_boss`. */
    method DefeatBoss()
      modifies this
      ensures bossDefeated
      ensures levels == old(levels) && currentLevelIndex == old(currentLevelIndex)
      ensures levelTimeElapsed == old(levelTimeElapsed) && itemsCollected == old(itemsCollected)
      ensures levelComplete == old(levelComplete) && allLevelsComplete == old(allLevelsComplete)
    {
      bossDefeated := true;
    }

    /** `reset_level_state`: the level's clock, counter and flags start
        over, and every collectible of the current level is back in place
        (the other levels keep theirs). */
    method ResetLevelState()
      requires currentLevelIndex < |levels|
      modifies this
      ensures Valid()
      ensures levelTimeElapsed == 0.0 && itemsCollected == 0 && !bossDefeated && !levelComplete
      ensures levels == old(levels)[old(currentLevelIndex) := old(levels[currentLevelIndex]).(
                          collectibles := Uncollected(old(levels[currentLevelIndex].collectibles)))]
      ensures currentLevelIndex == old(currentLevelIndex) && allLevelsComplete == old(allLevelsComplete)
    {
      levelTimeElapsed := 0.0;
      itemsCollected := 0;
      bossDefeated := false;
      levelComplete := false;
      var level := levels[currentLevelIndex];
      var cs := level.collectibles;
      var i := 0;
      while i < |cs|
        invariant 0 <= i <= |cs| == |level.collectibles|
        invariant forall j :: 0 <= j < i ==> cs[j] == level.collectibles[j].(collected := false)
        invariant forall j :: i <= j < |cs| ==> cs[j] == level.collectibles[j]
      {
        cs := cs[i := cs[i].(collected := false)];
        i := i + 1;
      }
      assert cs == Uncollected(level.collectibles);
      levels := levels[currentLevelIndex := level.(collectibles := cs)];
    }

    /** `restart_level`. */
    method RestartLevel()
      requires Valid()
      modifies this
      ensures Valid()
      ensures levelTimeElapsed == 0.0 && itemsCollected == 0 && !bossDefeated && !levelComplete
      ensures levels == old(levels)[old(currentLevelIndex) := old(levels[currentLevelIndex]).(
                          collectibles := Uncollected(old(levels[currentLevelIndex].collectibles)))]
      ensures currentLevelIndex == old(currentLevelIndex) && allLevelsComplete == old(allLevelsComplete)
    {
      ResetLevelState();
    }

    /** `next_level`: on to the following level with a fresh state, or, on
        the last level, the all-complete latch and `false`. */
    method NextLevel() returns (ok: bool)
      requires Valid()
      modifies this
      ensures Valid()
      ensures ok <==> old(currentLevelIndex) + 1 < |old(levels)|
      ensures ok ==> currentLevelIndex == old(currentLevelIndex) + 1 && levelTimeElapsed == 0.0 &&
                     itemsCollected == 0 && !bossDefeated && !levelComplete &&
                     allLevelsComplete == old(allLevelsComplete) &&
                     levels == old(levels)[old(currentLevelIndex) + 1 := old(levels[currentLevelIndex + 1]).(
                                 collectibles := Uncollected(old(levels[currentLevelIndex + 1].collectibles)))]
      ensures !ok ==> allLevelsComplete && levels == old(levels) && currentLevelIndex == old(currentLevelIndex) &&
                      levelTimeElapsed == old(levelTimeElapsed) && itemsCollected == old(itemsCollected) &&
                      bossDefeated == old(bossDefeated) && levelComplete == old(levelComplete)
    {
      if currentLevelIndex < |levels| - 1 {
        currentLevelIndex := currentLevelIndex + 1;
        ResetLevelState();
        return true;
      }
      allLevelsComplete := true;
      return false;
    }

    /** `go_to_level`: jump to any existing level with a fresh state; an
        index past the end changes nothing. */
    method GoToLevel(index: nat) returns (ok: bool)
      requires Valid()
      modifies this
      ensures Valid()
      ensures ok <==> index < |old(levels)|
      ensures ok ==> currentLevelIndex == index && levelTimeElapsed == 0.0 && itemsCollected == 0 &&
                     !bossDefeated && !levelComplete && allLevelsComplete == old(allLevelsComplete) &&
                     levels == old(levels)[index := old(levels[index]).(
                                 collectibles := Uncollected(old(levels[index].collectibles)))]
      ensures !ok ==> levels == old(levels) && currentLevelIndex == old(currentLevelIndex) &&
                      levelTimeElapsed == old(levelTimeElapsed) && itemsCollected == old(itemsCollected) &&
                      bossDefeated == old(bossDefeated) && levelComplete == old(levelComplete) &&
                      allLevelsComplete == old(allLevelsComplete)
    {
      if index < |levels| {
        currentLevelIndex := index;
        ResetLevelState();
        return true;
      }
      return false;
    }
  }

  /** Collecting every item of a level, one index at a time, counts each
      item once: collecting an index twice is refused the second time. */
  method CollectTwice(m: LevelManager, index: nat)
    requires m.Valid()
    modifies m
    ensures m.Valid() && m.itemsCollected <= old(m.itemsCollected) + 1
    ensures m.itemsCollected <= |m.levels[m.currentLevelIndex].collectibles|
  {
    var first := m.CollectItem(index);
    var second := m.CollectItem(index);
    assert !second;
  }
}
