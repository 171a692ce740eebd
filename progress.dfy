/**
 * The progress marker: one stored integer, the highest world completed, which
 * gates which worlds may be entered. Browser storage is a parameter: the
 * stored value (absent when nothing was saved) and whether a window exists.
 */
module Progress {
  import opened Common

  /** The number of worlds. */
  const WORLD_COUNT: int := 3

  /** The stored progress, 0 when nothing is stored or there is no window. */
  function GetProgress(stored: Option<int>, hasWindow: bool): (r: int)
    ensures !hasWindow || stored == None ==> r == 0
    ensures hasWindow && stored.Some? ==> r == stored.value
  {
    if hasWindow then (if stored.Some? then stored.value else 0) else 0
  }

  predicate CanAccessWorld(worldNumber: int, stored: Option<int>, hasWindow: bool)
  {
    worldNumber <= GetProgress(stored, hasWindow) + 1
  }

  /**
   * A world is open up to one past the progress; world 1 is open whenever the
   * progress is not negative, and access is downward closed.
   */
  lemma AccessGate(worldNumber: int, lower: int, stored: Option<int>, hasWindow: bool)
    ensures CanAccessWorld(worldNumber, stored, hasWindow) <==> worldNumber <= GetProgress(stored, hasWindow) + 1
    ensures GetProgress(stored, hasWindow) >= 0 ==> CanAccessWorld(1, stored, hasWindow)
    ensures lower <= worldNumber && CanAccessWorld(worldNumber, stored, hasWindow) ==> CanAccessWorld(lower, stored, hasWindow)
    ensures !CanAccessWorld(worldNumber, stored, hasWindow) && worldNumber <= lower ==> !CanAccessWorld(lower, stored, hasWindow)
  {
  }

  /** The world after the highest one completed, none once all three are done. */
  function GetNextWorld(stored: Option<int>, hasWindow: bool): (r: Option<int>)
    ensures r == None <==> GetProgress(stored, hasWindow) >= WORLD_COUNT
    ensures r.Some? ==> r.value == GetProgress(stored, hasWindow) + 1 && r.value <= WORLD_COUNT
  {
    var progress := GetProgress(stored, hasWindow);
    if progress >= WORLD_COUNT then None else Some(progress + 1)
  }

  /** The next world is always one the player may enter. */
  lemma NextWorldIsAccessible(stored: Option<int>, hasWindow: bool)
    requires GetNextWorld(stored, hasWindow).Some?
    ensures CanAccessWorld(GetNextWorld(stored, hasWindow).value, stored, hasWindow)
    ensures !CanAccessWorld(GetNextWorld(stored, hasWindow).value + 1, stored, hasWindow)
  {
  }

  /** The browser's stored "gameProgress" entry. */
  class ProgressStore {
    var gameProgress: Option<int>

    constructor (gameProgress: Option<int>)
      ensures this.gameProgress == gameProgress
    {
      this.gameProgress := gameProgress;
    }
  }

  /** Anything with a y that the reset moves out of sight. */
  class Ground {
    var y: real

    constructor (y: real)
      ensures this.y == y
    {
      this.y := y;
    }
  }

  /** Forgets the stored progress and, given a ground object, lifts it to y = -300. */
  method ResetProgress(store: ProgressStore, ground: Ground?, hasWindow: bool)
    modifies store, ground
    ensures hasWindow ==> store.gameProgress == None && GetProgress(store.gameProgress, hasWindow) == 0
    ensures hasWindow && ground != null ==> ground.y == -300.0
    ensures !hasWindow ==> store.gameProgress == old(store.gameProgress)
    ensures ground != null && !hasWindow ==> ground.y == old(ground.y)
  {
    if hasWindow {
      store.gameProgress := None;
      if ground != null {
        ground.y := -300.0;
      }
    }
  }
}
