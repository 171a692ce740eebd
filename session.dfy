/**
 * What every single-machine level keeps besides its entities: the key flag,
 * the set of players at the door, the game state, the camera, the animation
 * tick counter and the pending reset timeout. A level's loop reads the React
 * state (`gameState`, `playersAtDoor`) as it was when the tick began; `seen`
 * is that tick-start state.
 */
module Session {
  import opened Common
  import opened Physics
  import opened Camera

  datatype GameState = Playing | Won | Dead

  /**
   * `deathTimer` is the pending reset (the id of the live timeout, if any);
   * `nextTimerId` names the next timeout to be scheduled.
   */
  datatype Status = Status(keyCollected: bool, atDoor: set<int>, state: GameState, camera: Cam,
                           animTimer: int, deathTimer: Option<nat>, nextTimerId: nat)

  /** The timer bookkeeping is sound: a pending timer's id was handed out already. */
  predicate TimersValid(s: Status)
  {
    s.deathTimer.Some? ==> s.deathTimer.value < s.nextTimerId
  }

  /**
   * `handleDeath` as a tick sees it: nothing when the tick-start state was
   * already dead; otherwise the level is dead and the reset timeout is
   * replaced by a fresh one.
   */
  function HandleDeath(s: Status, seen: GameState): Status
  {
    if seen == Dead then s
    else s.(state := Dead, deathTimer := Some(s.nextTimerId), nextTimerId := s.nextTimerId + 1)
  }

  /** Does timeout `id` reset the level? Only the pending one does. */
  predicate Fires(s: Status, id: nat)
  {
    s.deathTimer == Some(id)
  }

  /** The status part of `resetGame`: key back, camera home, nobody at the door, playing. */
  function ResetStatus(s: Status): Status
  {
    s.(keyCollected := false, camera := Cam(0.0, 0.0), atDoor := {}, state := Playing)
  }

  /**
   * A death when the tick began dead changes nothing. Otherwise the level is
   * dead with a fresh pending timeout, so at most one reset is pending: the
   * timeout it replaced no longer fires, the new one does, and the reset it
   * triggers makes the level play again.
   */
  lemma HandleDeathReplacesTimer(s: Status, seen: GameState)
    requires TimersValid(s)
    ensures seen == Dead ==> HandleDeath(s, seen) == s
    ensures var r := HandleDeath(s, seen);
            && TimersValid(r)
            && (seen != Dead ==>
                  && r.state == Dead && r.deathTimer.Some? && Fires(r, r.deathTimer.value)
                  && r.(state := s.state, deathTimer := s.deathTimer, nextTimerId := s.nextTimerId) == s
                  && (s.deathTimer.Some? ==> !Fires(r, s.deathTimer.value))
                  && ResetStatus(r).state == Playing)
  {
  }

  /** Each danger button overlapping the player calls `handleDeath`. */
  function HazardPass(s: Status, player: Rect, buttons: seq<Rect>, seen: GameState, k: nat): Status
    decreases |buttons| - k
  {
    if k >= |buttons| then s
    else HazardPass(if CheckCollision(player, buttons[k]) then HandleDeath(s, seen) else s, player, buttons, seen, k + 1)
  }

  /**
   * The danger-button pass kills the level exactly when some remaining
   * button overlaps the player (with a living tick-start state), and touches
   * nothing but the state and the timer.
   */
  lemma {:induction false} HazardPassMeaning(s: Status, player: Rect, buttons: seq<Rect>, seen: GameState, k: nat)
    ensures var r := HazardPass(s, player, buttons, seen, k);
            && r.(state := s.state, deathTimer := s.deathTimer, nextTimerId := s.nextTimerId) == s
            && (TimersValid(s) ==> TimersValid(r))
            && (seen != Dead ==>
                 (r.state == Dead <==> s.state == Dead || exists m :: k <= m < |buttons| && CheckCollision(player, buttons[m])))
            && (seen != Dead && r.state != Dead ==> r.state == s.state)
            && ((forall m :: k <= m < |buttons| ==> !CheckCollision(player, buttons[m])) ==> r == s)
            && (seen == Dead ==> r == s)
    decreases |buttons| - k
  {
    if k < |buttons| {
      var s' := if CheckCollision(player, buttons[k]) then HandleDeath(s, seen) else s;
      HazardPassMeaning(s', player, buttons, seen, k + 1);
    }
  }

  /** The whole danger-button check agrees with `checkDangerButtonCollision`. */
  lemma DangerKills(s: Status, player: Rect, buttons: seq<Rect>, seen: GameState)
    requires seen != Dead
    ensures var r := HazardPass(s, player, buttons, seen, 0);
            && (r.state == Dead <==> s.state == Dead || CheckDangerButtonCollision(player, buttons))
            && (r.state != Dead ==> r == s)
  {
    HazardPassMeaning(s, player, buttons, seen, 0);
    DangerIffSomeButton(player, buttons);
  }

  /** A player overlapping the key collects it; a collected key stays collected. */
  function CollectKey(s: Status, player: Rect, key: Rect): (r: Status)
    ensures r.keyCollected <==> s.keyCollected || CheckCollision(player, key)
    ensures r.(keyCollected := s.keyCollected) == s
  {
    if !s.keyCollected && CheckCollision(player, key) then s.(keyCollected := true) else s
  }
}
