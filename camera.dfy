/**
 * The camera follower: the viewport's horizontal offset moves a fixed fraction
 * of the way towards a target derived from one player or from the mean x of
 * several players, and never becomes negative. There is no vertical follow.
 */
module Camera {
  import opened Common
  import Physics

  datatype Cam = Cam(x: real, y: real)

  /** What the camera reads of a player: its x and, optionally, its width. */
  datatype Tracked = Tracked(x: real, y: real, width: Option<real>)

  const DEFAULT_WIDTH: real := 45.0
  const DEFAULT_SMOOTHING: real := 0.1

  /** `player.width || 45`: a missing or zero width falls back to 45. */
  function EffectiveWidth(width: Option<real>): (w: real)
    ensures width == None || width == Some(0.0) ==> w == DEFAULT_WIDTH
    ensures width.Some? && width.value != 0.0 ==> w == width.value
  {
    if width.Some? && width.value != 0.0 then width.value else DEFAULT_WIDTH
  }

  /** The viewport x that would centre a player of the given width at `centreX`. */
  function TargetX(centreX: real, canvasWidth: real, playerWidth: real): real
  {
    centreX - canvasWidth / 2.0 + playerWidth / 2.0
  }

  /** Follow one player. */
  function UpdateCamera(camera: Cam, player: Tracked, canvasWidth: real, smoothing: real): (r: Cam)
    ensures r.x >= 0.0 && r.y == camera.y
  {
    var target := TargetX(player.x, canvasWidth, EffectiveWidth(player.width));
    var newX := camera.x + (target - camera.x) * smoothing;
    Cam(Max(0.0, newX), camera.y)
  }

  /**
   * One camera step is the interpolation from the old x towards the target by
   * `smoothing`, clamped at 0; with a smoothing in [0, 1] the unclamped value
   * lies between the old x and the target.
   */
  lemma UpdateCameraIsClampedLerp(camera: Cam, player: Tracked, canvasWidth: real, smoothing: real)
    ensures var target := TargetX(player.x, canvasWidth, EffectiveWidth(player.width));
            UpdateCamera(camera, player, canvasWidth, smoothing).x == Max(0.0, Physics.Lerp(camera.x, target, smoothing))
    ensures var target := TargetX(player.x, canvasWidth, EffectiveWidth(player.width));
            var raw := Physics.Lerp(camera.x, target, smoothing);
            0.0 <= smoothing <= 1.0 ==> Min(camera.x, target) <= raw <= Max(camera.x, target)
  {
    var target := TargetX(player.x, canvasWidth, EffectiveWidth(player.width));
    LerpBetween(camera.x, target, smoothing);
  }

  /** Interpolation with an amount in [0, 1] stays between its endpoints, in either order. */
  lemma LerpBetween(a: real, b: real, t: real)
    ensures 0.0 <= t <= 1.0 ==> Min(a, b) <= Physics.Lerp(a, b, t) <= Max(a, b)
  {
    if 0.0 <= t <= 1.0 {
      if a <= b {
        Physics.LerpEndpoints(a, b, t);
      } else {
        Physics.MulBetween(a - b, t);
        assert Physics.Lerp(a, b, t) == a - (a - b) * t;
      }
    }
  }

  /** `players.reduce((sum, p) => sum + p.x, 0)`. */
  function SumX(players: seq<Tracked>): real
  {
    if |players| == 0 then 0.0 else SumX(players[..|players| - 1]) + players[|players| - 1].x
  }

  function MeanX(players: seq<Tracked>): real
    requires |players| > 0
  {
    SumX(players) / |players| as real
  }

  /** Follow the mean x of several players, all assumed `playerWidth` wide. */
  function UpdateCameraMultiplayer(camera: Cam, players: seq<Tracked>, canvasWidth: real,
                                   playerWidth: real, smoothing: real): (r: Cam)
    ensures |players| == 0 ==> r == camera
    ensures r.y == camera.y
    ensures |players| > 0 ==> r.x >= 0.0
  {
    if |players| == 0 then camera
    else
      var target := TargetX(MeanX(players), canvasWidth, playerWidth);
      var newX := camera.x + (target - camera.x) * smoothing;
      Cam(Max(0.0, newX), camera.y)
  }

  /** With one player the group camera is the single-player camera for the same width and smoothing. */
  lemma MultiplayerSingleIsUpdateCamera(camera: Cam, p: Tracked, canvasWidth: real, w: real, smoothing: real)
    requires w != 0.0
    ensures UpdateCameraMultiplayer(camera, [p], canvasWidth, w, smoothing)
         == UpdateCamera(camera, p.(width := Some(w)), canvasWidth, smoothing)
  {
    assert [p][..0] == [];
    assert SumX([p]) == p.x;
  }

  /** The mean x lies between the smallest and the largest x of the group. */
  lemma {:induction false} MeanWithinGroup(players: seq<Tracked>, lo: real, hi: real)
    requires |players| > 0
    requires forall i :: 0 <= i < |players| ==> lo <= players[i].x <= hi
    ensures lo <= MeanX(players) <= hi
  {
    SumBounds(players, lo, hi);
    var n := |players| as real;
    assert lo * n <= SumX(players) <= hi * n;
    DivBounds(SumX(players), n, lo, hi);
  }

  lemma {:induction false} SumBounds(players: seq<Tracked>, lo: real, hi: real)
    requires forall i :: 0 <= i < |players| ==> lo <= players[i].x <= hi
    ensures lo * |players| as real <= SumX(players) <= hi * |players| as real
  {
    if |players| > 0 {
      var init := players[..|players| - 1];
      assert forall i :: 0 <= i < |init| ==> init[i] == players[i];
      SumBounds(init, lo, hi);
      assert SumX(players) == SumX(init) + players[|players| - 1].x;
      StepBound(SumX(init), players[|players| - 1].x, |init| as real, lo, hi);
    }
  }

  /** One more summand within [lo, hi] keeps the running sum within the bounds for one more term. */
  lemma StepBound(sum: real, next: real, m: real, lo: real, hi: real)
    requires lo * m <= sum <= hi * m && lo <= next <= hi
    ensures lo * (m + 1.0) <= sum + next <= hi * (m + 1.0)
  {
  }

  lemma DivBounds(s: real, n: real, lo: real, hi: real)
    requires n > 0.0 && lo * n <= s <= hi * n
    ensures lo <= s / n <= hi
  {
  }

  /** The group camera steps towards the mean by `smoothing`, clamped at 0. */
  lemma MultiplayerIsClampedLerp(camera: Cam, players: seq<Tracked>, canvasWidth: real, w: real, smoothing: real)
    requires |players| > 0
    ensures UpdateCameraMultiplayer(camera, players, canvasWidth, w, smoothing).x
         == Max(0.0, Physics.Lerp(camera.x, TargetX(MeanX(players), canvasWidth, w), smoothing))
    ensures var raw := Physics.Lerp(camera.x, TargetX(MeanX(players), canvasWidth, w), smoothing);
            0.0 <= smoothing <= 1.0 ==> Min(camera.x, TargetX(MeanX(players), canvasWidth, w)) <= raw
                                        <= Max(camera.x, TargetX(MeanX(players), canvasWidth, w))
  {
    LerpBetween(camera.x, TargetX(MeanX(players), canvasWidth, w), smoothing);
  }
}
