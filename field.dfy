/**
 * The live obstacles of a session and the per-tick work on them
 * (Game.update, bird.py:232-250): spawning on a timer, scrolling, culling
 * the pairs that left the window, and the collision-then-score pass.
 */
module Field {
  import opened Screen
  import opened Geometry
  import opened Pipes
  import Birds

  /** Where a new pair appears, just off the right edge (bird.py:236). */
  const SpawnX: real := (ScreenWidth + 60) as real
  /** Seconds between spawns, bird.py:158. */
  const SpawnInterval: real := 1.5
  /** Scroll speed in units per second, bird.py:159. */
  const PipeSpeed: real := 180.0
  /** Gap height of every pair, bird.py:160. */
  const Gap: int := 180
  /** Range of the random gap centre, bird.py:235. */
  const MinGapY: int := 120
  const MaxGapY: int := ScreenHeight - 120

  // ---------------------------------------------------------------------
  // Spawning, scrolling and culling, on values

  /** The field after the spawn timer advanced: the pairs and the new timer. */
  datatype Spawned = Spawned(pipes: seq<PipeVal>, timer: real)

  /**
   * The spawn timer accumulates dt; once it reaches the interval (boundary
   * included) it restarts and exactly one fresh, unscored pair is appended
   * at the spawn position with the given gap centre.
   */
  function Spawn(ps: seq<PipeVal>, timer: real, dt: real, gapY: int): (r: Spawned)
    ensures timer + dt >= SpawnInterval ==>
      r.pipes == ps + [PipeVal(SpawnX, gapY, Gap, false)] && r.timer == 0.0
    ensures timer + dt < SpawnInterval ==> r.pipes == ps && r.timer == timer + dt
    ensures timer >= 0.0 && dt >= 0.0 ==> 0.0 <= r.timer < SpawnInterval
  {
    var t := timer + dt;
    if t >= SpawnInterval then Spawned(ps + [PipeVal(SpawnX, gapY, Gap, false)], 0.0)
    else Spawned(ps, t)
  }

  /** Every pair scrolls by the same amount; nothing else about the pairs changes. */
  function AdvanceAll(ps: seq<PipeVal>, dt: real): (qs: seq<PipeVal>)
    ensures |qs| == |ps|
    ensures forall i :: 0 <= i < |ps| ==>
      qs[i].x == ps[i].x - PipeSpeed * dt && qs[i].gapY == ps[i].gapY &&
      qs[i].gapH == ps[i].gapH && qs[i].scored == ps[i].scored
  {
    seq(|ps|, i requires 0 <= i < |ps| => ps[i].Advance(dt, PipeSpeed))
  }

  /** The pairs that are still on screen, in their original order. */
  function Cull(ps: seq<PipeVal>): (qs: seq<PipeVal>)
    ensures |qs| <= |ps|
  {
    if ps == [] then []
    else
      var rest := Cull(ps[..|ps| - 1]);
      if ps[|ps| - 1].Offscreen() then rest else rest + [ps[|ps| - 1]]
  }

  /** Culling keeps only pairs of the field that are on screen. */
  lemma {:induction false} CullOnlyOnscreen(ps: seq<PipeVal>)
    ensures forall q :: q in Cull(ps) ==> q in ps && !q.Offscreen()
    decreases |ps|
  {
    if ps != [] {
      CullOnlyOnscreen(ps[..|ps| - 1]);
      assert forall q :: q in ps[..|ps| - 1] ==> q in ps;
    }
  }

  /** Culling removes only pairs that are off screen. */
  lemma {:induction false} CullKeepsOnscreen(ps: seq<PipeVal>, p: PipeVal)
    requires p in ps && !p.Offscreen()
    ensures p in Cull(ps)
    decreases |ps|
  {
    var last := ps[|ps| - 1];
    if p != last {
      assert ps == ps[..|ps| - 1] + [last];
      CullKeepsOnscreen(ps[..|ps| - 1], p);
    }
  }

  /**
   * Culling works element by element, so survivors keep their relative
   * order: those from an earlier part stay before those from a later part.
   */
  lemma {:induction false} CullConcat(a: seq<PipeVal>, b: seq<PipeVal>)
    ensures Cull(a + b) == Cull(a) + Cull(b)
    decreases |b|
  {
    if b == [] {
      assert a + b == a;
    } else {
      var b' := b[..|b| - 1];
      assert (a + b)[..|a + b| - 1] == a + b';
      CullConcat(a, b');
    }
  }

  /**
   * One tick of the field: spawn, scroll every pair, then cull. At most one
   * pair is added, and the timer stays inside its interval.
   */
  function FieldStep(ps: seq<PipeVal>, timer: real, dt: real, gapY: int): (r: Spawned)
    ensures |r.pipes| <= |ps| + 1
    ensures timer >= 0.0 && dt >= 0.0 ==> 0.0 <= r.timer < SpawnInterval
  {
    var s := Spawn(ps, timer, dt, gapY);
    Spawned(Cull(AdvanceAll(s.pipes, dt)), s.timer)
  }

  // ---------------------------------------------------------------------
  // Collision and scoring, on values

  /** Index of the first pair the rectangle hits, or the number of pairs if none. */
  function FirstHit(ps: seq<PipeVal>, r: Rect): (k: nat)
    ensures k <= |ps|
  {
    if ps == [] then 0
    else if ps[0].Collides(r) then 0
    else 1 + FirstHit(ps[1..], r)
  }

  /** FirstHit names the first pair hit: none before it is, and it is (unless it is the end). */
  lemma {:induction false} FirstHitIsFirst(ps: seq<PipeVal>, r: Rect)
    ensures var k := FirstHit(ps, r);
      (forall i :: 0 <= i < k ==> !ps[i].Collides(r)) && (k < |ps| ==> ps[k].Collides(r))
  {
    if ps != [] && !ps[0].Collides(r) {
      FirstHitIsFirst(ps[1..], r);
      var k := FirstHit(ps, r);
      forall i | 0 <= i < k
        ensures !ps[i].Collides(r)
      {
        if i > 0 {
          assert ps[i] == ps[1..][i - 1];
        }
      }
    }
  }

  /** A pair earns a point when it is unscored and its right edge is left of the bird. */
  predicate Passed(p: PipeVal, birdX: int)
  {
    !p.scored && p.x + PipeWidth as real < birdX as real
  }

  function Mark(p: PipeVal, birdX: int): PipeVal
  {
    if Passed(p, birdX) then p.(scored := true) else p
  }

  /**
   * The scoring pass (bird.py:244-250): pairs are visited in order and the
   * pass stops at the first collision; every pair before it that has been
   * passed is marked scored.
   */
  function ScoreAll(ps: seq<PipeVal>, r: Rect, birdX: int): (qs: seq<PipeVal>)
    ensures |qs| == |ps|
  {
    var k := FirstHit(ps, r);
    seq(|ps|, i requires 0 <= i < |ps| => if i < k then Mark(ps[i], birdX) else ps[i])
  }

  /**
   * What the scoring pass does to each pair: geometry never changes, a
   * scored flag is never cleared, a flag is newly set exactly for the
   * passed pairs before the first collision, and the pairs from the first
   * collision on are untouched.
   */
  lemma ScoreAllMarksPassed(ps: seq<PipeVal>, r: Rect, birdX: int)
    ensures var qs := ScoreAll(ps, r, birdX);
      (forall i :: 0 <= i < |ps| ==>
        qs[i].x == ps[i].x && qs[i].gapY == ps[i].gapY && qs[i].gapH == ps[i].gapH) &&
      (forall i :: 0 <= i < |ps| ==> ps[i].scored ==> qs[i].scored) &&
      (forall i :: 0 <= i < |ps| ==>
        (!ps[i].scored && qs[i].scored <==> i < FirstHit(ps, r) && Passed(ps[i], birdX))) &&
      (forall i :: FirstHit(ps, r) <= i < |ps| ==> qs[i] == ps[i])
  {
  }

  /** ScoreAll is determined by marking exactly the pairs before the first hit. */
  lemma ScoreAllByIndex(ps: seq<PipeVal>, qs: seq<PipeVal>, r: Rect, birdX: int)
    requires |qs| == |ps|
    requires forall j :: 0 <= j < |ps| ==>
      qs[j] == if j < FirstHit(ps, r) then Mark(ps[j], birdX) else ps[j]
    ensures qs == ScoreAll(ps, r, birdX)
  {
  }

  /** Number of passed pairs in a sequence; at most one per pair. */
  function CountPassed(ps: seq<PipeVal>, birdX: int): (n: nat)
    ensures n <= |ps|
  {
    if ps == [] then 0
    else CountPassed(ps[..|ps| - 1], birdX) + (if Passed(ps[|ps| - 1], birdX) then 1 else 0)
  }

  /** Points the scoring pass awards: passed pairs before the first collision, so at most one per pair before it. */
  function Gained(ps: seq<PipeVal>, r: Rect, birdX: int): (g: nat)
    ensures g <= FirstHit(ps, r)
  {
    CountPassed(ps[..FirstHit(ps, r)], birdX)
  }

  /** Number of positions whose scored flag goes from false to true between a and b. */
  function NewlyScored(a: seq<PipeVal>, b: seq<PipeVal>): nat
    requires |a| == |b|
  {
    if a == [] then 0
    else
      NewlyScored(a[..|a| - 1], b[..|b| - 1]) +
      (if !a[|a| - 1].scored && b[|b| - 1].scored then 1 else 0)
  }

  lemma {:induction false} NewlyScoredByMark(ps: seq<PipeVal>, qs: seq<PipeVal>, k: nat, birdX: int)
    requires |qs| == |ps| && k <= |ps|
    requires forall i :: 0 <= i < |ps| ==> qs[i] == if i < k then Mark(ps[i], birdX) else ps[i]
    ensures NewlyScored(ps, qs) == CountPassed(ps[..k], birdX)
    decreases |ps|
  {
    if ps != [] {
      var n := |ps| - 1;
      if k == |ps| {
        assert ps[..k] == ps;
        assert ps[..n][..n] == ps[..n];
        NewlyScoredByMark(ps[..n], qs[..n], n, birdX);
      } else {
        assert ps[..n][..k] == ps[..k];
        NewlyScoredByMark(ps[..n], qs[..n], k, birdX);
      }
    }
  }

  /** The points awarded are exactly the pairs whose scored flag the pass sets. */
  lemma GainedIsNewlyScored(ps: seq<PipeVal>, r: Rect, birdX: int)
    ensures Gained(ps, r, birdX) == NewlyScored(ps, ScoreAll(ps, r, birdX))
  {
    NewlyScoredByMark(ps, ScoreAll(ps, r, birdX), FirstHit(ps, r), birdX);
  }

  lemma {:induction false} NothingPassedCountsZero(ps: seq<PipeVal>, birdX: int)
    requires forall i :: 0 <= i < |ps| ==> !Passed(ps[i], birdX)
    ensures CountPassed(ps, birdX) == 0
    decreases |ps|
  {
    if ps != [] {
      NothingPassedCountsZero(ps[..|ps| - 1], birdX);
    }
  }

  /** Collision looks only at geometry, never at the scored flag. */
  lemma {:induction false} FirstHitIgnoresScored(ps: seq<PipeVal>, qs: seq<PipeVal>, r: Rect)
    requires |qs| == |ps|
    requires forall i :: 0 <= i < |ps| ==>
      qs[i].x == ps[i].x && qs[i].gapY == ps[i].gapY && qs[i].gapH == ps[i].gapH
    ensures FirstHit(qs, r) == FirstHit(ps, r)
    decreases |ps|
  {
    if ps != [] {
      assert qs[0].Rects() == ps[0].Rects();
      FirstHitIgnoresScored(ps[1..], qs[1..], r);
    }
  }

  /**
   * Scoring is one-shot: repeating the pass with the bird where it is
   * changes nothing more and awards no further point.
   */
  lemma ScoringIsOneShot(ps: seq<PipeVal>, r: Rect, birdX: int)
    ensures var qs := ScoreAll(ps, r, birdX);
      ScoreAll(qs, r, birdX) == qs && Gained(qs, r, birdX) == 0
  {
    var qs := ScoreAll(ps, r, birdX);
    var k := FirstHit(ps, r);
    FirstHitIgnoresScored(ps, qs, r);
    assert forall i :: 0 <= i < k ==> !Passed(qs[i], birdX);
    var qs2 := ScoreAll(qs, r, birdX);
    assert forall i :: 0 <= i < |qs| ==> qs2[i] == qs[i];
    NothingPassedCountsZero(qs[..k], birdX);
  }

  // ---------------------------------------------------------------------
  // What holds of the field between ticks

  /** A pair as the session creates and moves it. */
  predicate Placed(p: PipeVal)
  {
    p.x <= SpawnX && p.gapH == Gap && MinGapY <= p.gapY <= MaxGapY &&
    (p.scored ==> p.x + PipeWidth as real < Birds.StartX as real)
  }

  /** Spawn order is left-to-right order. */
  predicate Ordered(ps: seq<PipeVal>)
  {
    forall i, j :: 0 <= i < j < |ps| ==> ps[i].x <= ps[j].x
  }

  /**
   * The field between ticks: pairs in left-to-right order, none off screen,
   * each with the session's gap, a gap centre in range, and scored only
   * once the bird has passed it.
   */
  predicate FieldOk(ps: seq<PipeVal>)
  {
    Ordered(ps) && forall i :: 0 <= i < |ps| ==> Placed(ps[i]) && !ps[i].Offscreen()
  }

  lemma {:induction false} CullOrdered(ps: seq<PipeVal>)
    requires Ordered(ps)
    ensures Ordered(Cull(ps))
    decreases |ps|
  {
    if ps != [] {
      var n := |ps| - 1;
      assert Ordered(ps[..n]);
      CullOrdered(ps[..n]);
      CullOnlyOnscreen(ps[..n]);
      forall q | q in Cull(ps[..n]) ensures q.x <= ps[n].x {
        var i :| 0 <= i < n && ps[..n][i] == q;
      }
    }
  }

  /** A field tick keeps the field invariant, whatever gap centre it draws. */
  lemma FieldStepKeepsFieldOk(ps: seq<PipeVal>, timer: real, dt: real, gapY: int)
    requires FieldOk(ps) && dt >= 0.0 && MinGapY <= gapY <= MaxGapY
    ensures FieldOk(FieldStep(ps, timer, dt, gapY).pipes)
  {
    var s := Spawn(ps, timer, dt, gapY).pipes;
    assert Ordered(s) && forall i :: 0 <= i < |s| ==> Placed(s[i]);
    var a := AdvanceAll(s, dt);
    assert PipeSpeed * dt >= 0.0;
    assert Ordered(a) && forall i :: 0 <= i < |a| ==> Placed(a[i]);
    CullOrdered(a);
    var c := Cull(a);
    CullOnlyOnscreen(a);
    forall i | 0 <= i < |c| ensures Placed(c[i]) && !c[i].Offscreen() {
      assert c[i] in c;
    }
  }

  /** The scoring pass keeps the field invariant for the bird's fixed lane. */
  lemma ScoringKeepsFieldOk(ps: seq<PipeVal>, r: Rect)
    requires FieldOk(ps)
    ensures FieldOk(ScoreAll(ps, r, Birds.StartX))
  {
  }

  /**
   * Three ticks of 1.5 s from an empty field spawn three pairs (the trigger
   * includes the boundary), but the oldest has scrolled off and been culled
   * by the third tick, so two remain.
   */
  lemma ThreeSpawnsTwoSurvive(g1: int, g2: int, g3: int)
    ensures var f1 := FieldStep([], 0.0, 1.5, g1);
      var f2 := FieldStep(f1.pipes, f1.timer, 1.5, g2);
      var f3 := FieldStep(f2.pipes, f2.timer, 1.5, g3);
      |f1.pipes| == 1 && |f2.pipes| == 2 && |f3.pipes| == 2 &&
      f3.pipes == [PipeVal(32.0, g2, Gap, false), PipeVal(302.0, g3, Gap, false)]
  {
    FirstTick(g1);
    SecondTick(g1, g2);
    ThirdTick(g1, g2, g3);
  }

  lemma FirstTick(g1: int)
    ensures FieldStep([], 0.0, 1.5, g1) == Spawned([PipeVal(302.0, g1, Gap, false)], 0.0)
  {
    var a1 := [PipeVal(302.0, g1, Gap, false)];
    assert AdvanceAll([PipeVal(SpawnX, g1, Gap, false)], 1.5) == a1;
    CullOnscreenPrefix(a1, 0);
  }

  lemma SecondTick(g1: int, g2: int)
    ensures FieldStep([PipeVal(302.0, g1, Gap, false)], 0.0, 1.5, g2)
         == Spawned([PipeVal(32.0, g1, Gap, false), PipeVal(302.0, g2, Gap, false)], 0.0)
  {
    var a1 := [PipeVal(302.0, g1, Gap, false)];
    var a2 := [PipeVal(32.0, g1, Gap, false), PipeVal(302.0, g2, Gap, false)];
    assert AdvanceAll(a1 + [PipeVal(SpawnX, g2, Gap, false)], 1.5) == a2;
    CullOnscreenPrefix(a2, 0);
  }

  lemma ThirdTick(g1: int, g2: int, g3: int)
    ensures FieldStep([PipeVal(32.0, g1, Gap, false), PipeVal(302.0, g2, Gap, false)], 0.0, 1.5, g3)
         == Spawned([PipeVal(32.0, g2, Gap, false), PipeVal(302.0, g3, Gap, false)], 0.0)
  {
    var a2 := [PipeVal(32.0, g1, Gap, false), PipeVal(302.0, g2, Gap, false)];
    var a3 := [PipeVal(-238.0, g1, Gap, false), PipeVal(32.0, g2, Gap, false), PipeVal(302.0, g3, Gap, false)];
    assert AdvanceAll(a2 + [PipeVal(SpawnX, g3, Gap, false)], 1.5) == a3;
    CullOnscreenPrefix(a3, 1);
    assert a3[1..] == [PipeVal(32.0, g2, Gap, false), PipeVal(302.0, g3, Gap, false)];
  }

  /** Culling keeps a field whose pairs are all on screen as it is. */
  lemma {:induction false} CullAllOnscreen(ps: seq<PipeVal>)
    requires forall i :: 0 <= i < |ps| ==> !ps[i].Offscreen()
    ensures Cull(ps) == ps
    decreases |ps|
  {
    if ps != [] {
      var n := |ps| - 1;
      CullAllOnscreen(ps[..n]);
      assert ps[..n] + [ps[n]] == ps;
    }
  }

  /** Culling empties a field whose pairs are all off screen. */
  lemma {:induction false} CullAllOffscreen(ps: seq<PipeVal>)
    requires forall i :: 0 <= i < |ps| ==> ps[i].Offscreen()
    ensures Cull(ps) == []
    decreases |ps|
  {
    if ps != [] {
      CullAllOffscreen(ps[..|ps| - 1]);
    }
  }

  /** Culling a field whose first k pairs are off screen and the rest on screen drops exactly those k. */
  lemma {:induction false} CullOnscreenPrefix(ps: seq<PipeVal>, k: nat)
    requires k <= |ps|
    requires forall i :: 0 <= i < k ==> ps[i].Offscreen()
    requires forall i :: k <= i < |ps| ==> !ps[i].Offscreen()
    ensures Cull(ps) == ps[k..]
  {
    var gone, kept := ps[..k], ps[k..];
    assert ps == gone + kept;
    assert forall i :: 0 <= i < |gone| ==> gone[i].Offscreen() by {
      forall i | 0 <= i < |gone| ensures gone[i].Offscreen() {
        assert gone[i] == ps[i];
      }
    }
    assert forall i :: 0 <= i < |kept| ==> !kept[i].Offscreen() by {
      forall i | 0 <= i < |kept| ensures !kept[i].Offscreen() {
        assert kept[i] == ps[k + i];
      }
    }
    CullConcat(gone, kept);
    CullAllOffscreen(gone);
    CullAllOnscreen(kept);
  }

  /**
   * With the bird at x = 200, an unscored pair whose right edge is at 190
   * earns a point and one whose right edge is at 210 does not.
   */
  lemma OnePassedPairScoresOnce()
    ensures var ps := [PipeVal(110.0, 384, Gap, false), PipeVal(130.0, 384, Gap, false)];
      var r := Rect(200, 300, Birds.BirdSize, Birds.BirdSize);
      Gained(ps, r, 200) == 1 &&
      ScoreAll(ps, r, 200) == [PipeVal(110.0, 384, Gap, true), PipeVal(130.0, 384, Gap, false)]
  {
    var ps := [PipeVal(110.0, 384, Gap, false), PipeVal(130.0, 384, Gap, false)];
    var r := Rect(200, 300, Birds.BirdSize, Birds.BirdSize);
    ClearThroughGap(ps[0], r);
    ClearThroughGap(ps[1], r);
    assert FirstHit(ps, r) == 2;
    assert ps[..2] == ps;
    assert ps[..1] == [ps[0]] && [ps[0]][..0] == [];
    assert CountPassed([ps[0]], 200) == 1;
    var qs := ScoreAll(ps, r, 200);
    assert qs[0] == PipeVal(110.0, 384, Gap, true) && qs[1] == ps[1];
  }

  // ---------------------------------------------------------------------
  // The same work on the session's pipe objects

  /** No pipe object appears twice in the list (otherwise it would scroll twice). */
  predicate Distinct(ps: seq<PipePair>)
  {
    forall i, j :: 0 <= i < j < |ps| ==> ps[i] != ps[j]
  }

  /** Walking the pairs in order up to the first hit: the pair at i is hit exactly when i is the first hit. */
  lemma FirstHitAt(ps: seq<PipeVal>, r: Rect, i: nat)
    requires i <= FirstHit(ps, r) && i < |ps|
    ensures FirstHit(ps, r) == i <==> ps[i].Collides(r)
  {
    FirstHitIsFirst(ps, r);
  }

  /** The values of a list of pipe objects. */
  function Vals(ps: seq<PipePair>): (vs: seq<PipeVal>)
    reads ps
    ensures |vs| == |ps|
  {
    seq(|ps|, i requires 0 <= i < |ps| reads ps => ps[i].Val())
  }

  /** Every pair scrolls left once by the pipe speed, in place (bird.py:238-239). */
  method AdvancePipes(ps: seq<PipePair>, dt: real)
    requires Distinct(ps)
    modifies ps
    ensures Vals(ps) == AdvanceAll(old(Vals(ps)), dt)
  {
    ghost var before := Vals(ps);
    for i := 0 to |ps|
      invariant forall j :: 0 <= j < |ps| ==>
        ps[j].Val() == if j < i then before[j].Advance(dt, PipeSpeed) else before[j]
    {
      ps[i].Update(dt, PipeSpeed);
    }
  }

  /**
   * The field part of Game.update (bird.py:232-241): the spawn timer, at
   * most one new pair at the right edge, every pair scrolled, off-screen
   * pairs dropped.
   */
  method TickField(ps: seq<PipePair>, timer: real, dt: real, gapY: int)
      returns (qs: seq<PipePair>, t: real)
    requires Distinct(ps)
    modifies ps
    ensures Distinct(qs) && forall i :: 0 <= i < |qs| ==> qs[i] in ps || fresh(qs[i])
    ensures var f := FieldStep(old(Vals(ps)), timer, dt, gapY);
      Vals(qs) == f.pipes && t == f.timer
  {
    ghost var s := Spawn(Vals(ps), timer, dt, gapY);
    t := timer + dt;
    qs := ps;
    if t >= SpawnInterval {
      t := 0.0;
      var p := new PipePair(SpawnX, gapY, Gap);
      qs := ps + [p];
    }
    assert Vals(qs) == s.pipes;
    assert forall q :: q in qs ==> q in ps || fresh(q);
    AdvancePipes(qs, dt);
    qs := KeepOnscreen(qs);
  }

  /** Drops the pairs that have left the screen, keeping the rest in order (bird.py:241). */
  method KeepOnscreen(ps: seq<PipePair>) returns (kept: seq<PipePair>)
    requires Distinct(ps)
    ensures Distinct(kept) && forall p :: p in kept ==> p in ps
    ensures Vals(kept) == Cull(Vals(ps))
  {
    kept := [];
    for i := 0 to |ps|
      invariant Distinct(kept) && forall p :: p in kept ==> p in ps[..i]
      invariant Vals(kept) == Cull(Vals(ps)[..i])
    {
      assert Vals(ps)[..i + 1][..i] == Vals(ps)[..i];
      assert ps[i] !in ps[..i];
      if !ps[i].Val().Offscreen() {
        kept := kept + [ps[i]];
      }
    }
    assert Vals(ps)[..|ps|] == Vals(ps);
  }

  /**
   * The collision-then-score loop: stops at the first pair the bird hits,
   * marks passed pairs on the way, and reports the hit and the points.
   */
  method ScorePipes(ps: seq<PipePair>, r: Rect, birdX: int) returns (collided: bool, gained: nat)
    requires Distinct(ps)
    modifies ps
    ensures Vals(ps) == ScoreAll(old(Vals(ps)), r, birdX)
    ensures collided <==> FirstHit(old(Vals(ps)), r) < |ps|
    ensures gained == Gained(old(Vals(ps)), r, birdX)
  {
    ghost var before := Vals(ps);
    ghost var k := FirstHit(before, r);
    collided, gained := false, 0;
    var i := 0;
    while i < |ps|
      invariant 0 <= i <= k
      invariant forall j :: 0 <= j < |ps| ==>
        ps[j].Val() == if j < i then Mark(before[j], birdX) else before[j]
      invariant gained == CountPassed(before[..i], birdX)
    {
      var p := ps[i];
      FirstHitAt(before, r, i);
      if p.Val().Collides(r) {
        collided := true;
        ScoreAllByIndex(before, Vals(ps), r, birdX);
        return;
      }
      assert before[..i + 1][..i] == before[..i];
      if !p.scored && p.x + PipeWidth as real < birdX as real {
        p.scored := true;
        gained := gained + 1;
      }
      assert p.Val() == Mark(before[i], birdX);
      i := i + 1;
    }
    assert before[..|ps|] == before;
    ScoreAllByIndex(before, Vals(ps), r, birdX);
  }
}
