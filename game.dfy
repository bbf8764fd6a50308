/**
 * The game session (Game, bird.py:123-250 and 314-318): a three-state
 * machine (menu, playing, game over) that owns the roster of birds, the
 * selected bird, the live pipe pairs, the score and the best score.
 */
module Session {
  import opened Screen
  import opened Geometry
  import opened Birds
  import opened Pipes
  import opened Field

  /** Status, bird.py:13-16; `Playing` is the source's Status.Game. */
  datatype Status = Main | Playing | Over

  // ---------------------------------------------------------------------
  // The tick, on values

  /**
   * Everything Game.update reads or writes, as a value. `saves` is the
   * sequence of values handed to the persistence collaborator, oldest first.
   */
  datatype World = World(status: Status, score: int, highScore: int, saves: seq<int>,
                         bird: Motion, pipes: seq<PipeVal>, spawnTimer: real)

  predicate Increasing(s: seq<int>)
  {
    forall i, j :: 0 <= i < j < |s| ==> s[i] < s[j]
  }

  /** Every save improved on the one before, and the last one is the current best. */
  predicate SavesOk(saves: seq<int>, highScore: int)
  {
    Increasing(saves) && (saves != [] ==> saves[|saves| - 1] == highScore)
  }

  /** What holds of the session between ticks and events. */
  predicate WorldOk(w: World)
  {
    w.score >= 0 && 0.0 <= w.spawnTimer < SpawnInterval && FieldOk(w.pipes) &&
    w.bird.Ok() && SavesOk(w.saves, w.highScore)
  }

  /**
   * Game.game_over: the session ends; the best score becomes the larger of
   * the best and the current score, and an improvement is saved.
   */
  function EndGame(w: World): (r: World)
    ensures r.status == Over
    ensures r.highScore >= w.highScore && r.highScore >= w.score
    ensures r.highScore == w.highScore || r.highScore == w.score
    ensures r.saves == if w.score > w.highScore then w.saves + [w.score] else w.saves
    ensures SavesOk(w.saves, w.highScore) ==> SavesOk(r.saves, r.highScore)
    ensures r.score == w.score && r.bird == w.bird && r.pipes == w.pipes && r.spawnTimer == w.spawnTimer
  {
    if w.score > w.highScore then
      w.(status := Over, highScore := w.score, saves := w.saves + [w.score])
    else
      w.(status := Over)
  }

  /** The bird's hit box at height y (bird.py:243). */
  function BirdRect(y: real): Rect
  {
    Rect(Trunc(StartX as real), Trunc(y), BirdSize, BirdSize)
  }

  /** The physics step followed by the clamp at the top of the window. */
  function BirdPhase(m: Motion, dt: real, mass: real): (r: Motion)
    ensures r.y >= 0.0
    ensures Step(m, dt, mass).y >= 0.0 ==> r == Step(m, dt, mass)
    ensures Step(m, dt, mass).y < 0.0 ==> r == Step(m, dt, mass).(y := 0.0, yspeed := 0.0)
    ensures m.Ok() && dt >= 0.0 ==> r.Ok()
  {
    var n := Step(m, dt, mass);
    if n.y < 0.0 then n.(y := 0.0, yspeed := 0.0) else n
  }

  /** The bird's bottom edge is below the ground line. */
  predicate HitsGround(m: Motion)
  {
    m.y + BirdSize as real > GroundY as real
  }

  /** The field part of a tick: spawn timer, spawning, scrolling, culling. */
  function FieldPhase(w: World, dt: real, gapY: int): World
  {
    var f := FieldStep(w.pipes, w.spawnTimer, dt, gapY);
    w.(pipes := f.pipes, spawnTimer := f.timer)
  }

  /**
   * The scoring part of a tick: the pass over the pairs with the bird's hit
   * box, its points added, and the end of the session on a hit.
   */
  function ScorePhase(w: World): World
  {
    var r := BirdRect(w.bird.y);
    var w1 := w.(pipes := ScoreAll(w.pipes, r, StartX), score := w.score + Gained(w.pipes, r, StartX));
    if FirstHit(w.pipes, r) < |w.pipes| then EndGame(w1) else w1
  }

  /**
   * One tick while playing (Game.update): bird step and top clamp; landing
   * ends the session at once; otherwise the field ticks, then the scoring
   * pass runs and a collision ends the session.
   */
  function Tick(w: World, mass: real, dt: real, gapY: int): World
  {
    var m := BirdPhase(w.bird, dt, mass);
    if HitsGround(m) then
      EndGame(w.(bird := m.(y := (GroundY - BirdSize) as real)))
    else
      ScorePhase(FieldPhase(w.(bird := m), dt, gapY))
  }

  /** A tick keeps the session invariant. */
  lemma TickKeepsWorldOk(w: World, mass: real, dt: real, gapY: int)
    requires WorldOk(w) && dt >= 0.0 && MinGapY <= gapY <= MaxGapY
    ensures WorldOk(Tick(w, mass, dt, gapY))
  {
    var m := BirdPhase(w.bird, dt, mass);
    if !HitsGround(m) {
      var f := FieldStep(w.pipes, w.spawnTimer, dt, gapY);
      FieldStepKeepsFieldOk(w.pipes, w.spawnTimer, dt, gapY);
      ScoringKeepsFieldOk(f.pipes, BirdRect(m.y));
    }
  }

  /** The best score never goes down, and after a tick it is at least the score of an ended game. */
  lemma HighScoreNeverDecreases(w: World, mass: real, dt: real, gapY: int)
    requires w.status == Playing
    ensures var r := Tick(w, mass, dt, gapY);
      r.highScore >= w.highScore && (r.status == Over ==> r.highScore >= r.score)
  {
  }

  /**
   * How a tick ends: the session is over exactly when the bird reached the
   * ground or hit a pair; otherwise the status is left as it was.
   */
  lemma TickOutcome(w: World, mass: real, dt: real, gapY: int)
    ensures var m := BirdPhase(w.bird, dt, mass);
      var f := FieldStep(w.pipes, w.spawnTimer, dt, gapY);
      var r := Tick(w, mass, dt, gapY);
      (HitsGround(m) || FirstHit(f.pipes, BirdRect(m.y)) < |f.pipes| ==> r.status == Over) &&
      (!HitsGround(m) && FirstHit(f.pipes, BirdRect(m.y)) == |f.pipes| ==> r.status == w.status)
  {
  }

  /**
   * Landing ends the tick early: the bird rests on the ground line, and no
   * spawn, scroll or scoring happens.
   */
  lemma LandingStopsTheTick(w: World, mass: real, dt: real, gapY: int)
    requires HitsGround(BirdPhase(w.bird, dt, mass))
    ensures var r := Tick(w, mass, dt, gapY);
      r.status == Over && r.bird.y == (GroundY - BirdSize) as real &&
      r.pipes == w.pipes && r.spawnTimer == w.spawnTimer && r.score == w.score
  {
  }

  /**
   * Otherwise the score grows by exactly the number of pairs whose scored
   * flag the tick sets, and the bird stays between the top and the ground.
   */
  lemma TickScoresNewlyScored(w: World, mass: real, dt: real, gapY: int)
    requires !HitsGround(BirdPhase(w.bird, dt, mass))
    ensures var f := FieldStep(w.pipes, w.spawnTimer, dt, gapY);
      var r := Tick(w, mass, dt, gapY);
      r.score == w.score + NewlyScored(f.pipes, r.pipes) &&
      0.0 <= r.bird.y && r.bird.y + BirdSize as real <= GroundY as real
  {
    var m := BirdPhase(w.bird, dt, mass);
    var f := FieldStep(w.pipes, w.spawnTimer, dt, gapY);
    GainedIsNewlyScored(f.pipes, BirdRect(m.y), StartX);
  }

  // ---------------------------------------------------------------------
  // Input events

  /** Keys the session distinguishes; Left also stands for A and Right for D. */
  datatype Key = Left | Right | Return | Space | Escape | OtherKey

  /** Input events as pygame delivers them to Game.handle_events. */
  datatype Event = Quit | KeyDown(key: Key) | MouseDown(button: int) | OtherEvent

  /** What an event asks the session to do. */
  datatype Command =
    | Ignore
    | Stop                  // leave the main loop
    | Select(idx: int)      // choose another bird, then reset
    | Switch(to: Status)    // change status, then reset
    | JumpCmd               // Bird.bird_sound
    | FlyCmd                // Bird.fly
    | RunCmd                // Bird.bird_running, cosmetic

  /** The selected index moved by delta, wrapping around the roster. */
  function Cycle(idx: int, delta: int): (r: int)
    ensures 0 <= r < RosterSize
    ensures r == idx + delta || r == idx + delta + RosterSize || r == idx + delta - RosterSize
      || !(0 <= idx < RosterSize && -RosterSize < delta < RosterSize)
  {
    (idx + delta) % RosterSize
  }

  /** Left then Right (or Right then Left) in the menu returns to the same bird. */
  lemma CycleBack(idx: int, delta: int)
    requires 0 <= idx < RosterSize && (delta == 1 || delta == -1)
    ensures Cycle(Cycle(idx, delta), -delta) == idx
  {
  }

  /** The dispatch of Game.handle_events for one event (bird.py:180-214). */
  function Respond(status: Status, idx: int, e: Event): Command
  {
    match e
    case Quit => Stop
    case KeyDown(k) =>
      (match status
       case Main =>
         if k == Left then Select(Cycle(idx, -1))
         else if k == Right then Select(Cycle(idx, 1))
         else if k == Return || k == Space then Switch(Playing)
         else Ignore
       case Playing => if k == Space then RunCmd else Ignore
       case Over =>
         if k == Return || k == Space then Switch(Playing)
         else if k == Escape then Switch(Main)
         else Ignore)
    case MouseDown(b) =>
      (match status
       case Main => Switch(Playing)
       case Playing => if b == 1 then JumpCmd else if b == 3 then FlyCmd else Ignore
       case Over => Ignore)
    case OtherEvent => Ignore
  }

  /** Does the command reset the play field? */
  predicate Resets(c: Command)
  {
    c.Select? || c.Switch?
  }

  /**
   * The status transitions events can cause: menu to playing on Enter,
   * Space or any click; game over to playing on Enter or Space; game over to
   * menu on Escape; nothing else, and in particular no event ends a game.
   */
  lemma EventTransitions(s: Status, idx: int, e: Event)
    ensures Respond(s, idx, e).Switch? <==>
      (s == Main && (e.MouseDown? || e == KeyDown(Return) || e == KeyDown(Space))) ||
      (s == Over && (e == KeyDown(Return) || e == KeyDown(Space) || e == KeyDown(Escape)))
    ensures Respond(s, idx, e).Switch? ==>
      Respond(s, idx, e).to == (if e == KeyDown(Escape) then Main else Playing)
  {
  }

  /** The bird acts only while playing; the selection changes only in the menu. */
  lemma CommandsByStatus(s: Status, idx: int, e: Event)
    ensures var c := Respond(s, idx, e);
      (c.JumpCmd? || c.FlyCmd? || c.RunCmd? ==> s == Playing) &&
      (c.Select? ==> s == Main && 0 <= c.idx < RosterSize) &&
      (c.JumpCmd? <==> s == Playing && e == MouseDown(1)) &&
      (c.FlyCmd? <==> s == Playing && e == MouseDown(3))
  {
  }

  /** Status and selection after one event. */
  function Next(s: Status, idx: int, e: Event): (Status, int)
  {
    var c := Respond(s, idx, e);
    (if c.Switch? then c.to else s, if c.Select? then c.idx else idx)
  }

  /** Status and selection after a batch of events, handled in order. */
  function Replay(s: Status, idx: int, es: seq<Event>): (Status, int)
    decreases |es|
  {
    if es == [] then (s, idx)
    else
      var p := Replay(s, idx, es[..|es| - 1]);
      Next(p.0, p.1, es[|es| - 1])
  }

  /** However many events arrive, a game in progress stays in progress. */
  lemma {:induction false} EventsNeverEndAGame(idx: int, es: seq<Event>)
    ensures Replay(Playing, idx, es).0 == Playing
    decreases |es|
  {
    if es != [] {
      EventsNeverEndAGame(idx, es[..|es| - 1]);
    }
  }

  /** The selected index always names a bird of the roster. */
  lemma {:induction false} SelectionStaysInRoster(s: Status, idx: int, es: seq<Event>)
    requires 0 <= idx < RosterSize
    ensures 0 <= Replay(s, idx, es).1 < RosterSize
    decreases |es|
  {
    if es != [] {
      SelectionStaysInRoster(s, idx, es[..|es| - 1]);
    }
  }

  /**
   * The part of the session that input events touch: the loop flag, the
   * status, the selection, the play field, and the motion of every bird of
   * the roster (in menu order).
   */
  datatype EventView = EventView(running: bool, status: Status, idx: int, score: int,
                                 pipes: seq<PipeVal>, spawnTimer: real, flock: seq<Motion>)

  /**
   * One event handled (bird.py:180-214): the command Respond picks decides
   * the status and selection; a status switch or new selection resets the
   * field and restarts the bird now selected; a click while playing makes
   * that bird jump or fly, with its own speed stat.
   */
  function HandleView(v: EventView, kinds: seq<Kind>, e: Event): (r: EventView)
    ensures |r.flock| == |v.flock|
    ensures forall j :: 0 <= j < |v.flock| && j != r.idx ==> r.flock[j] == v.flock[j]
  {
    var c := Respond(v.status, v.idx, e);
    var (s, i) := Next(v.status, v.idx, e);
    var flock :=
      if !(0 <= i < |v.flock| && i < |kinds|) then v.flock
      else if Resets(c) then v.flock[i := Restart(v.flock[i])]
      else if c.JumpCmd? then v.flock[i := Jump(v.flock[i], kinds[i].speed)]
      else if c.FlyCmd? then v.flock[i := StartFlight(v.flock[i], kinds[i].speed)]
      else v.flock;
    if Resets(c) then EventView(v.running, s, i, 0, [], 0.0, flock)
    else EventView(v.running && !c.Stop?, s, i, v.score, v.pipes, v.spawnTimer, flock)
  }

  /** A batch of events, handled in order. */
  function HandleViewAll(v: EventView, kinds: seq<Kind>, es: seq<Event>): EventView
    decreases |es|
  {
    if es == [] then v
    else HandleView(HandleViewAll(v, kinds, es[..|es| - 1]), kinds, es[|es| - 1])
  }

  /**
   * Handling a batch agrees with the status machine: status and selection
   * are those Replay computes, and the loop stops exactly when a Quit came.
   */
  lemma {:induction false} HandleViewAllReplays(v: EventView, kinds: seq<Kind>, es: seq<Event>)
    ensures var r := HandleViewAll(v, kinds, es);
      (r.status, r.idx) == Replay(v.status, v.idx, es) &&
      r.running == (v.running && Quit !in es)
    decreases |es|
  {
    if es != [] {
      var n := |es| - 1;
      HandleViewAllReplays(v, kinds, es[..n]);
      assert es == es[..n] + [es[n]];
      assert Quit in es <==> Quit in es[..n] || es[n] == Quit;
    }
  }

  /**
   * While a game is in progress no event resets the field: the score, the
   * pairs and the spawn timer are left as they are, and only the bird in
   * play can move.
   */
  lemma {:induction false} EventsKeepTheField(v: EventView, kinds: seq<Kind>, es: seq<Event>)
    requires v.status == Playing
    ensures var r := HandleViewAll(v, kinds, es);
      r.status == Playing && r.idx == v.idx && r.score == v.score && r.pipes == v.pipes &&
      r.spawnTimer == v.spawnTimer && |r.flock| == |v.flock| &&
      forall j :: 0 <= j < |v.flock| && j != v.idx ==> r.flock[j] == v.flock[j]
    decreases |es|
  {
    if es != [] {
      EventsKeepTheField(v, kinds, es[..|es| - 1]);
    }
  }

  /**
   * The numeric part of the session invariant, for the state events see:
   * a score that is not negative, a spawn timer inside its interval, a
   * well-formed field and every roster bird's motion invariant.
   */
  predicate ViewOk(v: EventView)
  {
    v.score >= 0 && 0.0 <= v.spawnTimer < SpawnInterval && FieldOk(v.pipes) &&
    forall j :: 0 <= j < |v.flock| ==> v.flock[j].Ok()
  }

  /** One event keeps the invariant: a reset empties the field, and jump, flight and restart keep a bird's motion valid. */
  lemma HandleViewKeepsOk(v: EventView, kinds: seq<Kind>, e: Event)
    requires ViewOk(v)
    ensures ViewOk(HandleView(v, kinds, e))
  {
  }

  /** So does every batch of events, one event after another. */
  lemma {:induction false} HandleViewAllKeepsOk(v: EventView, kinds: seq<Kind>, es: seq<Event>)
    requires ViewOk(v)
    ensures ViewOk(HandleViewAll(v, kinds, es))
    decreases |es|
  {
    if es != [] {
      HandleViewAllKeepsOk(v, kinds, es[..|es| - 1]);
      HandleViewKeepsOk(HandleViewAll(v, kinds, es[..|es| - 1]), kinds, es[|es| - 1]);
    }
  }

  // ---------------------------------------------------------------------
  // The session object

  /** Game.make_birds: one fresh bird per roster entry, each at rest at the start. */
  method MakeBirds() returns (bs: seq<Bird>)
    ensures |bs| == RosterSize
    ensures forall i, j :: 0 <= i < j < |bs| ==> bs[i] != bs[j]
    ensures forall i :: 0 <= i < |bs| ==> fresh(bs[i])
    ensures forall i :: 0 <= i < |bs| ==>
      bs[i].kind == Roster[i] && bs[i].x == StartX &&
      bs[i].State() == Motion(StartY, 0.0, 0.0, false, 0.0, 0.0)
  {
    var parrot := new Bird(Roster[0]);
    var sparrow := new Bird(Roster[1]);
    var pigeon := new Bird(Roster[2]);
    var chicken := new Bird(Roster[3]);
    var duck := new Bird(Roster[4]);
    bs := [parrot, sparrow, pigeon, chicken, duck];
  }

  class Game {
    var running: bool
    var status: Status
    const birds: seq<Bird>
    var selectedIdx: int
    var bird: Bird
    var score: int
    var highScore: int
    var saves: seq<int>
    var pipes: seq<PipePair>
    var spawnTimer: real

    function Snapshot(): World
      reads this, bird, pipes
    {
      World(status, score, highScore, saves, bird.State(), Vals(pipes), spawnTimer)
    }

    /** The constructor parameters of the roster birds, in menu order. */
    function Kinds(): seq<Kind>
    {
      seq(|birds|, i requires 0 <= i < |birds| => birds[i].kind)
    }

    /** The motion of every roster bird, in menu order. */
    function Flock(): seq<Motion>
      reads birds
    {
      seq(|birds|, i requires 0 <= i < |birds| reads birds => birds[i].State())
    }

    /** What input events touch, as a value. */
    function View(): EventView
      reads this, birds, pipes
    {
      EventView(running, status, selectedIdx, score, Vals(pipes), spawnTimer, Flock())
    }

    /**
     * The roster: one distinct bird per roster entry, each at the start
     * column with a consistent flight state, and the selected one in play.
     */
    ghost predicate BirdsOk()
      reads this`selectedIdx, this`bird, birds
    {
      |birds| == RosterSize && 0 <= selectedIdx < |birds| && bird == birds[selectedIdx] &&
      (forall i, j :: 0 <= i < j < |birds| ==> birds[i] != birds[j]) &&
      (forall i :: 0 <= i < |birds| ==> birds[i].x == StartX && birds[i].Valid())
    }

    /** The object structure the methods rely on: the roster, and no pipe pair listed twice. */
    ghost predicate Valid()
      reads this`selectedIdx, this`bird, this`pipes, birds
    {
      BirdsOk() && Distinct(pipes)
    }

    /**
     * Game.__init__ without the display: the menu, the first bird selected,
     * and the best score the persistence collaborator loaded (0 if it failed).
     */
    constructor (stored: int)
      ensures Valid() && WorldOk(Snapshot()) && running && status == Main && selectedIdx == 0
      ensures highScore == stored && saves == []
      ensures score == 0 && pipes == [] && spawnTimer == 0.0
      ensures forall i :: 0 <= i < |birds| ==>
        fresh(birds[i]) && birds[i].kind == Roster[i] &&
        birds[i].State() == Motion(StartY, 0.0, 0.0, false, 0.0, 0.0)
    {
      var bs := MakeBirds();
      running := true;
      status := Main;
      birds := bs;
      selectedIdx := 0;
      bird := bs[0];
      score, pipes, spawnTimer := 0, [], 0.0;
      highScore, saves := stored, [];
      new;
      Reset();
    }

    /**
     * Game.reset: the bird back at its start at rest, score zero, no pipes,
     * spawn timer zero. The bird's flight state and tilt are left as they are.
     */
    method Reset()
      requires Valid()
      modifies this, bird
      ensures Valid()
      ensures bird == old(bird) && bird.x == StartX && bird.State() == Restart(old(bird.State()))
      ensures score == 0 && pipes == [] && spawnTimer == 0.0
      ensures running == old(running) && status == old(status) && selectedIdx == old(selectedIdx)
      ensures highScore == old(highScore) && saves == old(saves)
    {
      bird.x := StartX;
      bird.y := StartY;
      bird.yspeed := 0.0;
      score := 0;
      pipes := [];
      spawnTimer := 0.0;
    }

    /** Game.game_over; the save is appended to `saves`. */
    method GameOver()
      modifies this`status, this`highScore, this`saves
      ensures Snapshot() == EndGame(old(Snapshot()))
    {
      status := Over;
      if score > highScore {
        highScore := score;
        saves := saves + [highScore];
      }
    }

    /**
     * Game.update: one tick while playing (bird step, top clamp, landing
     * check with early return, then the field and the scoring pass);
     * nothing happens in the menu or after a game ended.
     */
    method Update(dt: real, gapY: int)
      requires Valid() && dt >= 0.0 && MinGapY <= gapY <= MaxGapY
      modifies this, bird, pipes
      ensures Valid()
      ensures bird == old(bird) && selectedIdx == old(selectedIdx) && running == old(running)
      ensures old(status) == Playing ==> Snapshot() == Tick(old(Snapshot()), bird.kind.mass, dt, gapY)
      ensures old(status) != Playing ==> unchanged(this) && unchanged(bird) && unchanged(pipes)
    {
      if status == Main {
        return;
      }
      if status == Over {
        return;
      }
      MoveBird(dt);
      if bird.y + BirdSize as real > GroundY as real {
        Land();
      } else {
        PlayField(dt, gapY);
      }
    }

    /** The rest of Game.update once the bird is in the air (bird.py:232-250). */
    method PlayField(dt: real, gapY: int)
      requires Valid() && bird.x == StartX
      modifies this`spawnTimer, this`pipes, this`score, this`status, this`highScore, this`saves, pipes
      ensures Valid()
      ensures Snapshot() == ScorePhase(FieldPhase(old(Snapshot()), dt, gapY))
    {
      AdvanceField(dt, gapY);
      ScoreField();
    }

    /** The bird part of Game.update (bird.py:222-226): its physics step, then the clamp at the top. */
    method MoveBird(dt: real)
      requires bird.Valid() && dt >= 0.0
      modifies bird
      ensures bird.Valid() && bird.x == old(bird.x)
      ensures bird.State() == BirdPhase(old(bird.State()), dt, bird.kind.mass)
    {
      bird.Update(dt);
      if bird.y < 0.0 {
        bird.y := 0.0;
        bird.yspeed := 0.0;
      }
    }

    /** The landing of Game.update (bird.py:227-230): the bird rests on the ground line and the game ends. */
    method Land()
      modifies bird, this`status, this`highScore, this`saves
      ensures bird.x == old(bird.x) && bird.Valid() == old(bird.Valid())
      ensures Snapshot() == EndGame(old(Snapshot()).(bird := old(bird.State()).(y := (GroundY - BirdSize) as real)))
    {
      bird.y := (GroundY - BirdSize) as real;
      GameOver();
    }

    /**
     * The field part of Game.update (bird.py:232-241): the spawn timer, at
     * most one new pair, scrolling and culling.
     */
    method AdvanceField(dt: real, gapY: int)
      requires Distinct(pipes)
      modifies this`spawnTimer, this`pipes, pipes
      ensures Distinct(pipes)
      ensures forall i :: 0 <= i < |pipes| ==> pipes[i] in old(pipes) || fresh(pipes[i])
      ensures Snapshot() == FieldPhase(old(Snapshot()), dt, gapY)
    {
      pipes, spawnTimer := TickField(pipes, spawnTimer, dt, gapY);
    }

    /**
     * The scoring part of Game.update (bird.py:243-250): the pass over the
     * pairs, its points, and the end of the game on a hit.
     */
    method ScoreField()
      requires Distinct(pipes) && bird.x == StartX
      modifies this`score, this`status, this`highScore, this`saves, pipes
      ensures Snapshot() == ScorePhase(old(Snapshot()))
    {
      ghost var w0 := Snapshot();
      var birdRect := Rect(Trunc(bird.x as real), Trunc(bird.y), BirdSize, BirdSize);
      assert birdRect == BirdRect(w0.bird.y);
      var collided, gained := ScorePipes(pipes, birdRect, bird.x);
      assert bird.State() == w0.bird;
      score := score + gained;
      assert Snapshot() == w0.(pipes := ScoreAll(w0.pipes, birdRect, StartX),
                               score := w0.score + Gained(w0.pipes, birdRect, StartX));
      if collided {
        GameOver();
      }
    }

    /**
     * What handling event e did to the session: the command Respond picks
     * for it decides the status, the selection, whether the field is reset,
     * and which action the selected bird takes; nothing else changes, and
     * the birds not in play are left alone.
     */
    twostate predicate Responded(e: Event)
      reads this, bird, birds
    {
      var c := Respond(old(status), old(selectedIdx), e);
      running == (old(running) && !c.Stop?) &&
      (status, selectedIdx) == Next(old(status), old(selectedIdx), e) &&
      highScore == old(highScore) && saves == old(saves) &&
      (Resets(c) ==>
        score == 0 && pipes == [] && spawnTimer == 0.0 &&
        (var b := bird; old(allocated(b)) && b.State() == Restart(old(b.State())))) &&
      (!Resets(c) ==>
        score == old(score) && pipes == old(pipes) && spawnTimer == old(spawnTimer)) &&
      (c.JumpCmd? ==> bird.State() == Jump(old(bird.State()), bird.kind.speed)) &&
      (c.FlyCmd? ==> bird.State() == StartFlight(old(bird.State()), bird.kind.speed)) &&
      (!Resets(c) && !c.JumpCmd? && !c.FlyCmd? ==> bird.State() == old(bird.State())) &&
      (forall i :: 0 <= i < |birds| && birds[i] != bird ==> birds[i].State() == old(birds[i].State()))
    }

    /** Game.handle_events for one event (bird.py:180-214). */
    method HandleEvent(e: Event)
      requires Valid()
      modifies this, birds
      ensures Valid() && highScore == old(highScore) && saves == old(saves)
      ensures View() == HandleView(old(View()), Kinds(), e)
    {
      ghost var v0 := View();
      Dispatch(e);
      ghost var v := HandleView(v0, Kinds(), e);
      assert Vals(pipes) == v.pipes by {
        if pipes != [] {
          forall j | 0 <= j < |pipes| ensures pipes[j].Val() == v0.pipes[j] {
            assert pipes[j] in old(pipes);
          }
        }
      }
      forall j | 0 <= j < |birds| ensures birds[j].State() == v.flock[j] {
        if j == selectedIdx {
          assert birds[j] == bird;
        } else {
          assert birds[j] != bird;
        }
      }
    }

    /** The branch of Game.handle_events on the event's type. */
    method Dispatch(e: Event)
      requires Valid()
      modifies this, birds
      ensures Valid() && Responded(e)
    {
      match e
      case Quit =>
        running := false;
      case KeyDown(k) =>
        HandleKey(k);
      case MouseDown(button) =>
        HandleClick(button);
      case OtherEvent =>
    }

    /** A key press (bird.py:184-206). */
    method HandleKey(k: Key)
      requires Valid()
      modifies this, birds
      ensures Valid() && Responded(KeyDown(k))
    {
      if status == Main {
        if k == Left {
          selectedIdx := (selectedIdx - 1) % |birds|;
          bird := birds[selectedIdx];
          Reset();
        } else if k == Right {
          selectedIdx := (selectedIdx + 1) % |birds|;
          bird := birds[selectedIdx];
          Reset();
        } else if k == Return || k == Space {
          status := Playing;
          Reset();
        }
      } else if status == Playing {
        if k == Space {
          var report := RunStat(bird.kind);
        }
      } else if status == Over {
        if k == Return || k == Space {
          status := Playing;
          Reset();
        } else if k == Escape {
          status := Main;
          Reset();
        }
      }
    }

    /** A mouse click (bird.py:207-214). */
    method HandleClick(button: int)
      requires Valid()
      modifies this, birds
      ensures Valid() && Responded(MouseDown(button))
    {
      if status == Playing {
        if button == 1 {
          bird.BirdSound();
        } else if button == 3 {
          bird.Fly();
        }
      } else if status == Main {
        status := Playing;
        Reset();
      }
    }

    /** Game.handle_events: the events of one frame, in order. */
    method HandleEvents(events: seq<Event>)
      requires Valid()
      modifies this, birds
      ensures Valid()
      ensures running == (old(running) && Quit !in events)
      ensures (status, selectedIdx) == Replay(old(status), old(selectedIdx), events)
      ensures highScore == old(highScore) && saves == old(saves)
      ensures View() == HandleViewAll(old(View()), Kinds(), events)
    {
      for i := 0 to |events|
        invariant Valid()
        invariant View() == HandleViewAll(old(View()), Kinds(), events[..i])
        invariant highScore == old(highScore) && saves == old(saves)
      {
        assert events[..i + 1][..i] == events[..i];
        HandleEvent(events[i]);
      }
      assert events[..|events|] == events;
      HandleViewAllReplays(old(View()), Kinds(), events);
    }
  }
}
