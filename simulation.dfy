/**
 * The runner's game state as a value, and one function per state change of
 * renderer.js: `resetGame`, one tick of `update` (built from its stages, in
 * the order the source runs them), and the keydown/keyup handler bodies.
 * The classes in module Engine are proved to implement exactly these
 * functions; the properties of the game are proved here, about the functions.
 */
module Simulation {
  import opened Geometry

  // KeyboardEvent.key values the handlers look at.
  const ArrowRight: string := "ArrowRight"
  const ArrowLeft: string := "ArrowLeft"
  const ArrowUp: string := "ArrowUp"
  const Space: string := " "
  const Enter: string := "Enter"

  // Player geometry and motion.
  const StartX: real := 120.0
  const PlayerWidth: real := 40.0
  const PlayerHeight: real := 50.0
  const PlayerSpeed: real := 5.0
  const LeftLimit: real := 60.0      // player.x never goes below this
  const RightInset: real := 80.0     // player.x never goes above width - RightInset
  const GroundInset: real := 80.0    // groundY = height - GroundInset
  const Gravity: real := 0.6
  const JumpVelocity: real := -12.0

  // World progress.
  const StartSpeed: real := 4.0
  const MaxSpeed: real := 8.0
  const DistancePerSpeed: real := 0.1
  const DistancePerSpeedUnit: real := 300.0

  // Spawning and cleanup.
  const EnemyInterval: int := 80
  const CoinInterval: int := 50
  const SpawnOffset: real := 40.0    // new entities appear at x = width + SpawnOffset
  const EnemyBaseSize: real := 40.0
  const EnemySizeRange: real := 20.0
  const EnemySink: real := 10.0      // enemies stand this far below the ground line
  const CoinLift: real := 60.0
  const CoinHeightRange: real := 120.0
  const CoinRadius: real := 12.0
  const EnemyExit: real := -80.0
  const CoinExit: real := -50.0

  /** The size of the drawing surface; fixed for the life of the game. */
  datatype Canvas = Canvas(width: real, height: real)

  function GroundY(c: Canvas): real { c.height - GroundInset }

  /** The mutable fields of `player`; its width, height and step speed are constants. */
  datatype PlayerState = PlayerState(x: real, y: real, vy: real, jumping: bool)

  datatype Enemy = Enemy(x: real, y: real, width: real, height: real)

  datatype Coin = Coin(x: real, y: real, radius: real, collected: bool)

  /** Everything the simulation owns: `state`, `player`, `keys`, `enemies` and `coins`. */
  datatype World = World(
    running: bool,
    score: int,
    distance: real,
    speed: real,
    best: int,
    spawnTimer: int,
    coinTimer: int,
    player: PlayerState,
    keys: set<string>,
    enemies: seq<Enemy>,
    coins: seq<Coin>)

  /** One step of the random source: a value of Math.random() for each spawn draw. */
  datatype Roll = Roll(enemy: real, coin: real)

  predicate IsRandom(r: real) { 0.0 <= r < 1.0 }

  predicate ValidRoll(r: Roll) { IsRandom(r.enemy) && IsRandom(r.coin) }

  function PlayerBox(p: PlayerState): Rect { Rect(p.x, p.y, PlayerWidth, PlayerHeight) }

  function EnemyRect(e: Enemy): Rect { Rect(e.x, e.y, e.width, e.height) }

  function CoinCircle(c: Coin): Circle { Circle(c.x, c.y, c.radius) }

  function MaxInt(a: int, b: int): int { if a >= b then a else b }

  // ---------------------------------------------------------------------------
  // Lifecycle

  /** The module-level initial values: stopped, player standing at the start. */
  function Initial(c: Canvas): (next: World)
    ensures !next.running && next.score == 0 && next.best == 0 && next.keys == {}
    ensures next.enemies == [] && next.coins == [] && Landed(next.player, c) && next.player.x == StartX
  {
    World(false, 0, 0.0, StartSpeed, 0, 0, 0,
          PlayerState(StartX, GroundY(c), 0.0, false), {}, [], [])
  }

  /** `resetGame`: start a run; `best` and the held keys carry over. */
  function Reset(w: World, c: Canvas): (next: World)
    ensures next.running && next.best == w.best && next.keys == w.keys
    ensures next.score == 0 && next.enemies == [] && next.coins == []
    ensures Landed(next.player, c) && next.player.x == StartX
  {
    w.(running := true, score := 0, distance := 0.0, speed := StartSpeed,
       spawnTimer := 0, coinTimer := 0, coins := [], enemies := [],
       player := PlayerState(StartX, GroundY(c), 0.0, false))
  }

  // ---------------------------------------------------------------------------
  // The stages of one tick of `update`

  /** Step 1: ArrowRight then ArrowLeft, each clamped to its side of the lane. */
  function Moved(w: World, c: Canvas): (next: World)
    ensures next == w.(player := w.player.(x := next.player.x))
    ensures LeftLimit <= c.width - RightInset && LeftLimit <= w.player.x <= c.width - RightInset ==>
      LeftLimit <= next.player.x <= c.width - RightInset
  {
    var x1 := if ArrowRight in w.keys then Min(c.width - RightInset, w.player.x + PlayerSpeed) else w.player.x;
    var x2 := if ArrowLeft in w.keys then Max(LeftLimit, x1 - PlayerSpeed) else x1;
    w.(player := w.player.(x := x2))
  }

  /** Step 2: gravity, then landing on the ground line. */
  function Fallen(w: World, c: Canvas): (next: World)
    ensures next == w.(player := next.player) && next.player.x == w.player.x
    ensures next.player.y <= GroundY(c) && (next.player.y == GroundY(c) ==> Landed(next.player, c))
    ensures next.player.jumping ==> w.player.jumping
  {
    var vy := w.player.vy + Gravity;
    var y := w.player.y + vy;
    w.(player :=
      if y >= GroundY(c) then w.player.(y := GroundY(c), vy := 0.0, jumping := false)
      else w.player.(y := y, vy := vy))
  }

  /** The speed the game runs at after covering distance d. */
  function SpeedAt(d: real): real { Min(MaxSpeed, StartSpeed + d / DistancePerSpeedUnit) }

  /** Step 3: distance grows with the old speed, then the speed follows the distance. */
  function Progressed(w: World): (next: World)
    ensures next == w.(distance := next.distance, speed := next.speed)
    ensures 0.0 <= w.distance && 0.0 <= w.speed ==>
      w.distance <= next.distance && StartSpeed <= next.speed <= MaxSpeed
  {
    var d := w.distance + w.speed * DistancePerSpeed;
    w.(distance := d, speed := SpeedAt(d))
  }

  /** `spawnEnemy` with Math.random() = roll. */
  function NewEnemy(c: Canvas, roll: real): (e: Enemy)
    ensures e.x == c.width + SpawnOffset
    ensures IsRandom(roll) ==> EnemyShape(e, c)
  {
    var size := EnemyBaseSize + roll * EnemySizeRange;
    Enemy(c.width + SpawnOffset, GroundY(c) - size + EnemySink, size, size)
  }

  /** `spawnCoin` with Math.random() = roll. */
  function NewCoin(c: Canvas, roll: real): (coin: Coin)
    ensures coin.x == c.width + SpawnOffset && !coin.collected
    ensures IsRandom(roll) ==> CoinShape(coin, c)
  {
    var heightOffset := roll * CoinHeightRange;
    Coin(c.width + SpawnOffset, GroundY(c) - CoinLift - heightOffset, CoinRadius, false)
  }

  /** Step 4: both timers tick; a timer past its interval spawns one entity and restarts at 0. */
  function Spawned(w: World, c: Canvas, r: Roll): (next: World)
    ensures next.spawnTimer <= EnemyInterval && next.coinTimer <= CoinInterval
    ensures |w.enemies| <= |next.enemies| <= |w.enemies| + 1 && next.enemies[..|w.enemies|] == w.enemies
    ensures |w.coins| <= |next.coins| <= |w.coins| + 1 && next.coins[..|w.coins|] == w.coins
  {
    var w1 :=
      if w.spawnTimer + 1 > EnemyInterval then w.(enemies := w.enemies + [NewEnemy(c, r.enemy)], spawnTimer := 0)
      else w.(spawnTimer := w.spawnTimer + 1);
    if w1.coinTimer + 1 > CoinInterval then w1.(coins := w1.coins + [NewCoin(c, r.coin)], coinTimer := 0)
    else w1.(coinTimer := w1.coinTimer + 1)
  }

  function ShiftEnemies(s: seq<Enemy>, dx: real): (r: seq<Enemy>)
    ensures |r| == |s|
  {
    seq(|s|, i requires 0 <= i < |s| => s[i].(x := s[i].x - dx))
  }

  // ShiftEnemies again, for coins: the two entity types differ.
  function ShiftCoins(s: seq<Coin>, dx: real): (r: seq<Coin>)
    ensures |r| == |s|
  {
    seq(|s|, i requires 0 <= i < |s| => s[i].(x := s[i].x - dx))
  }

  /** Step 5: enemies move left by speed + 1, coins by speed (the speed of step 3). */
  function Scrolled(w: World): (next: World)
    ensures next == w.(enemies := next.enemies, coins := next.coins)
    ensures |next.enemies| == |w.enemies| && |next.coins| == |w.coins|
  {
    w.(enemies := ShiftEnemies(w.enemies, w.speed + 1.0), coins := ShiftCoins(w.coins, w.speed))
  }

  /** The state just before the collision checks of a running tick. */
  function Prepared(w: World, c: Canvas, r: Roll): World {
    Scrolled(Spawned(Progressed(Fallen(Moved(w, c), c)), c, r))
  }

  predicate AnyHit(box: Rect, es: seq<Enemy>) {
    exists i :: 0 <= i < |es| && HitEnemy(box, EnemyRect(es[i]))
  }

  /** Step 6, when some enemy touches the player: the run ends. */
  function Collided(w: World): (next: World)
    ensures next == w.(running := false, best := next.best)
    ensures next.best >= w.best && next.best >= w.score && (next.best == w.best || next.best == w.score)
  {
    w.(running := false, best := MaxInt(w.best, w.score))
  }

  predicate Picked(box: Rect, coin: Coin) {
    !coin.collected && IsColliding(box, CoinCircle(coin))
  }

  function Mark(box: Rect, coin: Coin): Coin {
    if Picked(box, coin) then coin.(collected := true) else coin
  }

  function Pickup(box: Rect, s: seq<Coin>): (r: seq<Coin>)
    ensures |r| == |s|
  {
    seq(|s|, i requires 0 <= i < |s| => Mark(box, s[i]))
  }

  /** How many coins of s a pickup pass collects. */
  function PickCount(box: Rect, s: seq<Coin>): nat {
    if |s| == 0 then 0
    else PickCount(box, s[..|s| - 1]) + (if Picked(box, s[|s| - 1]) then 1 else 0)
  }

  /** Step 7: every uncollected coin touching the player is collected and scores one. */
  function Collected(w: World): (next: World)
    ensures next == w.(score := next.score, coins := next.coins)
    ensures next.score >= w.score && |next.coins| == |w.coins|
    ensures PickCount(PlayerBox(next.player), next.coins) == 0
  {
    var box := PlayerBox(w.player);
    PickupOnce(box, w.coins);
    w.(score := w.score + PickCount(box, w.coins), coins := Pickup(box, w.coins))
  }

  /** The elements of s that satisfy p, in their original order. */
  function Filter<T>(p: T -> bool, s: seq<T>): seq<T> {
    if s == [] then [] else (if p(s[0]) then [s[0]] else []) + Filter(p, s[1..])
  }

  predicate CoinStays(coin: Coin) { !(coin.x < CoinExit || coin.collected) }

  predicate EnemyStays(e: Enemy) { !(e.x < EnemyExit) }

  /** Step 8: drop collected and departed coins, and departed enemies. */
  function Cleaned(w: World): (next: World)
    ensures next == w.(coins := next.coins, enemies := next.enemies)
    ensures forall coin :: coin in next.coins ==> coin in w.coins && CoinStays(coin)
    ensures forall e :: e in next.enemies ==> e in w.enemies && EnemyStays(e)
  {
    FilterMembers(CoinStays, w.coins);
    FilterMembers(EnemyStays, w.enemies);
    w.(coins := Filter(CoinStays, w.coins), enemies := Filter(EnemyStays, w.enemies))
  }

  /** One call of `update`, with Math.random() supplied by r. */
  function Step(w: World, c: Canvas, r: Roll): (next: World)
    ensures next.keys == w.keys
    ensures next.running ==> w.running
  {
    if !w.running then w
    else
      var p := Prepared(w, c, r);
      if AnyHit(PlayerBox(p.player), p.enemies) then Collided(p) else Cleaned(Collected(p))
  }

  /** |rolls| calls of `update`. */
  function Run(w: World, c: Canvas, rolls: seq<Roll>): World
    decreases |rolls|
  {
    if rolls == [] then w else Run(Step(w, c, rolls[0]), c, rolls[1..])
  }

  // ---------------------------------------------------------------------------
  // Keyboard handlers

  predicate IsJumpKey(key: string) { key == ArrowUp || key == Space }

  predicate IsStartKey(key: string) { key == Enter || key == Space }

  /** The keydown handler body: record the key, maybe jump, maybe restart. */
  function AfterKeyDown(w: World, c: Canvas, key: string): (next: World)
    ensures next.keys == w.keys + {key} && next.best == w.best
    ensures next.running <==> w.running || IsStartKey(key)
  {
    var w1 := w.(keys := w.keys + {key});
    var w2 :=
      if IsJumpKey(key) && !w1.player.jumping && w1.running
      then w1.(player := w1.player.(vy := JumpVelocity, jumping := true))
      else w1;
    if !w2.running && IsStartKey(key) then Reset(w2, c) else w2
  }

  /** The keyup handler body. */
  function AfterKeyUp(w: World, key: string): (next: World)
    ensures next == w.(keys := next.keys)
    ensures key !in next.keys && next.keys <= w.keys
  {
    w.(keys := w.keys - {key})
  }

  // ---------------------------------------------------------------------------
  // The invariant every reachable state keeps

  predicate Landed(p: PlayerState, c: Canvas) {
    p.y == GroundY(c) && p.vy == 0.0 && !p.jumping
  }

  predicate EnemyShape(e: Enemy, c: Canvas) {
    && EnemyBaseSize <= e.width < EnemyBaseSize + EnemySizeRange
    && e.height == e.width
    && e.y == GroundY(c) - e.width + EnemySink
  }

  predicate CoinShape(coin: Coin, c: Canvas) {
    && coin.radius == CoinRadius
    && GroundY(c) - CoinLift - CoinHeightRange < coin.y <= GroundY(c) - CoinLift
  }

  ghost predicate Inv(w: World, c: Canvas) {
    // the canvas is wide enough for the start position
    && StartX + RightInset <= c.width
    && 0.0 <= w.distance && w.speed == SpeedAt(w.distance)
    && 0 <= w.spawnTimer <= EnemyInterval
    && 0 <= w.coinTimer <= CoinInterval
    && 0 <= w.score && 0 <= w.best
    && LeftLimit <= w.player.x <= c.width - RightInset
    && w.player.y <= GroundY(c)
    // a player that is not jumping stands on the ground
    && (!w.player.jumping ==> Landed(w.player, c))
    // a stopped game never shows a player on the ground in mid-jump
    && (!w.running && w.player.y == GroundY(c) ==> Landed(w.player, c))
    // a jumping player is never at rest on the ground, so a landed player can always jump again
    && (w.player.jumping ==> !(w.player.y == GroundY(c) && w.player.vy == 0.0))
    && (forall e :: e in w.enemies ==> EnemyShape(e, c))
    && (forall coin :: coin in w.coins ==> CoinShape(coin, c) && !coin.collected)
  }

  // ---------------------------------------------------------------------------
  // Geometry facts in the game's terms

  /** Every box the game tests has positive size, so HitEnemy means a shared interior point. */
  lemma PlayerHitsEnemyIffOverlap(p: PlayerState, e: Enemy, c: Canvas)
    requires EnemyShape(e, c)
    ensures HitEnemy(PlayerBox(p), EnemyRect(e)) <==>
      exists px, py :: Interior(PlayerBox(p), px, py) && Interior(EnemyRect(e), px, py)
  {
    HitEnemyIffCommonPoint(PlayerBox(p), EnemyRect(e));
  }

  /**
   * The hit test takes player.y as the top of the player's box, while the
   * sprite is drawn from y - height to y. So a player drawn entirely above an
   * enemy, with a 10-unit gap, still hits it.
   */
  lemma SpriteClearOfEnemyStillHits(c: Canvas, x: real)
    ensures var p := PlayerState(x, GroundY(c) - 40.0, 0.0, true);
      var e := NewEnemy(c, 0.0).(x := x);
      && p.y < e.y                      // the sprite's bottom edge is above the enemy's top edge
      && HitEnemy(PlayerBox(p), EnemyRect(e))
  {
  }

  /** An uncollected coin whose centre lies in the player box is always picked up. */
  lemma CoinAtCentreIsPicked(p: PlayerState, coin: Coin)
    requires !coin.collected && coin.radius == CoinRadius
    requires Within(PlayerBox(p), coin.x, coin.y)
    ensures Picked(PlayerBox(p), coin)
  {
    CentreInsideCollides(PlayerBox(p), CoinCircle(coin));
  }

  // ---------------------------------------------------------------------------
  // Filter

  lemma {:induction false} FilterMembers<T>(p: T -> bool, s: seq<T>)
    ensures forall x :: x in Filter(p, s) <==> x in s && p(x)
  {
    if s != [] {
      FilterMembers(p, s[1..]);
      assert s == [s[0]] + s[1..];
    }
  }

  /** Filtering commutes with concatenation, so survivors keep their relative order. */
  lemma {:induction false} FilterAppend<T>(p: T -> bool, s: seq<T>, t: seq<T>)
    ensures Filter(p, s + t) == Filter(p, s) + Filter(p, t)
  {
    if s == [] {
      assert s + t == t;
    } else {
      FilterAppend(p, s[1..], t);
      assert (s + t)[0] == s[0] && (s + t)[1..] == s[1..] + t;
    }
  }

  // ---------------------------------------------------------------------------
  // Coin pickup

  /** The coins a pickup pass collects. */
  ghost function PickedIndices(box: Rect, s: seq<Coin>): set<int> {
    set i | 0 <= i < |s| && Picked(box, s[i])
  }

  /** The score gained in a pickup pass is the number of uncollected coins touching the player. */
  lemma {:induction false} PickCountIsCardinality(box: Rect, s: seq<Coin>)
    ensures PickCount(box, s) == |PickedIndices(box, s)|
  {
    if s != [] {
      var n := |s| - 1;
      var t := s[..n];
      PickCountIsCardinality(box, t);
      var rest := if Picked(box, s[n]) then {n} else {};
      assert PickedIndices(box, s) == PickedIndices(box, t) + rest;
      assert n !in PickedIndices(box, t);
    }
  }

  /** After a pickup pass no coin is left to pick, so no coin scores twice. */
  lemma {:induction false} PickupOnce(box: Rect, s: seq<Coin>)
    ensures PickCount(box, Pickup(box, s)) == 0
  {
    if s != [] {
      var n := |s| - 1;
      PickupOnce(box, s[..n]);
      assert Pickup(box, s)[..n] == Pickup(box, s[..n]);
    }
  }

  // ---------------------------------------------------------------------------
  // Lifecycle properties

  lemma InitialIsStopped(c: Canvas)
    requires c.width >= 200.0
    ensures !Initial(c).running && Inv(Initial(c), c)
  {
  }

  /** resetGame starts a run from the fixed start values and keeps best and the held keys. */
  lemma ResetStartsRun(w: World, c: Canvas)
    requires Inv(w, c)
    ensures var r := Reset(w, c);
      && r.running && r.score == 0 && r.distance == 0.0 && r.speed == StartSpeed
      && r.spawnTimer == 0 && r.coinTimer == 0 && r.enemies == [] && r.coins == []
      && r.player == PlayerState(StartX, GroundY(c), 0.0, false)
      && r.best == w.best && r.keys == w.keys
      && Inv(r, c)
  {
  }

  /** update on a stopped game changes nothing. */
  lemma StoppedStepIsNoOp(w: World, c: Canvas, r: Roll)
    requires !w.running
    ensures Step(w, c, r) == w
  {
  }

  // ---------------------------------------------------------------------------
  // Properties of one tick

  /** After any update the player is at or above the ground, and on the ground only when landed. */
  lemma StepLands(w: World, c: Canvas, r: Roll)
    requires w.running || Inv(w, c)
    ensures var p := Step(w, c, r).player;
      p.y <= GroundY(c) && (p.y == GroundY(c) ==> p.vy == 0.0 && !p.jumping)
  {
  }

  /** The distance grows by at least 0.4 per tick and the speed stays in [4, 8], never slowing. */
  lemma StepAdvances(w: World, c: Canvas, r: Roll)
    requires Inv(w, c) && w.running
    ensures var n := Step(w, c, r);
      && n.distance >= w.distance + StartSpeed * DistancePerSpeed
      && StartSpeed <= n.speed <= MaxSpeed
      && w.speed <= n.speed
  {
  }

  /** Horizontal movement keeps the player in [60, width - 80] and moves it at most one step. */
  lemma StepKeepsPlayerInLane(w: World, c: Canvas, r: Roll)
    requires w.running
    requires LeftLimit <= w.player.x <= c.width - RightInset
    ensures var x := Step(w, c, r).player.x;
      && LeftLimit <= x <= c.width - RightInset
      && w.player.x - PlayerSpeed <= x <= w.player.x + PlayerSpeed
      && (ArrowRight !in w.keys && ArrowLeft !in w.keys ==> x == w.player.x)
      && (ArrowRight in w.keys && ArrowLeft !in w.keys ==> x >= w.player.x)
      && (ArrowLeft in w.keys && ArrowRight !in w.keys ==> x <= w.player.x)
  {
  }

  /**
   * The spawn stage keeps both timers in range and appends exactly one enemy
   * (resp. coin) exactly when the incremented timer passes its interval.
   */
  lemma SpawnedSpec(w: World, c: Canvas, r: Roll)
    requires ValidRoll(r)
    requires 0 <= w.spawnTimer && 0 <= w.coinTimer
    ensures var s := Spawned(w, c, r);
      && 0 <= s.spawnTimer <= EnemyInterval && 0 <= s.coinTimer <= CoinInterval
      && (w.spawnTimer + 1 > EnemyInterval ==>
            |s.enemies| == |w.enemies| + 1 && s.enemies[..|w.enemies|] == w.enemies && s.spawnTimer == 0)
      && (w.spawnTimer + 1 <= EnemyInterval ==>
            s.enemies == w.enemies && s.spawnTimer == w.spawnTimer + 1)
      && (w.coinTimer + 1 > CoinInterval ==>
            |s.coins| == |w.coins| + 1 && s.coins[..|w.coins|] == w.coins && s.coinTimer == 0)
      && (w.coinTimer + 1 <= CoinInterval ==>
            s.coins == w.coins && s.coinTimer == w.coinTimer + 1)
      && (w.spawnTimer + 1 > EnemyInterval ==>
            var e := s.enemies[|w.enemies|];
            && EnemyShape(e, c) && e.x == c.width + SpawnOffset
            && EnemyBaseSize <= e.width < EnemyBaseSize + EnemySizeRange)
      && (w.coinTimer + 1 > CoinInterval ==>
            var coin := s.coins[|w.coins|];
            && CoinShape(coin, c) && !coin.collected && coin.x == c.width + SpawnOffset)
  {
    var w1 :=
      if w.spawnTimer + 1 > EnemyInterval then w.(enemies := w.enemies + [NewEnemy(c, r.enemy)], spawnTimer := 0)
      else w.(spawnTimer := w.spawnTimer + 1);
    assert w1.enemies == Spawned(w, c, r).enemies;
  }

  /** On the first enemy hit the run ends, best becomes max(best, score) and nothing else is scored or removed. */
  lemma StepHitEndsRun(w: World, c: Canvas, r: Roll)
    requires w.running
    requires var p := Prepared(w, c, r); AnyHit(PlayerBox(p.player), p.enemies)
    ensures var n, p := Step(w, c, r), Prepared(w, c, r);
      && !n.running && n.best == MaxInt(w.best, w.score) && n.best >= w.best
      && n.score == w.score && n.coins == p.coins && n.enemies == p.enemies
  {
  }

  /** Without a hit the score grows by exactly the number of uncollected coins touching the player. */
  lemma StepScore(w: World, c: Canvas, r: Roll)
    requires w.running
    requires var p := Prepared(w, c, r); !AnyHit(PlayerBox(p.player), p.enemies)
    ensures var n, p := Step(w, c, r), Prepared(w, c, r);
      && n.running && n.best == w.best
      && n.score == w.score + |PickedIndices(PlayerBox(p.player), p.coins)|
  {
    var p := Prepared(w, c, r);
    PickCountIsCardinality(PlayerBox(p.player), p.coins);
  }

  /**
   * Without a hit, the coins left are exactly the picked-over coins that are
   * neither collected nor past x = -50, the enemies left exactly those not
   * past x = -80, each in its original order.
   */
  lemma StepCleanup(w: World, c: Canvas, r: Roll)
    requires w.running
    requires var p := Prepared(w, c, r); !AnyHit(PlayerBox(p.player), p.enemies)
    ensures var n, p := Step(w, c, r), Prepared(w, c, r);
      && n.coins == Filter(CoinStays, Pickup(PlayerBox(p.player), p.coins))
      && n.enemies == Filter(EnemyStays, p.enemies)
      && (forall coin :: coin in n.coins <==>
            coin in Pickup(PlayerBox(p.player), p.coins) && !coin.collected && coin.x >= CoinExit)
      && (forall e :: e in n.enemies <==> e in p.enemies && e.x >= EnemyExit)
  {
    var p := Prepared(w, c, r);
    FilterMembers(CoinStays, Pickup(PlayerBox(p.player), p.coins));
    FilterMembers(EnemyStays, p.enemies);
  }

  /** best and score never decrease in a tick. */
  lemma StepMonotone(w: World, c: Canvas, r: Roll)
    ensures var n := Step(w, c, r); n.best >= w.best && n.score >= w.score
  {
  }

  lemma ShiftedEnemiesKeepShape(s: seq<Enemy>, dx: real, c: Canvas)
    requires forall e :: e in s ==> EnemyShape(e, c)
    ensures forall e :: e in ShiftEnemies(s, dx) ==> EnemyShape(e, c)
  {
    forall e | e in ShiftEnemies(s, dx) ensures EnemyShape(e, c) {
      var i :| 0 <= i < |s| && ShiftEnemies(s, dx)[i] == e;
      assert s[i] in s;
    }
  }

  // The same argument as ShiftedEnemiesKeepShape: enemies and coins are distinct types.
  lemma ShiftedCoinsKeepShape(s: seq<Coin>, dx: real, c: Canvas)
    requires forall coin :: coin in s ==> CoinShape(coin, c) && !coin.collected
    ensures forall coin :: coin in ShiftCoins(s, dx) ==> CoinShape(coin, c) && !coin.collected
  {
    forall coin | coin in ShiftCoins(s, dx) ensures CoinShape(coin, c) && !coin.collected {
      var i :| 0 <= i < |s| && ShiftCoins(s, dx)[i] == coin;
      assert s[i] in s;
    }
  }

  lemma PickupKeepsShape(box: Rect, s: seq<Coin>, c: Canvas)
    requires forall coin :: coin in s ==> CoinShape(coin, c)
    ensures forall coin :: coin in Pickup(box, s) ==> CoinShape(coin, c)
  {
    forall coin | coin in Pickup(box, s) ensures CoinShape(coin, c) {
      var i :| 0 <= i < |s| && Pickup(box, s)[i] == coin;
      assert s[i] in s;
    }
  }

  /**
   * Before the collision checks of a running tick the state already satisfies
   * the invariant of a stopped game (in particular, a player on the ground has landed).
   */
  lemma PreparedInv(w: World, c: Canvas, r: Roll)
    requires Inv(w, c) && w.running && ValidRoll(r)
    ensures Inv(Prepared(w, c, r).(running := false), c)
  {
    var f := Fallen(Moved(w, c), c);
    assert f.player.y <= GroundY(c);
    assert !f.player.jumping ==> Landed(f.player, c);
    assert f.player.y == GroundY(c) ==> Landed(f.player, c);
    var g := Progressed(f);
    assert 0.0 <= g.distance && g.speed == SpeedAt(g.distance);
    var s := Spawned(g, c, r);
    SpawnedSpec(g, c, r);
    assert forall e :: e in s.enemies ==> EnemyShape(e, c);
    assert forall coin :: coin in s.coins ==> CoinShape(coin, c) && !coin.collected;
    ShiftedEnemiesKeepShape(s.enemies, s.speed + 1.0, c);
    ShiftedCoinsKeepShape(s.coins, s.speed, c);
  }

  /** Both outcomes of the collision checks keep the invariant. */
  lemma ResolvedInv(p: World, c: Canvas)
    requires Inv(p.(running := false), c)
    ensures Inv(Collided(p), c)
    ensures p.running ==> Inv(Cleaned(Collected(p)), c)
  {
    var box := PlayerBox(p.player);
    PickupKeepsShape(box, p.coins, c);
    FilterMembers(CoinStays, Pickup(box, p.coins));
    FilterMembers(EnemyStays, p.enemies);
  }

  /** Every tick keeps the invariant. */
  lemma StepPreservesInv(w: World, c: Canvas, r: Roll)
    requires Inv(w, c) && ValidRoll(r)
    ensures Inv(Step(w, c, r), c)
  {
    if w.running {
      PreparedInv(w, c, r);
      ResolvedInv(Prepared(w, c, r), c);
    }
  }

  // ---------------------------------------------------------------------------
  // Keyboard properties

  /** keydown adds the key (idempotently) and keyup removes it. */
  lemma KeysAreASet(w: World, c: Canvas, key: string)
    ensures AfterKeyDown(w, c, key).keys == w.keys + {key}
    ensures key in w.keys ==> AfterKeyDown(w, c, key).keys == w.keys
    ensures AfterKeyUp(w, key).keys == w.keys - {key}
    ensures key !in AfterKeyUp(AfterKeyDown(w, c, key), key).keys
  {
  }

  /** A jump key gives the one-shot impulse exactly when running and not already jumping. */
  lemma KeyDownJump(w: World, c: Canvas, key: string)
    ensures var n := AfterKeyDown(w, c, key);
      && (IsJumpKey(key) && w.running && !w.player.jumping ==>
            n.running && n.player == w.player.(vy := JumpVelocity, jumping := true))
      && (!(IsJumpKey(key) && w.running && !w.player.jumping) && !(!w.running && IsStartKey(key)) ==>
            n == w.(keys := w.keys + {key}))
  {
  }

  /** Under the invariant, a running player at rest on the ground always jumps on ArrowUp or Space. */
  lemma LandedPlayerCanJump(w: World, c: Canvas, key: string)
    requires Inv(w, c) && w.running && IsJumpKey(key)
    requires w.player.y == GroundY(c) && w.player.vy == 0.0
    ensures var n := AfterKeyDown(w, c, key);
      n.running && n.player.vy == JumpVelocity && n.player.jumping
  {
  }

  /** Enter or Space on a stopped game restarts it; a restarting Space does not also jump. */
  lemma KeyDownRestart(w: World, c: Canvas, key: string)
    requires !w.running && IsStartKey(key)
    ensures var n := AfterKeyDown(w, c, key);
      && n == Reset(w.(keys := w.keys + {key}), c)
      && n.running && n.player.vy == 0.0 && !n.player.jumping
  {
  }

  lemma KeyHandlersPreserveInv(w: World, c: Canvas, key: string)
    requires Inv(w, c)
    ensures Inv(AfterKeyDown(w, c, key), c) && Inv(AfterKeyUp(w, key), c)
    ensures AfterKeyDown(w, c, key).best == w.best
  {
  }

  // ---------------------------------------------------------------------------
  // Many ticks

  lemma {:induction false} RunAppend(w: World, c: Canvas, rolls: seq<Roll>, r: Roll)
    ensures Run(w, c, rolls + [r]) == Step(Run(w, c, rolls), c, r)
    decreases |rolls|
  {
    if rolls == [] {
      assert Run(Step(w, c, r), c, []) == Step(w, c, r);
    } else {
      assert (rolls + [r])[1..] == rolls[1..] + [r];
      RunAppend(Step(w, c, rolls[0]), c, rolls[1..], r);
    }
  }

  /** Any number of ticks keeps the invariant; best, score and distance never decrease. */
  lemma {:induction false} RunPreservesInv(w: World, c: Canvas, rolls: seq<Roll>)
    requires Inv(w, c)
    requires forall i :: 0 <= i < |rolls| ==> ValidRoll(rolls[i])
    ensures var n := Run(w, c, rolls);
      Inv(n, c) && n.best >= w.best && n.score >= w.score && n.distance >= w.distance
    decreases |rolls|
  {
    if rolls != [] {
      StepPreservesInv(w, c, rolls[0]);
      StepMonotone(w, c, rolls[0]);
      if w.running {
        StepAdvances(w, c, rolls[0]);
      }
      RunPreservesInv(Step(w, c, rolls[0]), c, rolls[1..]);
    }
  }

  /** For the first 80 ticks after a reset there is no enemy, so the run goes on. */
  lemma {:induction false} QuietStart(w: World, c: Canvas, rolls: seq<Roll>)
    requires Inv(w, c)
    requires |rolls| <= EnemyInterval
    requires forall i :: 0 <= i < |rolls| ==> ValidRoll(rolls[i])
    ensures var n := Run(Reset(w, c), c, rolls);
      n.running && n.enemies == [] && n.spawnTimer == |rolls|
    decreases |rolls|
  {
    if rolls != [] {
      var k := |rolls| - 1;
      assert rolls == rolls[..k] + [rolls[k]];
      QuietStart(w, c, rolls[..k]);
      RunAppend(Reset(w, c), c, rolls[..k], rolls[k]);
    }
  }

  /** The tick on which the spawn timer passes 80 with no enemy on the field adds one enemy that misses the player. */
  lemma FirstSpawnMisses(m: World, c: Canvas, r: Roll)
    requires Inv(m, c) && m.running && ValidRoll(r)
    requires m.enemies == [] && m.spawnTimer == EnemyInterval
    ensures var n := Step(m, c, r); n.running && |n.enemies| == 1 && n.spawnTimer == 0
  {
    var p := Prepared(m, c, r);
    var e := NewEnemy(c, r.enemy);
    SpawnedSpec(Progressed(Fallen(Moved(m, c), c)), c, r);
    assert p.enemies == [e.(x := e.x - (p.speed + 1.0))];
    assert !HitEnemy(PlayerBox(p.player), EnemyRect(p.enemies[0]));
    assert !AnyHit(PlayerBox(p.player), p.enemies);
    assert Filter(EnemyStays, p.enemies) == p.enemies;
  }

  /** Tick 81 after a reset spawns the first enemy, which cannot hit the player yet. */
  lemma FirstEnemyOnTick81(w: World, c: Canvas, rolls: seq<Roll>)
    requires Inv(w, c)
    requires |rolls| == EnemyInterval + 1
    requires forall i :: 0 <= i < |rolls| ==> ValidRoll(rolls[i])
    ensures var n := Run(Reset(w, c), c, rolls);
      n.running && |n.enemies| == 1 && n.spawnTimer == 0
  {
    var k := EnemyInterval;
    var start := Reset(w, c);
    assert rolls == rolls[..k] + [rolls[k]];
    QuietStart(w, c, rolls[..k]);
    ResetStartsRun(w, c);
    RunPreservesInv(start, c, rolls[..k]);
    RunAppend(start, c, rolls[..k], rolls[k]);
    FirstSpawnMisses(Run(start, c, rolls[..k]), c, rolls[k]);
  }
}
