/**
 * The module-level state of renderer.js as objects updated in place:
 * `player` is a Player object, and `state`, `keys`, `enemies` and `coins`
 * are fields of one Game. Each method does what the corresponding piece of
 * renderer.js does, step by step, and is proved to produce exactly the state
 * that the matching function of module Simulation describes.
 */
module Engine {
  import opened Geometry
  import opened Simulation

  class Player {
    var x: real
    var y: real
    const width: real
    const height: real
    var vy: real
    const speed: real
    var jumping: bool

    /** The `player` record as declared: at the start position, standing on the ground. */
    constructor (groundY: real)
      ensures x == StartX && y == groundY && vy == 0.0 && !jumping
      ensures width == PlayerWidth && height == PlayerHeight && speed == PlayerSpeed
    {
      x := StartX;
      y := groundY;
      width := PlayerWidth;
      height := PlayerHeight;
      vy := 0.0;
      speed := PlayerSpeed;
      jumping := false;
    }

    function Box(): Rect
      reads this
    {
      Rect(x, y, width, height)
    }

    ghost function State(): PlayerState
      reads this
    {
      PlayerState(x, y, vy, jumping)
    }
  }

  class Game {
    const canvas: Canvas
    const groundY: real
    var running: bool
    var score: int
    var distance: real
    var speed: real
    var best: int
    var spawnTimer: int
    var coinTimer: int
    const player: Player
    var keys: set<string>
    var coins: seq<Coin>
    var enemies: seq<Enemy>

    ghost function Snapshot(): World
      reads this, player
    {
      World(running, score, distance, speed, best, spawnTimer, coinTimer,
            player.State(), keys, enemies, coins)
    }

    ghost predicate Valid()
      reads this, player
    {
      && groundY == GroundY(canvas)
      && player.width == PlayerWidth && player.height == PlayerHeight && player.speed == PlayerSpeed
      && Inv(Snapshot(), canvas)
    }

    /** The module's start-up: a stopped game on a canvas of the given size. */
    constructor (width: real, height: real)
      requires StartX + RightInset <= width
      ensures Valid() && fresh(player)
      ensures canvas == Canvas(width, height) && Snapshot() == Initial(canvas)
    {
      canvas := Canvas(width, height);
      groundY := height - GroundInset;
      running := false;
      score := 0;
      distance := 0.0;
      speed := StartSpeed;
      best := 0;
      spawnTimer := 0;
      coinTimer := 0;
      player := new Player(height - GroundInset);
      keys := {};
      coins := [];
      enemies := [];
    }

    /** `resetGame`. */
    method ResetGame()
      requires Valid()
      modifies this, player
      ensures Valid()
      ensures Snapshot() == Reset(old(Snapshot()), canvas)
    {
      ResetStartsRun(Snapshot(), canvas);
      running := true;
      score := 0;
      distance := 0.0;
      speed := StartSpeed;
      spawnTimer := 0;
      coinTimer := 0;
      coins := [];
      enemies := [];
      player.x := StartX;
      player.y := groundY;
      player.vy := 0.0;
      player.jumping := false;
    }

    /** `spawnEnemy`, with Math.random() = roll. */
    method SpawnEnemy(roll: real)
      requires groundY == GroundY(canvas)
      modifies this`enemies
      ensures enemies == old(enemies) + [NewEnemy(canvas, roll)]
    {
      var size := EnemyBaseSize + roll * EnemySizeRange;
      enemies := enemies + [Enemy(canvas.width + SpawnOffset, groundY - size + EnemySink, size, size)];
    }

    /** `spawnCoin`, with Math.random() = roll. */
    method SpawnCoin(roll: real)
      requires groundY == GroundY(canvas)
      modifies this`coins
      ensures coins == old(coins) + [NewCoin(canvas, roll)]
    {
      var heightOffset := roll * CoinHeightRange;
      coins := coins + [Coin(canvas.width + SpawnOffset, groundY - CoinLift - heightOffset, CoinRadius, false)];
    }

    /** The forEach that moves every enemy left by speed + 1. */
    method ScrollEnemies()
      modifies this`enemies
      ensures enemies == ShiftEnemies(old(enemies), speed + 1.0)
    {
      var i := 0;
      while i < |enemies|
        invariant 0 <= i <= |enemies| == |old(enemies)|
        invariant forall j :: 0 <= j < i ==> enemies[j] == old(enemies)[j].(x := old(enemies)[j].x - (speed + 1.0))
        invariant forall j :: i <= j < |enemies| ==> enemies[j] == old(enemies)[j]
      {
        enemies := enemies[i := enemies[i].(x := enemies[i].x - (speed + 1.0))];
        i := i + 1;
      }
    }

    /** The forEach that moves every coin left by speed. */
    method ScrollCoins()
      modifies this`coins
      ensures coins == ShiftCoins(old(coins), speed)
    {
      var i := 0;
      while i < |coins|
        invariant 0 <= i <= |coins| == |old(coins)|
        invariant forall j :: 0 <= j < i ==> coins[j] == old(coins)[j].(x := old(coins)[j].x - speed)
        invariant forall j :: i <= j < |coins| ==> coins[j] == old(coins)[j]
      {
        coins := coins[i := coins[i].(x := coins[i].x - speed)];
        i := i + 1;
      }
    }

    /** The for-of loop over enemies, stopping at the first one that touches the player. */
    method HitsAnyEnemy() returns (hit: bool)
      ensures hit == AnyHit(player.Box(), enemies)
    {
      var box := player.Box();
      for i := 0 to |enemies|
        invariant forall j :: 0 <= j < i ==> !HitEnemy(box, EnemyRect(enemies[j]))
      {
        if HitEnemy(box, EnemyRect(enemies[i])) {
          return true;
        }
      }
      return false;
    }

    /** The forEach that collects every uncollected coin touching the player. */
    method CollectCoins()
      modifies this`coins, this`score
      ensures coins == Pickup(player.Box(), old(coins))
      ensures score == old(score) + PickCount(player.Box(), old(coins))
    {
      var box := player.Box();
      ghost var orig := coins;
      var i := 0;
      while i < |coins|
        invariant 0 <= i <= |coins| == |orig|
        invariant forall j :: 0 <= j < i ==> coins[j] == Mark(box, orig[j])
        invariant forall j :: i <= j < |coins| ==> coins[j] == orig[j]
        invariant score == old(score) + PickCount(box, orig[..i])
      {
        assert orig[..i + 1][..i] == orig[..i];
        if !coins[i].collected && IsColliding(box, Circle(coins[i].x, coins[i].y, coins[i].radius)) {
          coins := coins[i := coins[i].(collected := true)];
          score := score + 1;
        }
        i := i + 1;
      }
      assert orig[..i] == orig;
    }

    /** The tail-to-head loop that splices out collected coins and coins past x = -50. */
    method RemoveSpentCoins()
      modifies this`coins
      ensures coins == Filter(CoinStays, old(coins))
    {
      ghost var orig := coins;
      var i := |coins|;
      while i > 0
        invariant 0 <= i <= |orig|
        invariant coins == orig[..i] + Filter(CoinStays, orig[i..])
      {
        i := i - 1;
        assert orig[i..] == [orig[i]] + orig[i + 1..];
        assert coins[..i] == orig[..i] && coins[i] == orig[i];
        if coins[i].x < CoinExit || coins[i].collected {
          coins := coins[..i] + coins[i + 1..];
        }
      }
    }

    /** The tail-to-head loop that splices out enemies past x = -80. */
    method RemovePassedEnemies()
      modifies this`enemies
      ensures enemies == Filter(EnemyStays, old(enemies))
    {
      ghost var orig := enemies;
      var i := |enemies|;
      while i > 0
        invariant 0 <= i <= |orig|
        invariant enemies == orig[..i] + Filter(EnemyStays, orig[i..])
      {
        i := i - 1;
        assert orig[i..] == [orig[i]] + orig[i + 1..];
        assert enemies[..i] == orig[..i] && enemies[i] == orig[i];
        if enemies[i].x < EnemyExit {
          enemies := enemies[..i] + enemies[i + 1..];
        }
      }
    }

    /** Step 1 of `update`: ArrowRight, then ArrowLeft, each clamped. */
    method MovePlayer()
      requires player.speed == PlayerSpeed
      modifies player`x
      ensures Snapshot() == Moved(old(Snapshot()), canvas)
    {
      if ArrowRight in keys {
        player.x := Min(canvas.width - RightInset, player.x + player.speed);
      }
      if ArrowLeft in keys {
        player.x := Max(LeftLimit, player.x - player.speed);
      }
    }

    /** Step 2 of `update`: gravity and landing. */
    method ApplyGravity()
      requires groundY == GroundY(canvas)
      modifies player`y, player`vy, player`jumping
      ensures Snapshot() == Fallen(old(Snapshot()), canvas)
    {
      player.vy := player.vy + Gravity;
      player.y := player.y + player.vy;
      if player.y >= groundY {
        player.y := groundY;
        player.vy := 0.0;
        player.jumping := false;
      }
    }

    /** Step 3 of `update`: the distance grows with the current speed, then the speed follows it. */
    method Accelerate()
      modifies this`distance, this`speed
      ensures Snapshot() == Progressed(old(Snapshot()))
    {
      distance := distance + speed * DistancePerSpeed;
      speed := Min(MaxSpeed, StartSpeed + distance / DistancePerSpeedUnit);
    }

    /** Step 4 of `update`: the two spawn timers. */
    method TickSpawners(r: Roll)
      requires groundY == GroundY(canvas)
      modifies this`spawnTimer, this`coinTimer, this`enemies, this`coins
      ensures Snapshot() == Spawned(old(Snapshot()), canvas, r)
    {
      spawnTimer := spawnTimer + 1;
      if spawnTimer > EnemyInterval {
        SpawnEnemy(r.enemy);
        spawnTimer := 0;
      }
      coinTimer := coinTimer + 1;
      if coinTimer > CoinInterval {
        SpawnCoin(r.coin);
        coinTimer := 0;
      }
    }

    /** Steps 1 to 5 of `update` on a running game: move, fall, advance, spawn and scroll. */
    method Advance(r: Roll)
      requires groundY == GroundY(canvas) && player.speed == PlayerSpeed
      modifies this`distance, this`speed, this`spawnTimer, this`coinTimer, this`enemies, this`coins
      modifies player`x, player`y, player`vy, player`jumping
      ensures Snapshot() == Prepared(old(Snapshot()), canvas, r)
    {
      MovePlayer();
      ApplyGravity();
      Accelerate();
      TickSpawners(r);
      ScrollEnemies();
      ScrollCoins();
    }

    /** `update`: one tick, with the spawn draws of Math.random() supplied by r. */
    method Update(r: Roll)
      requires Valid() && ValidRoll(r)
      modifies this, player
      ensures Valid()
      ensures Snapshot() == Step(old(Snapshot()), canvas, r)
    {
      ghost var w := Snapshot();
      if running {
        Advance(r);
        ghost var p := Snapshot();
        assert player.Box() == PlayerBox(p.player);

        var hit := HitsAnyEnemy();
        if hit {
          // the source returns here: no pickup and no removal on the tick that ends the run
          running := false;
          best := if best >= score then best else score;
          assert Snapshot() == Collided(p);
        } else {
          CollectCoins();
          assert Snapshot() == Collected(p);
          RemoveSpentCoins();
          RemovePassedEnemies();
          assert Snapshot() == Cleaned(Collected(p));
        }
      }
      assert Snapshot() == Step(w, canvas, r);
      StepPreservesInv(w, canvas, r);
    }

    /** The keydown handler body. */
    method KeyDown(key: string)
      requires Valid()
      modifies this, player
      ensures Valid()
      ensures Snapshot() == AfterKeyDown(old(Snapshot()), canvas, key)
    {
      KeyHandlersPreserveInv(Snapshot(), canvas, key);
      keys := keys + {key};
      if (key == ArrowUp || key == Space) && !player.jumping && running {
        player.vy := JumpVelocity;
        player.jumping := true;
      }
      if !running && (key == Enter || key == Space) {
        ResetGame();
      }
    }

    /** The keyup handler body. */
    method KeyUp(key: string)
      requires Valid()
      modifies this
      ensures Valid()
      ensures Snapshot() == AfterKeyUp(old(Snapshot()), key)
    {
      KeyHandlersPreserveInv(Snapshot(), canvas, key);
      keys := keys - {key};
    }
  }
}
