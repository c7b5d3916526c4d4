/**
 * Actors and the level they live in (game.js:22-66, 69-149, 201-300).
 * Actor and Level share a module: a fireball's step queries its level, and a
 * level holds its actors.
 */
module Game {
  import opened Wrappers
  import opened Geometry
  import opened Grid

  /** The variants of the fireball family; a fire rain remembers where it started. */
  datatype FireballKind = PlainFireball | Horizontal | Vertical | Rain(startPos: Vector)

  /** The variant an actor was built as; a coin remembers its resting position. */
  datatype Kind = PlainActor | PlayerActor | CoinActor(startPos: Vector) | FireballActor(fire: FireballKind) {

    /** The capability tag the level dispatches on; each variant has its own. */
    function TypeName(): (r: string)
      ensures r == "actor" <==> PlainActor?
      ensures r == "player" <==> PlayerActor?
      ensures r == "coin" <==> CoinActor?
      ensures r == "fireball" <==> FireballActor?
    {
      match this
      case PlainActor => "actor"
      case PlayerActor => "player"
      case CoinActor(_) => "coin"
      case FireballActor(_) => "fireball"
    }
  }

  /** The outcome of a level once it is decided. */
  datatype Status = Won | Lost

  /** A snapshot of an actor's fields. */
  datatype ActorState = ActorState(kind: Kind, pos: Vector, size: Vector, speed: Vector)

  class Actor {
    var pos: Vector
    const size: Vector
    var speed: Vector
    const kind: Kind

    /** A plain actor with the given position, size and speed. */
    constructor (pos: Vector, size: Vector, speed: Vector)
      ensures this.pos == pos && this.size == size && this.speed == speed && kind == PlainActor
    {
      this.pos, this.size, this.speed := pos, size, speed;
      kind := PlainActor;
    }

    /** A fireball of unit size with the given speed. */
    constructor Fireball(pos: Vector, speed: Vector)
      ensures this.pos == pos && size == Vector(1.0, 1.0) && this.speed == speed
      ensures kind == FireballActor(PlainFireball)
    {
      this.pos, size, this.speed := pos, Vector(1.0, 1.0), speed;
      kind := FireballActor(PlainFireball);
    }

    /** A fireball that starts moving right at 2 cells per unit of time. */
    constructor HorizontalFireball(pos: Vector)
      ensures this.pos == pos && size == Vector(1.0, 1.0) && speed == Vector(2.0, 0.0)
      ensures kind == FireballActor(Horizontal)
    {
      this.pos, size, speed := pos, Vector(1.0, 1.0), Vector(2.0, 0.0);
      kind := FireballActor(Horizontal);
    }

    /** A fireball that starts moving down at 2 cells per unit of time. */
    constructor VerticalFireball(pos: Vector)
      ensures this.pos == pos && size == Vector(1.0, 1.0) && speed == Vector(0.0, 2.0)
      ensures kind == FireballActor(Vertical)
    {
      this.pos, size, speed := pos, Vector(1.0, 1.0), Vector(0.0, 2.0);
      kind := FireballActor(Vertical);
    }

    /** A falling fireball (speed 3 downwards) that returns to `pos` when it hits something. */
    constructor FireRain(pos: Vector)
      ensures this.pos == pos && size == Vector(1.0, 1.0) && speed == Vector(0.0, 3.0)
      ensures kind == FireballActor(Rain(pos))
    {
      this.pos, size, speed := pos, Vector(1.0, 1.0), Vector(0.0, 3.0);
      kind := FireballActor(Rain(pos));
    }

    /** A coin of size 0.6 x 0.6, offset by (0.2, 0.1) inside its cell. */
    constructor Coin(cell: Vector)
      ensures pos == cell.Plus(Vector(0.2, 0.1)) && size == Vector(0.6, 0.6) && speed == Vector(0.0, 0.0)
      ensures kind == CoinActor(cell.Plus(Vector(0.2, 0.1)))
    {
      pos, size, speed := cell.Plus(Vector(0.2, 0.1)), Vector(0.6, 0.6), Vector(0.0, 0.0);
      kind := CoinActor(cell.Plus(Vector(0.2, 0.1)));
    }

    /** The player, 0.8 wide and 1.5 tall, raised by half a cell so that its feet rest on the cell's floor. */
    constructor Player(cell: Vector)
      ensures pos == cell.Plus(Vector(0.0, -0.5)) && size == Vector(0.8, 1.5) && speed == Vector(0.0, 0.0)
      ensures kind == PlayerActor
    {
      pos, size, speed := cell.Plus(Vector(0.0, -0.5)), Vector(0.8, 1.5), Vector(0.0, 0.0);
      kind := PlayerActor;
    }

    function State(): ActorState
      reads this
    {
      ActorState(kind, pos, size, speed)
    }

    /** The actor's bounding box: its left, top, right and bottom edges. */
    function Bounds(): Box
      reads this
    {
      Box(pos, size)
    }

    /** Whether this actor's box strictly overlaps `other`'s; never true of the actor itself. */
    predicate IsIntersect(other: Actor): (r: bool)
      reads this, other
      ensures r ==> other != this
      ensures other != this ==> (r <==> other.Bounds().Overlaps(Bounds()))
    {
      other != this && Bounds().Overlaps(other.Bounds())
    }

    /** Where a fireball would be after `time` at its current speed. */
    function NextPosition(time: real): (r: Vector)
      reads this
      ensures r.x - pos.x == speed.x * time && r.y - pos.y == speed.y * time
      ensures time == 0.0 ==> r == pos
    {
      pos.Plus(speed.Times(time))
    }

    /**
     * A fireball's reaction to an obstacle: a fire rain goes back to its start,
     * every other fireball reverses both speed components.
     */
    method HandleObstacle()
      requires kind.FireballActor?
      modifies this
      ensures kind.fire.Rain? ==> pos == kind.fire.startPos && speed == old(speed)
      ensures !kind.fire.Rain? ==> pos == old(pos) && speed == Vector(-old(speed).x, -old(speed).y)
    {
      if kind.fire.Rain? {
        pos := kind.fire.startPos;
      } else {
        speed := Vector(-speed.x, -speed.y);
      }
    }

    /**
     * One tick of length `time`. A fireball moves to its next position unless
     * the level reports an obstacle there, in which case it handles the
     * obstacle instead; the player and plain actors do nothing.
     */
    method Act(time: real, level: Level)
      requires !kind.CoinActor?
      modifies this
      ensures !kind.FireballActor? ==> pos == old(pos) && speed == old(speed)
      ensures kind.FireballActor? ==>
                var next := old(pos).Plus(old(speed).Times(time));
                if ObstacleIn(level.grid, level.width, Box(next, size)) == Empty then
                  pos == next && speed == old(speed)
                else if kind.fire.Rain? then
                  pos == kind.fire.startPos && speed == old(speed)
                else
                  pos == old(pos) && speed == Vector(-old(speed).x, -old(speed).y)
    {
      if kind.FireballActor? {
        var next := NextPosition(time);
        var obstacle := level.ObstacleAt(next, size);
        if obstacle != Empty {
          HandleObstacle();
          return;
        }
        pos := next;
      }
    }
  }

  lemma IntersectIrreflexive(a: Actor)
    ensures !a.IsIntersect(a)
  {
  }

  /** Between distinct actors, intersection is the strict overlap of their edges, and it is symmetric. */
  lemma IntersectDistinct(a: Actor, b: Actor)
    requires a != b
    ensures a.IsIntersect(b) <==>
              a.Bounds().Left() < b.Bounds().Right() && a.Bounds().Right() > b.Bounds().Left() &&
              a.Bounds().Top() < b.Bounds().Bottom() && a.Bounds().Bottom() > b.Bounds().Top()
    ensures a.IsIntersect(b) <==> b.IsIntersect(a)
  {
    OverlapsSymmetric(a.Bounds(), b.Bounds());
  }

  /** The index of the first actor of `s` whose tag is `tag`, if any. */
  function FindOfType(s: seq<Actor>, tag: string): (r: Option<nat>)
    ensures r.None? <==> forall i :: 0 <= i < |s| ==> s[i].kind.TypeName() != tag
    ensures r.Some? ==>
              r.value < |s| && s[r.value].kind.TypeName() == tag &&
              forall j :: 0 <= j < r.value ==> s[j].kind.TypeName() != tag
  {
    if s == [] then None
    else if s[0].kind.TypeName() == tag then Some(0)
    else match FindOfType(s[1..], tag)
      case None => None
      case Some(i) => Some(i + 1)
  }

  /** `s` without every occurrence of `target`, in the original order. */
  function Without(s: seq<Actor>, target: Actor): (r: seq<Actor>)
    ensures multiset(r) == multiset(s)[target := 0]
  {
    if s == [] then []
    else
      assert s == [s[0]] + s[1..];
      if s[0] == target then Without(s[1..], target) else [s[0]] + Without(s[1..], target)
  }

  lemma {:induction false} WithoutAbsent(s: seq<Actor>, target: Actor)
    requires target !in s
    ensures Without(s, target) == s
  {
    if s != [] {
      WithoutAbsent(s[1..], target);
    }
  }

  /** Filtering one actor keeps it only when it is not the target. */
  lemma WithoutSingle(x: Actor, target: Actor)
    ensures Without([x], target) == if x == target then [] else [x]
  {
    assert [x][1..] == [];
  }

  /**
   * Filtering distributes over concatenation; with `WithoutSingle` this fixes
   * `Without` as the filter that keeps the other actors in their order.
   */
  lemma {:induction false} WithoutAppend(a: seq<Actor>, b: seq<Actor>, target: Actor)
    ensures Without(a + b, target) == Without(a, target) + Without(b, target)
  {
    if a != [] {
      assert (a + b)[0] == a[0] && (a + b)[1..] == a[1..] + b;
      WithoutAppend(a[1..], b, target);
    } else {
      assert a + b == b;
    }
  }

  lemma {:induction false} WithoutIdempotent(s: seq<Actor>, target: Actor)
    ensures Without(Without(s, target), target) == Without(s, target)
  {
    assert multiset(Without(s, target))[target] == 0;
    WithoutAbsent(Without(s, target), target);
  }

  /** The tag of the actor passed to `PlayerTouched`; a missing actor is a fresh plain actor. */
  function TouchedType(actor: Actor?): string {
    if actor == null then "actor" else actor.kind.TypeName()
  }

  class Level {
    const grid: seq<seq<Cell>>
    const height: nat := |grid|
    const width: nat := MaxRowLength(grid)
    const player: Actor?
    var actors: seq<Actor>
    var status: Option<Status>
    /** Written only by the caller that steps the level. */
    var finishDelay: real

    constructor (grid: seq<seq<Cell>>, actors: seq<Actor>)
      ensures this.grid == grid && this.actors == actors
      ensures height == |grid|
      ensures forall i :: 0 <= i < |grid| ==> |grid[i]| <= width
      ensures grid == [] ==> width == 0
      ensures grid != [] ==> exists i :: 0 <= i < |grid| && |grid[i]| == width
      ensures player != null <==> exists i :: 0 <= i < |actors| && actors[i].kind.TypeName() == "player"
      ensures player != null ==>
                exists i :: 0 <= i < |actors| && actors[i] == player &&
                  player.kind.TypeName() == "player" &&
                  forall j :: 0 <= j < i ==> actors[j].kind.TypeName() != "player"
      ensures player == (match FindOfType(actors, "player") case Some(i) => actors[i] case None => null)
      ensures status == None && finishDelay == 1.0 && !IsFinished()
    {
      this.grid := grid;
      this.actors := actors;
      match FindOfType(actors, "player") {
        case Some(i) => player := actors[i];
        case None => player := null;
      }
      status := None;
      finishDelay := 1.0;
      new;
      assert width == MaxRowLength(grid);
    }

    /** The level is over once it has an outcome and its grace period has run out. */
    predicate IsFinished(): (r: bool)
      reads this
      ensures r ==> status.Some?
      ensures finishDelay >= 0.0 ==> !r
      ensures status.Some? && finishDelay < 0.0 ==> r
    {
      status.Some? && finishDelay < 0.0
    }

    /** The first actor, in list order, that intersects `moving`, or null if none does. */
    method ActorAt(moving: Actor) returns (r: Actor?)
      ensures r == null <==> forall i :: 0 <= i < |actors| ==> !actors[i].IsIntersect(moving)
      ensures r != null ==>
                exists i :: 0 <= i < |actors| && actors[i] == r && r.IsIntersect(moving) &&
                  forall j :: 0 <= j < i ==> !actors[j].IsIntersect(moving)
      ensures r != moving
    {
      for i := 0 to |actors|
        invariant forall j :: 0 <= j < i ==> !actors[j].IsIntersect(moving)
      {
        if actors[i].IsIntersect(moving) {
          return actors[i];
        }
      }
      return null;
    }

    /** What the grid reports for a probe of the given position and size. */
    method ObstacleAt(pos: Vector, size: Vector) returns (r: Cell)
      ensures r == ObstacleIn(grid, width, Box(pos, size))
    {
      var area := Box(pos, size);
      if area.Left() < 0.0 || area.Top() < 0.0 || area.Right() > width as real {
        return Wall;
      }
      if area.Bottom() > height as real {
        return Lava;
      }
      var r0, r1 := area.Top().Floor, Ceil(area.Bottom());
      var c0, c1 := area.Left().Floor, Ceil(area.Right());
      var row := r0;
      while row < r1
        invariant r0 <= row
        invariant FirstInRows(grid, r0, r1, c0, c1) == FirstInRows(grid, row, r1, c0, c1)
        decreases r1 - row
      {
        var column := c0;
        while column < c1
          invariant c0 <= column
          invariant FirstInRow(grid, row, c0, c1) == FirstInRow(grid, row, column, c1)
          decreases c1 - column
        {
          var cell := if column < |grid[row]| then grid[row][column] else Empty;
          if cell != Empty {
            return cell;
          }
          column := column + 1;
        }
        row := row + 1;
      }
      return Empty;
    }

    /**
     * Removes every actor that is `target`, keeping the others in order. The
     * source compares the position and size objects instead; the two agree for
     * parsed actors, whose size vectors are all distinct objects.
     */
    method RemoveActor(target: Actor)
      modifies this`actors
      ensures actors == Without(old(actors), target)
    {
      actors := Without(actors, target);
    }

    /** Whether no live actor carries the tag `tag`. */
    predicate NoMoreActors(tag: string): (r: bool)
      reads this
      ensures r <==> forall i :: 0 <= i < |actors| ==> actors[i].kind.TypeName() != tag
    {
      FindOfType(actors, tag).None?
    }

    /**
     * The player touched something tagged `tag`: lava or a fireball loses the
     * level; touching `actor` with its own tag removes it and wins the level
     * when no coin remains; anything else has no effect. An outcome already
     * set is overwritten.
     */
    method PlayerTouched(tag: string, actor: Actor?)
      modifies this`actors, this`status
      ensures tag == "lava" || tag == "fireball" ==> status == Some(Lost) && actors == old(actors)
      ensures tag != "lava" && tag != "fireball" && tag == TouchedType(actor) ==>
                actors == (if actor == null then old(actors) else Without(old(actors), actor)) &&
                status == (if NoMoreActors("coin") then Some(Won) else old(status))
      ensures tag != "lava" && tag != "fireball" && tag != TouchedType(actor) ==>
                actors == old(actors) && status == old(status)
    {
      if tag == "lava" || tag == "fireball" {
        status := Some(Lost);
        return;
      }
      var touched: Actor;
      if actor == null {
        touched := new Actor(Vector(0.0, 0.0), Vector(1.0, 1.0), Vector(0.0, 0.0));
        WithoutAbsent(actors, touched);
      } else {
        touched := actor;
      }
      if tag == touched.kind.TypeName() {
        RemoveActor(touched);
        if NoMoreActors("coin") {
          status := Some(Won);
        }
      }
    }
  }

  /**
   * A won level is lost by a later touch of lava, and a lost level is won
   * again by a later pickup that leaves no coin.
   */
  method StatusIsNotTerminal()
  {
    var hero := new Actor.Player(Vector(1.0, 1.0));
    var coin := new Actor.Coin(Vector(3.0, 1.0));
    var level := new Level([], [hero, coin]);
    level.PlayerTouched("coin", coin);
    assert [hero, coin][1..] == [coin] && [coin][1..] == [];
    assert Without([hero, coin], coin) == [hero] + Without([coin], coin);
    assert level.actors == [hero];
    assert level.status == Some(Won);
    level.PlayerTouched("lava", null);
    assert level.status == Some(Lost);
    level.PlayerTouched("player", hero);
    assert level.actors == [];
    assert level.status == Some(Won);
  }
}
