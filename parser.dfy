/**
 * Turning level text into a grid and a list of actors (game.js:151-199), with
 * the fixed table of actor symbols (game.js:302-307).
 */
module Parser {
  import opened Wrappers
  import opened Geometry
  import opened Grid
  import opened Game

  /** The grid meaning of a symbol: `x` is a wall, `!` is lava, anything else is empty. */
  function ObstacleFromSymbol(symbol: char): (r: Cell)
    ensures r == Wall <==> symbol == 'x'
    ensures r == Lava <==> symbol == '!'
  {
    match symbol
    case 'x' => Wall
    case '!' => Lava
    case _ => Empty
  }

  /** The actor constructors of the symbol table. */
  datatype Spawn = SpawnPlayer | SpawnCoin | SpawnHorizontal | SpawnVertical | SpawnRain

  /** The constructor a symbol stands for, if any; a missing symbol stands for none. */
  function ActorFromSymbol(symbol: Option<char>): (r: Option<Spawn>)
    ensures r.Some? <==> symbol.Some? && symbol.value in {'@', 'o', '=', '|', 'v'}
    ensures r == Some(SpawnPlayer) <==> symbol == Some('@')
    ensures r == Some(SpawnCoin) <==> symbol == Some('o')
    ensures r == Some(SpawnHorizontal) <==> symbol == Some('=')
    ensures r == Some(SpawnVertical) <==> symbol == Some('|')
    ensures r == Some(SpawnRain) <==> symbol == Some('v')
  {
    match symbol
    case None => None
    case Some('@') => Some(SpawnPlayer)
    case Some('o') => Some(SpawnCoin)
    case Some('=') => Some(SpawnHorizontal)
    case Some('|') => Some(SpawnVertical)
    case Some('v') => Some(SpawnRain)
    case Some(_) => None
  }

  /**
   * A missing symbol has no constructor, exactly the five actor symbols have
   * one, and none of them is an obstacle.
   */
  lemma ActorSymbolsAreNotObstacles(c: char)
    ensures ActorFromSymbol(None) == None
    ensures ActorFromSymbol(Some(c)).Some? <==> c in {'@', 'o', '=', '|', 'v'}
    ensures ActorFromSymbol(Some(c)).Some? ==> ObstacleFromSymbol(c) == Empty
  {
  }

  /** The fields an actor built by `s` at grid cell `cell` starts with. */
  function Initial(s: Spawn, cell: Vector): ActorState {
    match s
    case SpawnPlayer =>
      ActorState(PlayerActor, cell.Plus(Vector(0.0, -0.5)), Vector(0.8, 1.5), Vector(0.0, 0.0))
    case SpawnCoin =>
      ActorState(CoinActor(cell.Plus(Vector(0.2, 0.1))), cell.Plus(Vector(0.2, 0.1)), Vector(0.6, 0.6), Vector(0.0, 0.0))
    case SpawnHorizontal =>
      ActorState(FireballActor(Horizontal), cell, Vector(1.0, 1.0), Vector(2.0, 0.0))
    case SpawnVertical =>
      ActorState(FireballActor(Vertical), cell, Vector(1.0, 1.0), Vector(0.0, 2.0))
    case SpawnRain =>
      ActorState(FireballActor(Rain(cell)), cell, Vector(1.0, 1.0), Vector(0.0, 3.0))
  }

  /** Builds a new actor with the constructor `s` at grid cell `cell`. */
  method Construct(s: Spawn, cell: Vector) returns (a: Actor)
    ensures fresh(a) && a.State() == Initial(s, cell)
  {
    if s.SpawnPlayer? {
      a := new Actor.Player(cell);
    } else if s.SpawnCoin? {
      a := new Actor.Coin(cell);
    } else if s.SpawnHorizontal? {
      a := new Actor.HorizontalFireball(cell);
    } else if s.SpawnVertical? {
      a := new Actor.VerticalFireball(cell);
    } else {
      a := new Actor.FireRain(cell);
    }
  }

  /** One line of the plan as a row of cells. */
  function CreateRow(line: string): (r: seq<Cell>)
    ensures |r| == |line|
    ensures forall j :: 0 <= j < |line| ==> r[j] == ObstacleFromSymbol(line[j])
  {
    if line == [] then [] else [ObstacleFromSymbol(line[0])] + CreateRow(line[1..])
  }

  /** The plan as a grid: one row per line, one cell per symbol. */
  function CreateGrid(plan: seq<string>): (r: seq<seq<Cell>>)
    ensures |r| == |plan|
    ensures forall i :: 0 <= i < |plan| ==> |r[i]| == |plan[i]|
    ensures forall i, j :: 0 <= i < |plan| && 0 <= j < |plan[i]| ==> r[i][j] == ObstacleFromSymbol(plan[i][j])
  {
    if plan == [] then [] else [CreateRow(plan[0])] + CreateGrid(plan[1..])
  }

  /** Rows of equal lengths have the same longest length. */
  lemma {:induction false} SameRowLengths<S, T>(a: seq<seq<S>>, b: seq<seq<T>>)
    requires |a| == |b| && forall i :: 0 <= i < |a| ==> |a[i]| == |b[i]|
    ensures MaxRowLength(a) == MaxRowLength(b)
  {
    if a != [] {
      SameRowLengths(a[1..], b[1..]);
    }
  }

  /** A parsed level is as high as the plan has lines and as wide as its longest line. */
  lemma ParsedGridSize(plan: seq<string>)
    ensures |CreateGrid(plan)| == |plan|
    ensures MaxRowLength(CreateGrid(plan)) == MaxRowLength(plan)
  {
    SameRowLengths(CreateGrid(plan), plan);
  }

  /** An actor to be built: its constructor and the grid cell it is built at. */
  datatype Placement = Placement(spawn: Spawn, cell: Vector)

  /** The placements of the first `n` symbols of `line`, which is line `y` of the plan. */
  function RowPlacements(line: string, y: nat, n: nat): seq<Placement>
    requires n <= |line|
  {
    if n == 0 then []
    else
      RowPlacements(line, y, n - 1) +
      match ActorFromSymbol(Some(line[n - 1]))
      case Some(s) => [Placement(s, Vector((n - 1) as real, y as real))]
      case None => []
  }

  /** The placements of the first `k` lines of the plan, in row-major order. */
  function PlanPlacements(plan: seq<string>, k: nat): seq<Placement>
    requires k <= |plan|
  {
    if k == 0 then [] else PlanPlacements(plan, k - 1) + RowPlacements(plan[k - 1], k - 1, |plan[k - 1]|)
  }

  /** Every placement is at the cell of a symbol that has a constructor for it. */
  lemma {:induction false} RowPlacementsSound(line: string, y: nat, n: nat, p: Placement)
    requires n <= |line| && p in RowPlacements(line, y, n)
    ensures exists x :: 0 <= x < n && p.cell == Vector(x as real, y as real) &&
                        ActorFromSymbol(Some(line[x])) == Some(p.spawn)
  {
    if n > 0 {
      if p in RowPlacements(line, y, n - 1) {
        RowPlacementsSound(line, y, n - 1, p);
      } else {
        assert ActorFromSymbol(Some(line[n - 1])) == Some(p.spawn);
      }
    }
  }

  /** Every symbol that has a constructor yields a placement at its cell. */
  lemma {:induction false} RowPlacementsComplete(line: string, y: nat, n: nat, x: nat)
    requires x < n <= |line| && ActorFromSymbol(Some(line[x])).Some?
    ensures Placement(ActorFromSymbol(Some(line[x])).value, Vector(x as real, y as real)) in RowPlacements(line, y, n)
  {
    if x < n - 1 {
      RowPlacementsComplete(line, y, n - 1, x);
    }
  }

  /** Whether cell `a` comes strictly before cell `b` in row-major order. */
  predicate RowMajorBefore(a: Vector, b: Vector) {
    a.y < b.y || (a.y == b.y && a.x < b.x)
  }

  /** The placements of a line lie on that line, left of column `n`, strictly left to right. */
  lemma {:induction false} RowPlacementsOrdered(line: string, y: nat, n: nat)
    requires n <= |line|
    ensures forall k :: 0 <= k < |RowPlacements(line, y, n)| ==>
              RowPlacements(line, y, n)[k].cell.y == y as real && RowPlacements(line, y, n)[k].cell.x < n as real
    ensures forall k, m :: 0 <= k < m < |RowPlacements(line, y, n)| ==>
              RowPlacements(line, y, n)[k].cell.x < RowPlacements(line, y, n)[m].cell.x
  {
    if n > 0 {
      RowPlacementsOrdered(line, y, n - 1);
    }
  }

  /**
   * The placements of the first `k` lines lie above row `k` and are in strictly
   * increasing row-major order, so no cell is placed twice.
   */
  lemma {:induction false} PlanPlacementsOrdered(plan: seq<string>, k: nat)
    requires k <= |plan|
    ensures forall i :: 0 <= i < |PlanPlacements(plan, k)| ==> PlanPlacements(plan, k)[i].cell.y < k as real
    ensures forall i, j :: 0 <= i < j < |PlanPlacements(plan, k)| ==>
              RowMajorBefore(PlanPlacements(plan, k)[i].cell, PlanPlacements(plan, k)[j].cell)
  {
    if k > 0 {
      PlanPlacementsOrdered(plan, k - 1);
      RowPlacementsOrdered(plan[k - 1], k - 1, |plan[k - 1]|);
      var before, row := PlanPlacements(plan, k - 1), RowPlacements(plan[k - 1], k - 1, |plan[k - 1]|);
      var all := PlanPlacements(plan, k);
      assert all == before + row;
      forall i, j | 0 <= i < j < |all|
        ensures RowMajorBefore(all[i].cell, all[j].cell)
      {
        if j >= |before| && i < |before| {
          assert all[i] == before[i] && all[j] == row[j - |before|];
        }
      }
    }
  }

  /** Every placement of the plan is at the (column, row) of a symbol whose constructor it uses. */
  lemma {:induction false} PlanPlacementsSound(plan: seq<string>, k: nat, p: Placement)
    requires k <= |plan| && p in PlanPlacements(plan, k)
    ensures exists y, x :: 0 <= y < k && 0 <= x < |plan[y]| && p.cell == Vector(x as real, y as real) &&
                           ActorFromSymbol(Some(plan[y][x])) == Some(p.spawn)
  {
    if p in PlanPlacements(plan, k - 1) {
      PlanPlacementsSound(plan, k - 1, p);
    } else {
      RowPlacementsSound(plan[k - 1], k - 1, |plan[k - 1]|, p);
    }
  }

  /** Every symbol of the plan that has a constructor yields a placement at its (column, row). */
  lemma {:induction false} PlanPlacementsComplete(plan: seq<string>, k: nat, y: nat, x: nat)
    requires y < k <= |plan| && x < |plan[y]| && ActorFromSymbol(Some(plan[y][x])).Some?
    ensures Placement(ActorFromSymbol(Some(plan[y][x])).value, Vector(x as real, y as real)) in PlanPlacements(plan, k)
  {
    if y < k - 1 {
      PlanPlacementsComplete(plan, k - 1, y, x);
    } else {
      RowPlacementsComplete(plan[y], y, |plan[y]|, x);
    }
  }

  /**
   * One new actor per symbol that has a constructor, built at its
   * (column, row) cell, in row-major order.
   */
  method CreateActors(plan: seq<string>) returns (result: seq<Actor>)
    ensures |result| == |PlanPlacements(plan, |plan|)|
    ensures forall k :: 0 <= k < |result| ==>
              fresh(result[k]) && result[k].State() == Initial(PlanPlacements(plan, |plan|)[k].spawn, PlanPlacements(plan, |plan|)[k].cell)
    ensures forall k, l :: 0 <= k < l < |result| ==> result[k] != result[l]
  {
    result := [];
    for y := 0 to |plan|
      invariant |result| == |PlanPlacements(plan, y)|
      invariant forall k :: 0 <= k < |result| ==>
                  fresh(result[k]) && result[k].State() == Initial(PlanPlacements(plan, y)[k].spawn, PlanPlacements(plan, y)[k].cell)
      invariant forall k, l :: 0 <= k < l < |result| ==> result[k] != result[l]
    {
      var line := plan[y];
      ghost var done := PlanPlacements(plan, y);
      for x := 0 to |line|
        invariant |result| == |done + RowPlacements(line, y, x)|
        invariant forall k :: 0 <= k < |result| ==>
                    fresh(result[k]) && result[k].State() == Initial((done + RowPlacements(line, y, x))[k].spawn, (done + RowPlacements(line, y, x))[k].cell)
        invariant forall k, l :: 0 <= k < l < |result| ==> result[k] != result[l]
      {
        match ActorFromSymbol(Some(line[x])) {
          case Some(s) =>
            var actor := Construct(s, Vector(x as real, y as real));
            result := result + [actor];
          case None =>
        }
      }
    }
  }

  /** The level a plan describes. */
  method Parse(plan: seq<string>) returns (level: Level)
    ensures fresh(level)
    ensures level.grid == CreateGrid(plan)
    ensures level.height == |plan| && level.width == MaxRowLength(plan)
    ensures |level.actors| == |PlanPlacements(plan, |plan|)|
    ensures forall k :: 0 <= k < |level.actors| ==>
              fresh(level.actors[k]) &&
              level.actors[k].State() == Initial(PlanPlacements(plan, |plan|)[k].spawn, PlanPlacements(plan, |plan|)[k].cell)
    ensures forall k, m :: 0 <= k < m < |level.actors| ==> level.actors[k] != level.actors[m]
    ensures level.player == (match FindOfType(level.actors, "player") case Some(i) => level.actors[i] case None => null)
    ensures level.status == None && level.finishDelay == 1.0
  {
    var actors := CreateActors(plan);
    ParsedGridSize(plan);
    level := new Level(CreateGrid(plan), actors);
  }
}
