# A verified model of a tile platformer engine

This project models the core of a small browser platformer (`game.js`) in Dafny:

- the vector arithmetic;
- the bounding boxes of actors and their intersection test;
- the level, which holds a tile grid of walls and lava, the live actors and the win/lose state;
- the parser that turns level text into a grid and actors;
- the fireball family's per-tick movement;
- the fixed positions, sizes and speeds the player, coin and fireball constructors set.

Coordinates are mathematical `real`s. Ceiling is written as `-((-x).Floor)`.

Modules, leaves first:

- `Wrappers` (`wrappers.dfy`): `Option`, used where the source returns `undefined`.
- `Geometry` (`geometry.dfy`): `Vector` with `Plus`/`Times`, and `Box`, whose `Left`/`Top`/`Right`/`Bottom` are an actor's edges and whose `Overlaps` is the strict open-interval test.
- `Grid` (`grid.dfy`): `Cell = Empty | Wall | Lava`, where `Empty` stands for an `undefined` cell. It also holds the longest-row width and `ObstacleIn`, the reference definition of what a probe rectangle meets: a wall at the sides and top, lava below, else the first non-empty covered cell in row-major order.
- `Game` (`game.dfy`): the `Actor` class (mutable `pos` and `speed`, constant `size` and `kind`) with one constructor per actor class of the source. It also holds `HandleObstacle`/`Act` for fireballs and the `Level` class.
  - `Level` has constant `grid`/`height`/`width`/`player` and mutable `actors`/`status`/`finishDelay`.
  - Its methods are `ActorAt`, `ObstacleAt`, `RemoveActor`, `NoMoreActors`, `PlayerTouched` and `IsFinished`.
  - Actor and Level share a module because a fireball's step asks its level about obstacles.
- `Parser` (`parser.dfy`): the symbol tables and `CreateGrid`. `CreateActors` is a loop that allocates actors in row-major order, specified by the `PlanPlacements` function. `Parse` builds the level from both.

`ObstacleAt`, `ActorAt` and `CreateActors` are loops, as in the source. Each is proved against a specification: `ObstacleIn`, first-match quantifiers and `PlanPlacements` respectively. The lemmas in `Grid` and `Parser` prove what those specifications promise.

Two behaviours of the code that a reader might not expect, both modelled as written:

- **The outcome of a level is not final.** `PlayerTouched` writes `status` without looking at its old value. So touching lava turns `Won` into `Lost`, and a later pickup that leaves no coin turns `Lost` back into `Won`. The method `Game.StatusIsNotTerminal` walks through exactly this sequence on a concrete level.
- **No operation of the level decrements `finishDelay`.** It is a field that only the caller writes. `IsFinished` holds exactly when an outcome is set and `finishDelay < 0`.

## Model

| member | source | states |
|---|---|---|
| Geometry.PlusCommutative | game.js:9-15 | `plus` adds component-wise and is commutative |
| Geometry.PlusAssociative | game.js:9-15 | `plus` is associative |
| Geometry.TimesDistributes | game.js:17-19 | scaling distributes over a sum of scalars: `v.times(s+t) == v.times(s).plus(v.times(t))` |
| Geometry.OverlapsSymmetric | game.js:64-65 | the edge-overlap test is symmetric in its two boxes |
| Geometry.EdgeContactIsNotOverlap | game.js:64-65 | boxes that only share a vertical or horizontal edge do not overlap, in either order |
| Geometry.OverlapsItself | game.js:60-65 | a box of positive size overlaps itself, so only the identity check keeps an actor from intersecting itself |
| Grid.Ceil | game.js:115-116 | the rounded-up bound `ceil(x)` satisfies `x <= ceil(x) < x + 1` |
| Grid.MaxRowLength | game.js:78 | the width is at least every row's length, is attained by some row, and is 0 for an empty grid |
| Grid.FirstInRowSpec | game.js:116-119 | the column scan of one row yields the first non-empty cell, and yields nothing exactly when all scanned cells are empty |
| Grid.FirstInRowsSpec | game.js:115-123 | the row-major scan yields a cell of the window with every earlier cell empty, and yields nothing exactly when every cell of the window is empty |
| Grid.ObstacleAtSides | game.js:107-109 | a probe with `left<0`, `top<0` or `right>width` meets a wall whatever its bottom |
| Grid.ObstacleBelow | game.js:111-113 | a probe inside the sides with `bottom>height` meets lava |
| Grid.ObstacleInside | game.js:115-123 | for a probe within the grid, every scanned row lies in `[0,height)` and column in `[0,width)`; the result is the first non-empty cell in row-major order over `floor(top)..ceil(bottom)-1` x `floor(left)..ceil(right)-1`, short rows read as empty, and nothing iff all are empty |
| Game.Actor.constructor | game.js:23-31 | a plain actor takes the given position, size and speed, and has tag `actor` |
| Game.Actor.Fireball | game.js:202-204 | a fireball has size (1,1), the given position and speed, and tag `fireball` |
| Game.Actor.HorizontalFireball | game.js:232-234 | speed (2,0), size (1,1), at the given position |
| Game.Actor.VerticalFireball | game.js:238-240 | speed (0,2), size (1,1), at the given position |
| Game.Actor.FireRain | game.js:244-248 | speed (0,3), size (1,1), and the start position it returns to is its construction position |
| Game.Actor.Coin | game.js:260-263 | position and start position are cell + (0.2,0.1), size (0.6,0.6), speed zero |
| Game.Actor.Player | game.js:293-295 | position cell + (0,-0.5), size (0.8,1.5), speed zero, tag `player` |
| Game.Actor.HandleObstacle | game.js:214-216 | an ordinary fireball negates both speed components and stays put; a fire rain (override at game.js:250-252) goes back to its start position with its speed unchanged |
| Game.Actor.Act | game.js:218-228 | a fireball moves to `pos + speed*t` with speed unchanged when the level reports no obstacle there; otherwise it stays and reverses its speed, or a fire rain returns to its start; the player and plain actors do nothing (game.js:33) |
| Game.Kind.TypeName | game.js:51-53 | each variant has its own tag: `actor` for a plain actor (game.js:51-53), `player` (game.js:297-299), `coin` (game.js:269-271), `fireball` for every fireball (game.js:206-208) |
| Game.Actor.IsIntersect | game.js:55-66 | never true of the actor itself; for another actor, true exactly when their boxes strictly overlap |
| Game.Actor.NextPosition | game.js:210-212 | the displacement to the next position is speed times time in each component, and no time means no move |
| Game.IntersectIrreflexive | game.js:60-62 | no actor intersects itself |
| Game.IntersectDistinct | game.js:55-66 | for distinct actors, intersection holds exactly when `left<other.right && right>other.left && top<other.bottom && bottom>other.top`, and it is symmetric |
| Game.FindOfType | game.js:74 | the first actor with the given tag, with no earlier one carrying it; nothing exactly when no actor carries it |
| Game.Without | game.js:127 | the filtered list holds every other actor with its multiplicity and no copy of the removed one |
| Game.WithoutSingle | game.js:127 | a one-actor list keeps its actor exactly when it is not the target |
| Game.WithoutAppend | game.js:127 | filtering distributes over concatenation, so with `WithoutSingle` the survivors keep their list order |
| Game.WithoutAbsent | game.js:127 | removing an actor that is not in the list leaves the list unchanged |
| Game.WithoutIdempotent | game.js:126-128 | removing the same actor twice is the same as removing it once |
| Game.Level.constructor | game.js:70-86 | height is the row count; width is the longest row length (0 for no rows); player is the first actor tagged `player`, with no earlier actor so tagged (null if none); status is unset and `finishDelay` is 1, so the level is not finished |
| Game.Level.IsFinished | game.js:84-86 | a finished level has an outcome; no level is finished while `finishDelay >= 0`; an outcome with `finishDelay < 0` is finished |
| Game.Level.ActorAt | game.js:88-98 | returns the first actor in list order that intersects the argument, every earlier one does not, null exactly when none does, and never the argument itself |
| Game.Level.ObstacleAt | game.js:100-124 | the nested scan with early return computes exactly `ObstacleIn` of the level's grid and width for the probe |
| Game.Level.RemoveActor | game.js:126-128 | the actor list becomes `Without(old list, target)`: every other actor with its multiplicity, in its old order (`WithoutAppend`, `WithoutSingle`), and no copy of the target |
| Game.Level.NoMoreActors | game.js:130-132 | true exactly when no live actor carries the tag |
| Game.Level.PlayerTouched | game.js:134-148 | `lava`/`fireball` set status to lost and change nothing else; a tag equal to the actor's own removes exactly that actor and sets won iff no coin remains, else keeps the old status; any other tag changes nothing |
| Parser.ObstacleFromSymbol | game.js:164-170 | a symbol is a wall exactly when it is `x` and lava exactly when it is `!`; every other symbol is empty |
| Parser.ActorFromSymbol | game.js:156-162 | a missing symbol has no constructor; `@` gives the player, `o` a coin, `=` a horizontal fireball, the vertical bar a vertical fireball, `v` a fire rain (table at game.js:302-307), and no other symbol gives one |
| Parser.ActorSymbolsAreNotObstacles | game.js:156-170 | a missing symbol has no constructor; exactly the five actor symbols (`@`, `o`, `=`, the vertical bar, `v`) have one, and these symbols are empty grid cells |
| Parser.Construct | game.js:183-184 | builds a fresh actor whose fields are those the symbol's constructor sets at that cell |
| Parser.CreateRow | game.js:174 | a line becomes a row of the same length whose cells are the symbols' grid meanings |
| Parser.CreateGrid | game.js:172-176 | the grid has the plan's row count and row lengths, with `x` as wall, `!` as lava and every other symbol empty |
| Parser.ParsedGridSize | game.js:196-198 | a parsed level is as high as the plan has lines and as wide as its longest line |
| Parser.RowPlacementsSound | game.js:181-191 | every placement lies at (column,row) of a symbol whose constructor it uses |
| Parser.RowPlacementsComplete | game.js:181-191 | every symbol that has a constructor yields a placement at its (column,row) |
| Parser.RowPlacementsOrdered | game.js:182-190 | the placements of one line lie on that line, left of the scanned column, in strictly increasing column order |
| Parser.PlanPlacementsOrdered | game.js:181-191 | the placements of the whole plan are in strictly increasing row-major order, so no cell is placed twice |
| Parser.PlanPlacementsSound | game.js:181-191 | every placement of the plan is at the (column,row) of a symbol whose constructor it uses |
| Parser.PlanPlacementsComplete | game.js:181-191 | every symbol of the plan that has a constructor yields a placement at its (column,row) |
| Parser.CreateActors | game.js:178-194 | returns distinct fresh actors, one per placement in row-major order, each with the fields its constructor sets at `Vector(column,row)` |
| Parser.Parse | game.js:196-198 | the level gets the created grid and the created actors, which are distinct; its height and width are the plan's line count and longest line; its player is the first parsed actor tagged `player`, or null; it has no status and `finishDelay` 1 |

## Left out

- Loading levels, the game driver, rendering and the final alert (`loadLevels`, `runGame`, `DOMDisplay`, `alert`, game.js:311-313). These are asynchronous I/O and display code; `loadLevels`, `runGame` and `DOMDisplay` are not part of this model.
- Game.Actor.Act: a coin's animation is not modelled, so `Act` requires an actor that is not a coin. This leaves out `getRandomFloat`, `updateSpring`, `getSpringVector`, the coin's `getNextPosition` and `act`, and the `spring`, `springSpeed` and `springDist` fields (game.js:255-257, 264-266, 273-289). They rest on `Math.random` and `Math.sin`.
- The `instanceof` checks that throw (game.js:10, 24, 56, 89, 101) are enforced by Dafny's static types and have no runtime counterpart.
- `LevelParser`'s constructor and its open-ended dictionary (game.js:152-154, 183-187) are replaced by the fixed symbol table of game.js:302-307 (`ActorFromSymbol`, `Initial`). So the `instanceof Actor` filter on constructed values always passes.
- IEEE-754 arithmetic, `NaN` and infinities: coordinates are exact reals.
- Game.Level.RemoveActor: removal compares actor references. The source keeps every actor whose `pos` object or `size` object differs from the target's (game.js:127).
  - The two agree for every actor built by the parser. Each fireball, coin and player constructor allocates a fresh `size` vector (game.js:203, 261, 294), so no two such actors share a `size` object.
  - They differ for plain actors built from the same `pos` and `size` objects (game.js:23, 28-29). The source removes all of those together; the model removes only the given actor.
- Vectors are values. A speed vector shared between two actors, which the source's in-place negation would change for both, is not represented. No constructor shares one.
- Plan lines are sequences of Unicode code points, while the source splits them into UTF-16 code units (`split('')`, game.js:174, 182). For a line with a character outside the Basic Multilingual Plane, the source gets a different row length, level width and actor column than the model. Such lines are not modelled.
- An actor's `size` is a constant, because no code in the file reassigns it.
- Default arguments other than `playerTouched`'s default actor are not modelled. That default is modelled as a null actor: a fresh plain actor is allocated, and its removal removes nothing.
- Decrementing `finishDelay` once the outcome is decided: the source has no such operation; the caller writes the field.
