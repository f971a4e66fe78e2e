/**
 * What the rules keep: the particles on the board (a move or swap never
 * creates, destroys or duplicates one), the cells other particles occupy,
 * and grass, across one update and across any sequence of updates.
 */
module Conservation {
  import opened Wrappers
  import opened Particles
  import opened Boards
  import opened Rules

  /** Every rule keeps the board's dimensions. */
  lemma StepKeepsShape(b: Board, row: int, col: int, coins: Coins)
    requires InBounds(b, row, col) && b[row][col].Some?
    ensures SameShape(Step(b, row, col, coins), b)
  {
    var a := Step(b, row, col, coins);
    match b[row][col].value
    case Sand =>
      assert a == SandStep(b, row, col);
    case Stone =>
      assert a == FallStep(b, row, col, Stone);
    case Dirt(_) =>
      assert a == DirtStep(b, row, col);
    case Grass =>
    case Cloud =>
      assert a == CloudStep(b, row, col, coins);
      if !DirtBelow(b, row, col) {
        var b1 := if coins.vertical then MoveIfEmpty(b, row, col, row - 1, col) else b;
        assert SameShape(b1, b);
        assert SameShape(a, b1);
      }
    case Water =>
      assert a == WaterStep(b, row, col, coins);
      if !DirtBelow(b, row, col) {
        var b1 := if coins.vertical then MoveIfEmpty(b, row, col, row + 1, col) else b;
        assert SameShape(b1, b);
        assert SameShape(a, b1);
      }
  }

  /** Multiset bookkeeping for the rain-out: two trades in a row. */
  lemma Chain(o: multiset<Particle>, o1: multiset<Particle>, o2: multiset<Particle>, x: multiset<Particle>, y: multiset<Particle>, z: multiset<Particle>)
    requires o1 + x == o + y && o2 + z == o1
    ensures o2 + z + x == o + y
  {
    forall p
      ensures (o2 + z + x)[p] == (o + y)[p]
    {
      assert (o2 + z)[p] == o1[p];
      assert (o1 + x)[p] == (o + y)[p];
    }
  }

  /** The sideways part moves particles around and no more. */
  lemma SidewaysKeepsParticles(b: Board, row: int, col: int, coin: bool, first: int, second: int)
    requires InBounds(b, row, col)
    ensures Occupants(Sideways(b, row, col, coin, first, second)) == Occupants(b)
  {
    MoveKeepsOccupants(b, row, col, row, first, Some(ParticleSwap));
    MoveKeepsOccupants(b, row, col, row, second, Some(ParticleSwap));
  }

  /** The vertical then sideways moves of cloud and water move particles around and no more. */
  lemma DriftKeepsParticles(b: Board, row: int, col: int, vertical: bool, to: int, lateral: bool, first: int, second: int)
    requires InBounds(b, row, col)
    ensures var b1 := if vertical then MoveIfEmpty(b, row, col, to, col) else b;
      Occupants(Sideways(b1, row, col, lateral, first, second)) == Occupants(b)
  {
    var b1 := if vertical then MoveIfEmpty(b, row, col, to, col) else b;
    MoveKeepsOccupants(b, row, col, to, col, Some(ParticleSwap));
    SidewaysKeepsParticles(b1, row, col, lateral, first, second);
  }

  /** The falling rule moves particles around and no more. */
  lemma FallKeepsParticles(b: Board, row: int, col: int, self: Particle)
    requires InBounds(b, row, col)
    ensures Occupants(FallStep(b, row, col, self)) == Occupants(b)
  {
    MoveKeepsOccupants(b, row, col, row + 1, col, None);
    MoveKeepsOccupants(b, row, col, row + 1, col - 1, Some(SwapOf(self)));
    MoveKeepsOccupants(b, row, col, row + 1, col + 1, Some(SwapOf(self)));
  }

  /** A rain-out removes the raining particle and trades the dirt below for wet dirt. */
  lemma RainOutParticles(b: Board, row: int, col: int)
    requires InBounds(b, row, col) && b[row][col].Some? && DirtBelow(b, row, col)
    ensures Occupants(RainOut(b, row, col)) + multiset{b[row][col].value} + multiset{b[row + 1][col].value}
         == Occupants(b) + multiset{Dirt(true)}
  {
    var b1 := Put(b, row + 1, col, Some(Dirt(true)));
    PutOccupants(b, row + 1, col, Some(Dirt(true)));
    assert b1[row][col] == b[row][col];
    PutOccupants(b1, row, col, None);
    Chain(Occupants(b), Occupants(b1), Occupants(Put(b1, row, col, None)),
          multiset{b[row + 1][col].value}, multiset{Dirt(true)}, multiset{b[row][col].value});
  }

  /**
   * The particles on the board after one update: the same multiset for
   * every move and swap; wet dirt traded for grass; and for a rain-out,
   * the raining particle gone and the dirt below traded for wet dirt.
   */
  lemma StepKeepsParticles(b: Board, row: int, col: int, coins: Coins)
    requires InBounds(b, row, col) && b[row][col].Some?
    ensures var a := Step(b, row, col, coins);
      && (!RainsOut(b, row, col) && b[row][col] != Some(Dirt(true)) ==> Occupants(a) == Occupants(b))
      && (b[row][col] == Some(Dirt(true)) ==> Occupants(a) + multiset{Dirt(true)} == Occupants(b) + multiset{Grass})
      && (RainsOut(b, row, col) ==>
            Occupants(a) + multiset{b[row][col].value} + multiset{b[row + 1][col].value} == Occupants(b) + multiset{Dirt(true)})
  {
    var a := Step(b, row, col, coins);
    match b[row][col].value
    case Sand =>
      assert a == SandStep(b, row, col);
      MoveKeepsOccupants(b, row, col, row + 1, col, Some(SandSwap));
    case Stone =>
      assert a == FallStep(b, row, col, Stone);
      FallKeepsParticles(b, row, col, Stone);
    case Dirt(wet) =>
      assert a == DirtStep(b, row, col);
      if wet {
        PutOccupants(b, row, col, Some(Grass));
      } else {
        MoveKeepsOccupants(b, row, col, row + 1, col, None);
      }
    case Grass =>
    case Cloud =>
      assert a == CloudStep(b, row, col, coins);
      if DirtBelow(b, row, col) {
        RainOutParticles(b, row, col);
      } else {
        DriftKeepsParticles(b, row, col, coins.vertical, row - 1, coins.lateral, col - 1, col + 1);
      }
    case Water =>
      assert a == WaterStep(b, row, col, coins);
      if DirtBelow(b, row, col) {
        RainOutParticles(b, row, col);
      } else {
        DriftKeepsParticles(b, row, col, coins.vertical, row + 1, coins.lateral, col + 1, col - 1);
      }
  }

  /**
   * The particle count: every update keeps it, except a rain-out, which
   * lowers it by exactly one.
   */
  lemma StepCount(b: Board, row: int, col: int, coins: Coins)
    requires InBounds(b, row, col) && b[row][col].Some?
    ensures |Occupants(Step(b, row, col, coins))| == |Occupants(b)| - if RainsOut(b, row, col) then 1 else 0
  {
    var a := Step(b, row, col, coins);
    StepKeepsParticles(b, row, col, coins);
    if RainsOut(b, row, col) {
      var o, o' := Occupants(b), Occupants(a);
      var x, y := multiset{b[row][col].value}, multiset{b[row + 1][col].value};
      assert |o' + x + y| == |o + multiset{Dirt(true)}|;
    } else if b[row][col] == Some(Dirt(true)) {
      assert |Occupants(a) + multiset{Dirt(true)}| == |Occupants(b) + multiset{Grass}|;
    }
  }

  /**
   * Apart from (row, col), every cell of `a` that was occupied in `b`
   * holds what it held, except the cell below (row, col): when it holds
   * water and `water` is allowed, or whatever it holds when `below` is
   * allowed.
   */
  ghost predicate SparesOccupants(b: Board, a: Board, row: int, col: int, water: bool, below: bool)
  {
    SameShape(a, b) &&
    forall i, j :: InBounds(b, i, j) && (i, j) != (row, col) && b[i][j].Some? && a[i][j] != b[i][j] ==>
      (water && i == row + 1 && j == col && b[i][j] == Some(Water)) || (below && i == row + 1 && j == col)
  }

  /** Moving into an empty cell spares every occupant. */
  lemma MovedToSpares(b: Board, a: Board, fr: int, fc: int, tr: int, tc: int)
    requires MovedTo(b, a, fr, fc, tr, tc)
    ensures SparesOccupants(b, a, fr, fc, false, false)
  {
  }

  /**
   * Apart from its own cell, an update changes only cells that were empty,
   * the water cell directly under sand (the swap) and the dirt cell under
   * a rain-out; every other occupant stays where and what it was.
   */
  lemma StepSparesOccupants(b: Board, row: int, col: int, coins: Coins)
    requires InBounds(b, row, col) && b[row][col].Some?
    ensures SparesOccupants(b, Step(b, row, col, coins), row, col, b[row][col] == Some(Sand), RainsOut(b, row, col))
  {
    var a := Step(b, row, col, coins);
    match b[row][col].value
    case Sand =>
      SandSinks(b, row, col, coins);
      if Free(b, row + 1, col) {
        MovedToSpares(b, a, row, col, row + 1, col);
      }
    case Stone =>
      StoneFalls(b, row, col, coins);
      if Free(b, row + 1, col) {
        MovedToSpares(b, a, row, col, row + 1, col);
      } else if Free(b, row + 1, col - 1) {
        MovedToSpares(b, a, row, col, row + 1, col - 1);
      } else if Free(b, row + 1, col + 1) {
        MovedToSpares(b, a, row, col, row + 1, col + 1);
      }
    case Dirt(wet) =>
      DirtGrowsOrFalls(b, row, col, coins);
      if !wet && Free(b, row + 1, col) {
        MovedToSpares(b, a, row, col, row + 1, col);
      }
    case Grass =>
    case Cloud =>
      if DirtBelow(b, row, col) {
        RainWetsDirt(b, row, col, coins);
      } else {
        WaterOrCloudEntersOnlyEmpty(b, row, col, coins);
      }
    case Water =>
      if DirtBelow(b, row, col) {
        RainWetsDirt(b, row, col, coins);
      } else {
        WaterOrCloudEntersOnlyEmpty(b, row, col, coins);
      }
  }

  /**
   * Water and cloud, when they do not rain out, change only their own
   * cell and cells that were empty: they never displace an occupant.
   */
  lemma WaterOrCloudEntersOnlyEmpty(b: Board, row: int, col: int, coins: Coins)
    requires InBounds(b, row, col) && (b[row][col] == Some(Water) || b[row][col] == Some(Cloud))
    requires !RainsOut(b, row, col)
    ensures var a := Step(b, row, col, coins);
      && SameShape(a, b)
      && forall i, j :: InBounds(b, i, j) && (i, j) != (row, col) && a[i][j] != b[i][j] ==> b[i][j].None?
  {
    if b[row][col] == Some(Cloud) {
      CloudDrifts(b, row, col, coins);
      SidewaysOutcomes(b, row, col, coins.lateral, col - 1, col + 1);
    } else {
      WaterFlows(b, row, col, coins);
      SidewaysOutcomes(b, row, col, coins.lateral, col + 1, col - 1);
    }
  }

  /**
   * Water or cloud above dry dirt, then the dirt: the first update wets
   * the dirt and clears the raining cell, the second turns the dirt into
   * grass in place, and no other cell changes.
   */
  lemma RainThenGrass(b: Board, row: int, col: int, coins: Coins, coins': Coins)
    requires InBounds(b, row, col) && RainsOut(b, row, col)
    ensures var a1 := Step(b, row, col, coins);
      && InBounds(a1, row + 1, col) && a1[row + 1][col] == Some(Dirt(true))
      && var a2 := Step(a1, row + 1, col, coins');
      && a2[row][col].None? && a2[row + 1][col] == Some(Grass)
      && OnlyChanged(b, a2, {(row, col), (row + 1, col)})
  {
    RainWetsDirt(b, row, col, coins);
    var a1 := Step(b, row, col, coins);
    DirtGrowsOrFalls(a1, row + 1, col, coins');
  }

  // ---------------------------------------------------------------------
  // Any sequence of updates

  /** One `update(row, col)` call with its coin flips. */
  datatype Call = Call(row: int, col: int, coins: Coins)

  /** The call on the board: the occupant's rule, or nothing when the cell is empty or off the grid. */
  function StepAt(b: Board, call: Call): Board
  {
    if InBounds(b, call.row, call.col) && b[call.row][call.col].Some? then Step(b, call.row, call.col, call.coins)
    else b
  }

  /** The calls in order. */
  function Run(b: Board, calls: seq<Call>): Board
    decreases |calls|
  {
    if calls == [] then b else Run(StepAt(b, calls[0]), calls[1..])
  }

  /** How many of the calls, in order, were rain-outs. */
  function RainOuts(b: Board, calls: seq<Call>): nat
    decreases |calls|
  {
    if calls == [] then 0
    else
      var c := calls[0];
      var here := if InBounds(b, c.row, c.col) && b[c.row][c.col].Some? && RainsOut(b, c.row, c.col) then 1 else 0;
      here + RainOuts(StepAt(b, c), calls[1..])
  }

  /**
   * Across any sequence of updates the particle count falls by exactly
   * the number of rain-outs and never rises.
   */
  lemma {:induction false} RunCount(b: Board, calls: seq<Call>)
    ensures |Occupants(Run(b, calls))| + RainOuts(b, calls) == |Occupants(b)|
    ensures |Occupants(Run(b, calls))| <= |Occupants(b)|
    decreases |calls|
  {
    if calls != [] {
      var c := calls[0];
      if InBounds(b, c.row, c.col) && b[c.row][c.col].Some? {
        StepCount(b, c.row, c.col, c.coins);
      }
      RunCount(StepAt(b, c), calls[1..]);
    }
  }

  /** Grass never moves and never changes, whatever the updates. */
  lemma {:induction false} GrassIsPermanent(b: Board, calls: seq<Call>, i: int, j: int)
    requires InBounds(b, i, j) && b[i][j] == Some(Grass)
    ensures var a := Run(b, calls); InBounds(a, i, j) && a[i][j] == Some(Grass)
    decreases |calls|
  {
    if calls != [] {
      var c := calls[0];
      if InBounds(b, c.row, c.col) && b[c.row][c.col].Some? {
        StepKeepsShape(b, c.row, c.col, c.coins);
        StepSparesOccupants(b, c.row, c.col, c.coins);
      }
      GrassIsPermanent(StepAt(b, c), calls[1..], i, j);
    }
  }
}
