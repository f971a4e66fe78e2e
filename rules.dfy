/**
 * The `update(row, col)` rule of every particle kind of particles.js, as
 * functions from the board before the call to the board after it. They
 * specify the imperative methods in `Updates`; the lemmas here state what
 * each rule does to the cells around it.
 */
module Rules {
  import opened Wrappers
  import opened Particles
  import opened Boards

  /**
   * The two draws of `getRandomInt` that one cloud or water update makes:
   * the vertical draw (lines 116 and 147) and the lateral draw (lines 121
   * and 152), each read as true when non-zero.
   */
  datatype Coins = Coins(vertical: bool, lateral: bool)

  /** (r, c) is a cell of the board and holds nothing. */
  predicate Free(b: Board, r: int, c: int)
  {
    InBounds(b, r, c) && b[r][c].None?
  }

  /**
   * `Particle.update`, the rule stone inherits: move straight down into an
   * empty cell (no swap predicate is passed), else down-left, else
   * down-right, the two diagonal moves passing `this.swap`.
   */
  function FallStep(b: Board, row: int, col: int, self: Particle): Board
    requires InBounds(b, row, col)
  {
    var down := MoveOn(b, row, col, row + 1, col, None);
    if down.moved then down.after
    else
      var left := MoveOn(b, row, col, row + 1, col - 1, Some(SwapOf(self)));
      if left.moved then left.after
      else MoveOn(b, row, col, row + 1, col + 1, Some(SwapOf(self))).after
  }

  /** `Sand.update`: one move down, swapping with water. */
  function SandStep(b: Board, row: int, col: int): Board
    requires InBounds(b, row, col)
  {
    MoveOn(b, row, col, row + 1, col, Some(SandSwap)).after
  }

  /**
   * `Dirt.update`: wet dirt is replaced by a new grass particle; dry dirt
   * moves down only when the cell below reads as empty.
   */
  function DirtStep(b: Board, row: int, col: int): Board
    requires InBounds(b, row, col) && b[row][col].Some? && b[row][col].value.Dirt?
  {
    if b[row][col].value.wet then Put(b, row, col, Some(Grass))
    else if At(b, row + 1, col).None? then MoveOn(b, row, col, row + 1, col, None).after
    else b
  }

  /** The cell below (row, col) holds dirt. */
  predicate DirtBelow(b: Board, row: int, col: int)
  {
    At(b, row + 1, col).Some? && At(b, row + 1, col).value.Dirt?
  }

  /**
   * The rain-out shared by cloud and water: the dirt below becomes wet in
   * place and the raining particle's own cell is cleared.
   */
  function RainOut(b: Board, row: int, col: int): Board
    requires InBounds(b, row, col) && DirtBelow(b, row, col)
  {
    Put(Put(b, row + 1, col, Some(Dirt(true))), row, col, None)
  }

  /**
   * A guarded move used by cloud and water: when (tr, tc) reads as empty,
   * call `moveParticle` from (row, col), passing the base swap predicate.
   */
  function MoveIfEmpty(b: Board, row: int, col: int, tr: int, tc: int): Board
    requires InBounds(b, row, col)
  {
    if At(b, tr, tc).None? then MoveOn(b, row, col, tr, tc, Some(ParticleSwap)).after else b
  }

  /**
   * The sideways part of cloud and water: if the coin is set and the
   * `first` side reads as empty, move there (and do not try the other
   * side even if that move fails); otherwise move to the `second` side if
   * it reads as empty. Both moves start from the original (row, col).
   */
  function Sideways(b: Board, row: int, col: int, coin: bool, first: int, second: int): Board
    requires InBounds(b, row, col)
  {
    if coin && At(b, row, first).None? then MoveOn(b, row, col, row, first, Some(ParticleSwap)).after
    else MoveIfEmpty(b, row, col, row, second)
  }

  /**
   * `Cloud.update`: rain out onto dirt below; otherwise on the vertical
   * coin move UP one row into an empty cell, then sideways trying left
   * first on the lateral coin.
   */
  function CloudStep(b: Board, row: int, col: int, coins: Coins): Board
    requires InBounds(b, row, col)
  {
    if DirtBelow(b, row, col) then RainOut(b, row, col)
    else
      var b1 := if coins.vertical then MoveIfEmpty(b, row, col, row - 1, col) else b;
      Sideways(b1, row, col, coins.lateral, col - 1, col + 1)
  }

  /**
   * `Water.update`: rain out onto dirt below; otherwise on the vertical
   * coin move down one row into an empty cell, then sideways trying right
   * first on the lateral coin.
   */
  function WaterStep(b: Board, row: int, col: int, coins: Coins): Board
    requires InBounds(b, row, col)
  {
    if DirtBelow(b, row, col) then RainOut(b, row, col)
    else
      var b1 := if coins.vertical then MoveIfEmpty(b, row, col, row + 1, col) else b;
      Sideways(b1, row, col, coins.lateral, col + 1, col - 1)
  }

  /**
   * The call `particle.update(row, col)` on the occupant of (row, col):
   * each class's own rule, the inherited falling rule for stone, and
   * nothing for grass.
   */
  function Step(b: Board, row: int, col: int, coins: Coins): Board
    requires InBounds(b, row, col) && b[row][col].Some?
  {
    match b[row][col].value
    case Sand => SandStep(b, row, col)
    case Water => WaterStep(b, row, col, coins)
    case Stone => FallStep(b, row, col, Stone)
    case Dirt(_) => DirtStep(b, row, col)
    case Cloud => CloudStep(b, row, col, coins)
    case Grass => b
  }

  /** The update of (row, col) is a cloud or water raining out onto dirt. */
  predicate RainsOut(b: Board, row: int, col: int)
    requires InBounds(b, row, col)
  {
    (b[row][col] == Some(Water) || b[row][col] == Some(Cloud)) && DirtBelow(b, row, col)
  }

  // ---------------------------------------------------------------------
  // What each rule does to the cells around it

  /**
   * Stone is not inert: it falls into an empty cell below, else into an
   * empty cell down-left, else into an empty cell down-right, and
   * otherwise stays; it never displaces an occupant.
   */
  lemma StoneFalls(b: Board, row: int, col: int, coins: Coins)
    requires InBounds(b, row, col) && b[row][col] == Some(Stone)
    ensures var a := Step(b, row, col, coins);
      && (Free(b, row + 1, col) ==> MovedTo(b, a, row, col, row + 1, col))
      && (!Free(b, row + 1, col) && Free(b, row + 1, col - 1) ==> MovedTo(b, a, row, col, row + 1, col - 1))
      && (!Free(b, row + 1, col) && !Free(b, row + 1, col - 1) && Free(b, row + 1, col + 1) ==>
            MovedTo(b, a, row, col, row + 1, col + 1))
      && (!Free(b, row + 1, col) && !Free(b, row + 1, col - 1) && !Free(b, row + 1, col + 1) ==> a == b)
  {
    MoveOnCases(b, row, col, row + 1, col, None);
    MoveOnCases(b, row, col, row + 1, col - 1, Some(ParticleSwap));
    MoveOnCases(b, row, col, row + 1, col + 1, Some(ParticleSwap));
  }

  /**
   * Sand moves into an empty cell below, exchanges places with water
   * below, and otherwise leaves the board unchanged.
   */
  lemma SandSinks(b: Board, row: int, col: int, coins: Coins)
    requires InBounds(b, row, col) && b[row][col] == Some(Sand)
    ensures var a := Step(b, row, col, coins);
      && (Free(b, row + 1, col) ==> MovedTo(b, a, row, col, row + 1, col))
      && (At(b, row + 1, col) == Some(Water) ==> SwappedWith(b, a, row, col, row + 1, col))
      && (!Free(b, row + 1, col) && At(b, row + 1, col) != Some(Water) ==> a == b)
  {
    MoveOnCases(b, row, col, row + 1, col, Some(SandSwap));
  }

  /**
   * Wet dirt turns into grass in its own cell and nothing else changes;
   * dry dirt moves into an empty cell below and otherwise stays.
   */
  lemma DirtGrowsOrFalls(b: Board, row: int, col: int, coins: Coins)
    requires InBounds(b, row, col) && b[row][col].Some? && b[row][col].value.Dirt?
    ensures var a := Step(b, row, col, coins);
      && (b[row][col].value.wet ==> a[row][col] == Some(Grass) && OnlyChanged(b, a, {(row, col)}))
      && (!b[row][col].value.wet && Free(b, row + 1, col) ==> MovedTo(b, a, row, col, row + 1, col))
      && (!b[row][col].value.wet && !Free(b, row + 1, col) ==> a == b)
  {
    MoveOnCases(b, row, col, row + 1, col, None);
  }

  /**
   * Cloud or water above dirt: the dirt becomes wet and stays dirt in
   * place, the raining particle's cell becomes empty, nothing else changes.
   */
  lemma RainWetsDirt(b: Board, row: int, col: int, coins: Coins)
    requires InBounds(b, row, col) && RainsOut(b, row, col)
    ensures var a := Step(b, row, col, coins);
      && a[row + 1][col] == Some(Dirt(true)) && a[row][col].None?
      && OnlyChanged(b, a, {(row, col), (row + 1, col)})
  {
  }

  /**
   * The sideways part when the particle's cell has already been emptied
   * by a vertical move: every guarded move is a stale move from an empty
   * cell into an empty one, so nothing changes.
   */
  lemma SidewaysAfterMoveIsNoOp(b: Board, row: int, col: int, coin: bool, first: int, second: int)
    requires InBounds(b, row, col) && b[row][col].None?
    ensures Sideways(b, row, col, coin, first, second) == b
  {
    if coin && At(b, row, first).None? {
      StaleMoveIsNoOp(b, row, col, row, first, Some(ParticleSwap));
    } else if At(b, row, second).None? {
      StaleMoveIsNoOp(b, row, col, row, second, Some(ParticleSwap));
    }
  }

  /**
   * The sideways part from an occupied cell: a move into the `first` side
   * when the coin is set and that side reads as empty (and no move at all
   * when that side is off the grid), else a move into the `second` side
   * when it is an empty cell, else nothing.
   */
  lemma SidewaysOutcomes(b: Board, row: int, col: int, coin: bool, first: int, second: int)
    requires InBounds(b, row, col) && b[row][col].Some? && first != col && second != col
    ensures var a := Sideways(b, row, col, coin, first, second);
      && (coin && Free(b, row, first) ==> MovedTo(b, a, row, col, row, first))
      && (coin && !InBounds(b, row, first) ==> a == b)
      && (!(coin && At(b, row, first).None?) && Free(b, row, second) ==> MovedTo(b, a, row, col, row, second))
      && (!(coin && At(b, row, first).None?) && !Free(b, row, second) ==> a == b)
  {
    MoveOnCases(b, row, col, row, first, Some(ParticleSwap));
    MoveOnCases(b, row, col, row, second, Some(ParticleSwap));
  }

  /**
   * A cloud that does not rain out rises into an empty cell above when
   * the vertical coin is set, and then the sideways moves, which start
   * from its old cell, do nothing; otherwise it moves sideways, left first.
   */
  lemma CloudDrifts(b: Board, row: int, col: int, coins: Coins)
    requires InBounds(b, row, col) && b[row][col] == Some(Cloud) && !DirtBelow(b, row, col)
    ensures var a := Step(b, row, col, coins);
      && (coins.vertical && Free(b, row - 1, col) ==> MovedTo(b, a, row, col, row - 1, col))
      && (!(coins.vertical && Free(b, row - 1, col)) ==> a == Sideways(b, row, col, coins.lateral, col - 1, col + 1))
  {
    MoveOnCases(b, row, col, row - 1, col, Some(ParticleSwap));
    if coins.vertical && Free(b, row - 1, col) {
      var b1 := MoveOn(b, row, col, row - 1, col, Some(ParticleSwap)).after;
      SidewaysAfterMoveIsNoOp(b1, row, col, coins.lateral, col - 1, col + 1);
    }
  }

  /**
   * Water that does not rain out falls into an empty cell below when the
   * vertical coin is set, and then the sideways moves do nothing;
   * otherwise it moves sideways, right first.
   */
  lemma WaterFlows(b: Board, row: int, col: int, coins: Coins)
    requires InBounds(b, row, col) && b[row][col] == Some(Water) && !DirtBelow(b, row, col)
    ensures var a := Step(b, row, col, coins);
      && (coins.vertical && Free(b, row + 1, col) ==> MovedTo(b, a, row, col, row + 1, col))
      && (!(coins.vertical && Free(b, row + 1, col)) ==> a == Sideways(b, row, col, coins.lateral, col + 1, col - 1))
  {
    MoveOnCases(b, row, col, row + 1, col, Some(ParticleSwap));
    if coins.vertical && Free(b, row + 1, col) {
      var b1 := MoveOn(b, row, col, row + 1, col, Some(ParticleSwap)).after;
      SidewaysAfterMoveIsNoOp(b1, row, col, coins.lateral, col + 1, col - 1);
    }
  }

  /** Grass does nothing. */
  lemma GrassIsInert(b: Board, row: int, col: int, coins: Coins)
    requires InBounds(b, row, col) && b[row][col] == Some(Grass)
    ensures Step(b, row, col, coins) == b
  {
  }
}
