/**
 * The `update(row, col)` methods of particles.js, step by step over the
 * shared grid through its primitives. Each is proved to leave the grid
 * equal to its rule in `Rules` applied to the grid before the call. The
 * receiver of each call is the particle occupying (row, col).
 */
module Updates {
  import opened Wrappers
  import opened Particles
  import opened Boards
  import opened Rules
  import opened Canvas

  /**
   * `Particle.update`, which stone inherits: straight down, else
   * down-left, else down-right, the diagonals passing `this.swap`.
   */
  method ParticleUpdate(g: Grid, row: int, col: int)
    requires g.CheckBounds(row, col) && g.GetParticle(row, col).Some?
    modifies g.cells
    ensures g.Board() == FallStep(old(g.Board()), row, col, old(g.GetParticle(row, col)).value)
  {
    var self := g.GetParticle(row, col).value;
    var newRow := row + 1;
    var moved := g.MoveParticle(row, col, newRow, col, None);
    if !moved {
      moved := g.MoveParticle(row, col, newRow, col - 1, Some(SwapOf(self)));
      if !moved {
        moved := g.MoveParticle(row, col, newRow, col + 1, Some(SwapOf(self)));
      }
    }
  }

  /** `Sand.update`: one move down, passing the sand swap predicate. */
  method SandUpdate(g: Grid, row: int, col: int)
    requires g.CheckBounds(row, col) && g.GetParticle(row, col) == Some(Sand)
    modifies g.cells
    ensures g.Board() == SandStep(old(g.Board()), row, col)
  {
    var moved := g.MoveParticle(row, col, row + 1, col, Some(SandSwap));
  }

  /** `Dirt.update`: grass when wet, else a move down into an empty cell. */
  method DirtUpdate(g: Grid, row: int, col: int)
    requires g.CheckBounds(row, col) && g.GetParticle(row, col).Some? && g.GetParticle(row, col).value.Dirt?
    modifies g.cells
    ensures g.Board() == DirtStep(old(g.Board()), row, col)
  {
    var self := g.GetParticle(row, col).value;
    if self.wet {
      g.SetParticle(row, col, Some(Grass));
      return;
    }
    if g.GetParticle(row + 1, col).None? {
      var moved := g.MoveParticle(row, col, row + 1, col, None);
    }
  }

  /**
   * `Cloud.update`: rain out onto dirt below (setting the dirt's `wet` in
   * place and clearing its own cell); otherwise a guarded move up, then a
   * guarded move left or right, both from the original (row, col).
   */
  method CloudUpdate(g: Grid, row: int, col: int, coins: Coins)
    requires g.CheckBounds(row, col) && g.GetParticle(row, col) == Some(Cloud)
    modifies g.cells
    ensures g.Board() == CloudStep(old(g.Board()), row, col, coins)
  {
    var below := g.GetParticle(row + 1, col);
    if below.Some? && below.value.Dirt? {
      g.SetParticle(row + 1, col, Some(below.value.(wet := true)));
      g.SetParticle(row, col, None);
      return;
    }
    ghost var b0 := g.Board();
    var moved;
    if coins.vertical && g.GetParticle(row - 1, col).None? {
      moved := g.MoveParticle(row, col, row - 1, col, Some(ParticleSwap));
    }
    assert g.Board() == if coins.vertical then MoveIfEmpty(b0, row, col, row - 1, col) else b0;
    ghost var b1 := g.Board();
    if coins.lateral && g.GetParticle(row, col - 1).None? {
      moved := g.MoveParticle(row, col, row, col - 1, Some(ParticleSwap));
    } else if g.GetParticle(row, col + 1).None? {
      moved := g.MoveParticle(row, col, row, col + 1, Some(ParticleSwap));
    }
    assert g.Board() == Sideways(b1, row, col, coins.lateral, col - 1, col + 1);
  }

  /**
   * `Water.update`: rain out onto dirt below; otherwise a guarded move
   * down, then a guarded move right or left, both from the original
   * (row, col).
   */
  method WaterUpdate(g: Grid, row: int, col: int, coins: Coins)
    requires g.CheckBounds(row, col) && g.GetParticle(row, col) == Some(Water)
    modifies g.cells
    ensures g.Board() == WaterStep(old(g.Board()), row, col, coins)
  {
    var below := g.GetParticle(row + 1, col);
    if below.Some? && below.value.Dirt? {
      g.SetParticle(row + 1, col, Some(below.value.(wet := true)));
      g.SetParticle(row, col, None);
      return;
    }
    ghost var b0 := g.Board();
    var moved;
    if coins.vertical && g.GetParticle(row + 1, col).None? {
      moved := g.MoveParticle(row, col, row + 1, col, Some(ParticleSwap));
    }
    assert g.Board() == if coins.vertical then MoveIfEmpty(b0, row, col, row + 1, col) else b0;
    ghost var b1 := g.Board();
    if coins.lateral && g.GetParticle(row, col + 1).None? {
      moved := g.MoveParticle(row, col, row, col + 1, Some(ParticleSwap));
    } else if g.GetParticle(row, col - 1).None? {
      moved := g.MoveParticle(row, col, row, col - 1, Some(ParticleSwap));
    }
    assert g.Board() == Sideways(b1, row, col, coins.lateral, col + 1, col - 1);
  }

  /** `Grass.update`: returns at once. */
  method GrassUpdate(g: Grid, row: int, col: int)
    requires g.CheckBounds(row, col) && g.GetParticle(row, col) == Some(Grass)
    ensures g.Board() == old(g.Board())
  {
  }

  /**
   * The call `particle.update(row, col)` on the occupant of (row, col),
   * dispatched on its class; stone has no `update` of its own.
   */
  method Update(g: Grid, row: int, col: int, coins: Coins)
    requires g.CheckBounds(row, col) && g.GetParticle(row, col).Some?
    modifies g.cells
    ensures g.Board() == Step(old(g.Board()), row, col, coins)
  {
    match g.GetParticle(row, col).value
    case Sand => SandUpdate(g, row, col);
    case Water => WaterUpdate(g, row, col, coins);
    case Stone => ParticleUpdate(g, row, col);
    case Dirt(_) => DirtUpdate(g, row, col);
    case Cloud => CloudUpdate(g, row, col, coins);
    case Grass => GrassUpdate(g, row, col);
  }
}
