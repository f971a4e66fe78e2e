/**
 * The grid store that particles.js imports from canvas.js. canvas.js is
 * not part of this model; this class implements the contract the particle
 * rules rely on over a fixed-size two-dimensional array, and each method
 * is tied to the value-level definition in `Boards`.
 */
module Canvas {
  import opened Wrappers
  import opened Particles
  import opened Boards

  class Grid {
    /** The cells, row by row; the dimensions are fixed at creation. */
    const cells: array2<Option<Particle>>

    /** An empty grid of the given size. */
    constructor (rows: nat, cols: nat)
      ensures fresh(cells) && cells.Length0 == rows && cells.Length1 == cols
      ensures forall r, c :: InBounds(Board(), r, c) ==> Board()[r][c].None?
    {
      cells := new Option<Particle>[rows, cols]((r, c) => None);
    }

    /** The grid as a value. */
    ghost function Board(): (b: Board)
      reads cells
      ensures |b| == cells.Length0
      ensures forall r :: 0 <= r < |b| ==> |b[r]| == cells.Length1
      ensures forall r, c :: 0 <= r < cells.Length0 && 0 <= c < cells.Length1 ==> b[r][c] == cells[r, c]
    {
      seq(cells.Length0, r requires 0 <= r < cells.Length0 reads cells =>
        seq(cells.Length1, c requires 0 <= c < cells.Length1 reads cells => cells[r, c]))
    }

    /** `checkBounds`: (r, c) is a cell of the grid. */
    function CheckBounds(r: int, c: int): (ok: bool)
      ensures ok <==> InBounds(Board(), r, c)
    {
      0 <= r < cells.Length0 && 0 <= c < cells.Length1
    }

    /** `getParticle`: the occupant of (r, c); out of bounds reads as no particle. */
    function GetParticle(r: int, c: int): (o: Option<Particle>)
      reads cells
      ensures o == At(Board(), r, c)
    {
      if CheckBounds(r, c) then cells[r, c] else None
    }

    /** `setParticle`: overwrite the cell (r, c) and nothing else. */
    method SetParticle(r: int, c: int, v: Option<Particle>)
      requires InBounds(Board(), r, c)
      modifies cells
      ensures Board() == Put(old(Board()), r, c, v)
    {
      cells[r, c] := v;
      Extensionality(Board(), Put(old(Board()), r, c, v));
    }

    /**
     * `moveParticle`: out of bounds it fails; into an empty cell it
     * transfers the occupant of (fr, fc); into an occupied cell it swaps
     * when `swap` accepts the occupant, and otherwise fails.
     */
    method MoveParticle(fr: int, fc: int, tr: int, tc: int, swap: Option<Particle -> bool>) returns (moved: bool)
      requires InBounds(Board(), fr, fc)
      modifies cells
      ensures MoveResult(moved, Board()) == MoveOn(old(Board()), fr, fc, tr, tc, swap)
    {
      if !CheckBounds(tr, tc) {
        return false;
      }
      var src, dst := cells[fr, fc], cells[tr, tc];
      if dst.Some? && !(swap.Some? && swap.value(dst.value)) {
        return false;
      }
      ghost var b := old(Board());
      cells[fr, fc] := dst;
      ghost var b1 := Board();
      Extensionality(b1, Put(b, fr, fc, dst));
      cells[tr, tc] := src;
      Extensionality(Board(), Put(b1, tr, tc, src));
      moved := true;
    }
  }
}
