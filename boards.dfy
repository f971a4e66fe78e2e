/**
 * The grid as a value, and the assumed contract of the grid primitives
 * that particles.js imports from canvas.js (`checkBounds`, `getParticle`,
 * `setParticle`, `moveParticle`). canvas.js is not part of this model: the
 * functions below state the behaviour the particle rules rely on.
 */
module Boards {
  import opened Wrappers
  import opened Particles

  /** Rows of cells; a cell is empty (`None`) or holds one particle. */
  type Board = seq<seq<Option<Particle>>>

  /** `checkBounds`: (r, c) names a cell of the board. */
  predicate InBounds(b: Board, r: int, c: int)
  {
    0 <= r < |b| && 0 <= c < |b[r]|
  }

  /** The two boards have the same rows of the same lengths. */
  predicate SameShape(a: Board, b: Board)
  {
    |a| == |b| && forall r :: 0 <= r < |a| ==> |a[r]| == |b[r]|
  }

  /** Every cell outside `keep` holds the same thing on both boards. */
  ghost predicate OnlyChanged(b: Board, a: Board, cells: set<(int, int)>)
  {
    SameShape(a, b) &&
    forall r, c :: InBounds(b, r, c) && (r, c) !in cells ==> a[r][c] == b[r][c]
  }

  /** Two boards of one shape that agree on every cell are equal. */
  lemma Extensionality(a: Board, b: Board)
    requires SameShape(a, b)
    requires forall r, c :: InBounds(b, r, c) ==> a[r][c] == b[r][c]
    ensures a == b
  {
    forall r | 0 <= r < |a|
      ensures a[r] == b[r]
    {
      assert forall c :: 0 <= c < |a[r]| ==> a[r][c] == b[r][c];
    }
  }

  /** `getParticle`: the occupant of a cell; out of bounds reads as empty. */
  function At(b: Board, r: int, c: int): (o: Option<Particle>)
    ensures !InBounds(b, r, c) ==> o.None?
    ensures InBounds(b, r, c) ==> o == b[r][c]
  {
    if InBounds(b, r, c) then b[r][c] else None
  }

  /** `setParticle`: overwrite one cell, leaving every other cell alone. */
  function Put(b: Board, r: int, c: int, v: Option<Particle>): (a: Board)
    requires InBounds(b, r, c)
    ensures SameShape(a, b)
    ensures a[r][c] == v
    ensures OnlyChanged(b, a, {(r, c)})
  {
    b[r := b[r][c := v]]
  }

  /** What `moveParticle` reports and the board it leaves. */
  datatype MoveResult = MoveResult(moved: bool, after: Board)

  /**
   * `moveParticle(fr, fc, tr, tc, swap)`: fails on an out-of-bounds
   * destination; into an empty destination it clears the source and puts
   * the source's content there; into an occupied destination it exchanges
   * the two cells when the optional predicate accepts the occupant, and
   * otherwise fails. The source is the caller's own cell.
   */
  function MoveOn(b: Board, fr: int, fc: int, tr: int, tc: int, swap: Option<Particle -> bool>): (m: MoveResult)
    requires InBounds(b, fr, fc)
    ensures SameShape(m.after, b)
    ensures !m.moved ==> m.after == b
    ensures m.moved ==> InBounds(b, tr, tc)
  {
    if !InBounds(b, tr, tc) then MoveResult(false, b)
    else if b[tr][tc].None? then MoveResult(true, Put(Put(b, fr, fc, None), tr, tc, b[fr][fc]))
    else if swap.Some? && swap.value(b[tr][tc].value) then
      MoveResult(true, Put(Put(b, fr, fc, b[tr][tc]), tr, tc, b[fr][fc]))
    else MoveResult(false, b)
  }

  /** The predicate passed to a move is absent or never accepts. */
  ghost predicate Refuses(swap: Option<Particle -> bool>)
  {
    swap.None? || forall p :: !swap.value(p)
  }

  /** The particle at (fr, fc) went to (tr, tc), which was empty, and nothing else changed. */
  ghost predicate MovedTo(b: Board, a: Board, fr: int, fc: int, tr: int, tc: int)
  {
    InBounds(b, fr, fc) && InBounds(b, tr, tc) && (fr, fc) != (tr, tc) &&
    OnlyChanged(b, a, {(fr, fc), (tr, tc)}) &&
    b[tr][tc].None? && a[tr][tc] == b[fr][fc] && a[fr][fc].None?
  }

  /** The cells (fr, fc) and (tr, tc) exchanged contents, and nothing else changed. */
  ghost predicate SwappedWith(b: Board, a: Board, fr: int, fc: int, tr: int, tc: int)
  {
    InBounds(b, fr, fc) && InBounds(b, tr, tc) && (fr, fc) != (tr, tc) &&
    OnlyChanged(b, a, {(fr, fc), (tr, tc)}) &&
    a[tr][tc] == b[fr][fc] && a[fr][fc] == b[tr][tc]
  }

  /**
   * The four cases of the assumed `moveParticle` contract, for a move to a
   * neighbouring cell.
   */
  lemma MoveOnCases(b: Board, fr: int, fc: int, tr: int, tc: int, swap: Option<Particle -> bool>)
    requires InBounds(b, fr, fc) && (fr, fc) != (tr, tc)
    ensures var m := MoveOn(b, fr, fc, tr, tc, swap);
      && (!InBounds(b, tr, tc) ==> !m.moved && m.after == b)
      && (InBounds(b, tr, tc) && b[tr][tc].None? ==> m.moved && MovedTo(b, m.after, fr, fc, tr, tc))
      && (InBounds(b, tr, tc) && b[tr][tc].Some? && swap.Some? && swap.value(b[tr][tc].value) ==>
            m.moved && SwappedWith(b, m.after, fr, fc, tr, tc))
      && (InBounds(b, tr, tc) && b[tr][tc].Some? && !(swap.Some? && swap.value(b[tr][tc].value)) ==>
            !m.moved && m.after == b)
  {
  }

  /**
   * A move out of a cell that is already empty into an empty cell reports
   * success and changes nothing: this is what the lateral moves of cloud
   * and water do after their vertical move has emptied their cell.
   */
  lemma StaleMoveIsNoOp(b: Board, fr: int, fc: int, tr: int, tc: int, swap: Option<Particle -> bool>)
    requires InBounds(b, fr, fc) && b[fr][fc].None? && At(b, tr, tc).None?
    ensures MoveOn(b, fr, fc, tr, tc, swap).after == b
  {
    if InBounds(b, tr, tc) {
      var a := MoveOn(b, fr, fc, tr, tc, swap).after;
      Extensionality(a, b);
    }
  }

  // ---------------------------------------------------------------------
  // Particle count

  /** The particles a cell contributes: none or one. */
  function Held(o: Option<Particle>): (m: multiset<Particle>)
    ensures |m| == if o.Some? then 1 else 0
  {
    if o.Some? then multiset{o.value} else multiset{}
  }

  /** The particles of one row, with multiplicity. */
  function RowOccupants(row: seq<Option<Particle>>): multiset<Particle>
  {
    if row == [] then multiset{} else Held(row[0]) + RowOccupants(row[1..])
  }

  /** The particles on the board, with multiplicity; its size is the particle count. */
  function Occupants(b: Board): multiset<Particle>
  {
    if b == [] then multiset{} else RowOccupants(b[0]) + Occupants(b[1..])
  }

  /** Multiset bookkeeping: adding the same part to both sides of a trade. */
  lemma Regroup(head: multiset<Particle>, after: multiset<Particle>, gone: multiset<Particle>, before: multiset<Particle>, added: multiset<Particle>)
    requires after + gone == before + added
    ensures head + after + gone == head + before + added
  {
    forall p
      ensures (head + after + gone)[p] == (head + before + added)[p]
    {
      assert (after + gone)[p] == (before + added)[p];
    }
  }

  /** Overwriting one cell of a row trades its old content for the new one. */
  lemma {:induction false} RowOccupantsUpdate(row: seq<Option<Particle>>, c: int, v: Option<Particle>)
    requires 0 <= c < |row|
    ensures RowOccupants(row[c := v]) + Held(row[c]) == RowOccupants(row) + Held(v)
  {
    var row' := row[c := v];
    if c == 0 {
      assert row'[1..] == row[1..];
    } else {
      var tail := row[1..];
      assert row'[0] == row[0] && row'[1..] == tail[c - 1 := v];
      assert tail[c - 1] == row[c];
      RowOccupantsUpdate(tail, c - 1, v);
      Regroup(Held(row[0]), RowOccupants(tail[c - 1 := v]), Held(row[c]), RowOccupants(tail), Held(v));
    }
  }

  /** Replacing one row trades that row's particles for the new row's. */
  lemma {:induction false} RowReplaceOccupants(b: Board, r: int, row: seq<Option<Particle>>)
    requires 0 <= r < |b|
    ensures Occupants(b[r := row]) + RowOccupants(b[r]) == Occupants(b) + RowOccupants(row)
  {
    var b' := b[r := row];
    if r == 0 {
      assert b'[0] == row && b'[1..] == b[1..];
      Regroup(Occupants(b[1..]), RowOccupants(row), RowOccupants(b[0]), RowOccupants(b[0]), RowOccupants(row));
    } else {
      var rest := b[1..];
      assert b'[0] == b[0] && b'[1..] == rest[r - 1 := row];
      assert rest[r - 1] == b[r];
      RowReplaceOccupants(rest, r - 1, row);
      Regroup(RowOccupants(b[0]), Occupants(rest[r - 1 := row]), RowOccupants(b[r]), Occupants(rest), RowOccupants(row));
    }
  }

  /** `setParticle` trades the cell's old content for the new one in the particle multiset. */
  lemma PutOccupants(b: Board, r: int, c: int, v: Option<Particle>)
    requires InBounds(b, r, c)
    ensures Occupants(Put(b, r, c, v)) + Held(b[r][c]) == Occupants(b) + Held(v)
  {
    var row := b[r][c := v];
    assert Put(b, r, c, v) == b[r := row];
    RowReplaceOccupants(b, r, row);
    RowOccupantsUpdate(b[r], c, v);
    var o', o := Occupants(b[r := row]), Occupants(b);
    var gone, added := Held(b[r][c]), Held(v);
    forall p
      ensures (o' + gone)[p] == (o + added)[p]
    {
      assert (o' + RowOccupants(b[r]))[p] == (o + RowOccupants(row))[p];
      assert (RowOccupants(row) + gone)[p] == (RowOccupants(b[r]) + added)[p];
    }
  }

  /**
   * Writing each of two cells with the other's content keeps the particle
   * multiset: both the transfer into an empty cell and the swap are of
   * this form.
   */
  lemma ExchangeKeepsOccupants(b: Board, fr: int, fc: int, tr: int, tc: int)
    requires InBounds(b, fr, fc) && InBounds(b, tr, tc)
    ensures Occupants(Put(Put(b, fr, fc, b[tr][tc]), tr, tc, b[fr][fc])) == Occupants(b)
  {
    var src, dst := b[fr][fc], b[tr][tc];
    var b1 := Put(b, fr, fc, dst);
    PutOccupants(b, fr, fc, dst);
    assert b1[tr][tc] == dst;
    PutOccupants(b1, tr, tc, src);
    Cancel(Occupants(b), Occupants(b1), Occupants(Put(b1, tr, tc, src)), Held(src), Held(dst));
  }

  /** Multiset bookkeeping for two trades in a row that undo each other's change in content. */
  lemma Cancel(o: multiset<Particle>, o1: multiset<Particle>, o2: multiset<Particle>, s: multiset<Particle>, d: multiset<Particle>)
    requires o1 + s == o + d && o2 + d == o1 + s
    ensures o2 == o
  {
    forall p
      ensures o2[p] == o[p]
    {
      assert (o2 + d)[p] == (o1 + s)[p] == (o + d)[p];
    }
  }

  /**
   * `moveParticle` never creates, destroys or duplicates a particle: the
   * multiset of particles on the board is the same afterwards, whether it
   * moved, swapped or failed.
   */
  lemma MoveKeepsOccupants(b: Board, fr: int, fc: int, tr: int, tc: int, swap: Option<Particle -> bool>)
    requires InBounds(b, fr, fc)
    ensures Occupants(MoveOn(b, fr, fc, tr, tc, swap).after) == Occupants(b)
  {
    if InBounds(b, tr, tc) {
      ExchangeKeepsOccupants(b, fr, fc, tr, tc);
    }
  }
}
