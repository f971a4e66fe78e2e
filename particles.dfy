/**
 * Particle kinds, their swap predicates and the factory that builds them
 * from a dropdown name (particles.js).
 */
module Particles {
  import opened Wrappers

  /**
   * One grid occupant. The six classes of particles.js become six
   * constructors; only dirt carries the `wet` flag, which is the only
   * field the rules ever change. Colours are display-only and left out.
   */
  datatype Particle = Sand | Water | Stone | Dirt(wet: bool) | Cloud | Grass

  /** The `type` string each constructor stores. */
  function TypeName(p: Particle): string
  {
    match p
    case Sand => "sand"
    case Water => "water"
    case Stone => "stone"
    case Dirt(_) => "dirt"
    case Cloud => "cloud"
    case Grass => "grass"
  }

  /** The JavaScript class name of each particle, as offered by the dropdown. */
  function ClassName(p: Particle): string
  {
    match p
    case Sand => "Sand"
    case Water => "Water"
    case Stone => "Stone"
    case Dirt(_) => "Dirt"
    case Cloud => "Cloud"
    case Grass => "Grass"
  }

  /** The names the factory recognises. */
  const ClassNames: set<string> := {"Sand", "Water", "Stone", "Dirt", "Cloud", "Grass"}

  /** ASCII lower-casing of one character. */
  function LowerChar(ch: char): char
  {
    if 'A' <= ch <= 'Z' then (ch as int + 32) as char else ch
  }

  /** ASCII lower-casing of a string, character by character. */
  function ToLower(s: string): (r: string)
    ensures |r| == |s|
    ensures forall i :: 0 <= i < |s| ==> r[i] == LowerChar(s[i])
  {
    if s == [] then [] else [LowerChar(s[0])] + ToLower(s[1..])
  }

  /** `Particle.swap`: the base class never swaps with an occupant. */
  function ParticleSwap(other: Particle): (r: bool)
    ensures !r
  {
    false
  }

  /** `Sand.swap`: sand swaps exactly with an occupant whose `type` is "water". */
  function SandSwap(other: Particle): (r: bool)
    ensures r <==> TypeName(other) == "water"
  {
    other.Water?
  }

  /**
   * The predicate `this.swap` resolves to for a receiver `p`: only Sand
   * overrides the base method, so a particle displaces an occupant
   * exactly when it is sand and the occupant is water, and dirt, water,
   * cloud, stone and grass never displace anything.
   */
  function SwapOf(p: Particle): (r: Particle -> bool)
    ensures forall other :: r(other) <==> p.Sand? && TypeName(other) == "water"
  {
    if p.Sand? then SandSwap else ParticleSwap
  }

  /**
   * `checkParticleType`: a fresh particle for each recognised class name,
   * dry when it is dirt, and nothing for any other string.
   */
  function CheckParticleType(value: string): (r: Option<Particle>)
    ensures r.Some? <==> value in ClassNames
    ensures r.Some? ==> ClassName(r.value) == value
    ensures r.Some? ==> TypeName(r.value) == ToLower(value)
    ensures r.Some? && r.value.Dirt? ==> !r.value.wet
  {
    if value == "Sand" then Some(Sand)
    else if value == "Water" then Some(Water)
    else if value == "Stone" then Some(Stone)
    else if value == "Dirt" then Some(Dirt(false))
    else if value == "Cloud" then Some(Cloud)
    else if value == "Grass" then Some(Grass)
    else None
  }

  /**
   * The factory inverts `ClassName`: naming a particle's class yields a
   * new particle of that kind, with dirt reset to dry.
   */
  lemma FactoryRoundTrip(p: Particle)
    ensures CheckParticleType(ClassName(p)) == Some(if p.Dirt? then Dirt(false) else p)
  {
  }
}
