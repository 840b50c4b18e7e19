/** Values the sign registry is built from: block positions, tracked signs and the world query. */
module SignTypes {

  datatype Option<T> = None | Some(value: T)

  /** A block position: the world's name and integer block coordinates (the key type of the registry). */
  datatype Loc = Loc(world: string, x: int, y: int, z: int)

  /** The block one up from `l`. */
  function Above(l: Loc): Loc
  {
    l.(y := l.y + 1)
  }

  /** The block one down from `l`. */
  function Below(l: Loc): Loc
  {
    l.(y := l.y - 1)
  }

  /** The text lines of a sign block; the handlers read the first one, so there is always one. */
  type Lines = s: seq<string> | |s| > 0 witness [""]

  /** A tracked sign: its name (first text line), its on/off state, where it stands and the block
      whose redstone power drives it. */
  datatype Sign = Sign(name: string, state: bool, location: Loc, control: Loc)

  /** What the game world shows at a position: the lines of the sign standing there, or nothing
      when the block is not a sign. */
  type World = Loc -> Option<Lines>
}
