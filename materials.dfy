/**
 * The material labels a voxel cell can carry, and their one-byte encoding
 * (the texel value the raymarching shader reads from the 3-D texture).
 */
module Materials {

  /** An unsigned byte, the element type of the voxel texture. */
  newtype Byte = b: int | 0 <= b < 256

  /**
   * The closed set of labels. The enum in src/materials.hpp declares VOID,
   * GLASS and SOLID only; SEMI_SOLID is used by the generator, so it is
   * part of the datatype here.
   */
  datatype Material = Void | Glass | Solid | SemiSolid

  datatype Option<T> = None | Some(value: T)

  /** The byte stored for a material: VOID=0, GLASS=1, SOLID=2, SEMI_SOLID=3. */
  function Code(m: Material): (b: Byte)
    ensures b < 4
    ensures (b == 0) == m.Void?
  {
    match m
    case Void => 0
    case Glass => 1
    case Solid => 2
    case SemiSolid => 3
  }

  /** Reads a texel back as a material; bytes outside 0..3 name none. */
  function Decode(b: Byte): (m: Option<Material>)
    ensures m.None? <==> b >= 4
  {
    if b == 0 then Some(Void)
    else if b == 1 then Some(Glass)
    else if b == 2 then Some(Solid)
    else if b == 3 then Some(SemiSolid)
    else None
  }

  /** Every material survives the trip through its byte. */
  lemma DecodeCode(m: Material)
    ensures Decode(Code(m)) == Some(m)
  {
  }

  /** Every byte that decodes is the code of what it decodes to. */
  lemma CodeDecode(b: Byte)
    requires b < 4
    ensures Decode(b).Some? && Code(Decode(b).value) == b
  {
  }

  /** Distinct materials are stored as distinct bytes. */
  lemma CodeInjective(m: Material, n: Material)
    ensures Code(m) == Code(n) ==> m == n
  {
  }
}
