/** The colour stage of both variants: an escape count becomes black when it
    equals the cap and otherwise one of 16 palette colours chosen by
    `count % 16`. The job variant produces `Color32` bytes, the scalar
    variant a Unity `Color` of floats in [0, 1]; each file has its own copy of
    the table. */
module Colors {
  import opened Numeric

  type Byte = x: int | 0 <= x < 256

  /** Unity's `Color32`: four bytes r, g, b, a. */
  datatype Color32 = Color32(r: Byte, g: Byte, b: Byte, a: Byte)

  /** Unity's `Color` (the scalar file builds it from a `Vector4`). */
  datatype ColorF = ColorF(r: real, g: real, b: real, a: real)

  /** The `switch (colorNr)` table of `SetColor.Execute`, as (r, g, b). */
  const JOB_PALETTE: seq<(Byte, Byte, Byte)> := [
    (66, 30, 15), (25, 7, 26), (9, 1, 47), (4, 4, 73),
    (0, 7, 100), (12, 44, 138), (24, 82, 177), (57, 125, 209),
    (134, 181, 229), (211, 236, 248), (241, 233, 191), (248, 201, 95),
    (255, 170, 0), (204, 128, 0), (153, 87, 0), (106, 52, 3)
  ]

  /** The `switch (colorNr)` table of the scalar `SetColor`, channel values
      written as numerator / 255. */
  const SCALAR_PALETTE: seq<(real, real, real)> := [
    (66.0 / 255.0, 30.0 / 255.0, 15.0 / 255.0),
    (25.0 / 255.0, 7.0 / 255.0, 26.0 / 255.0),
    (9.0 / 255.0, 1.0 / 255.0, 47.0 / 255.0),
    (4.0 / 255.0, 4.0 / 255.0, 73.0 / 255.0),
    (0.0 / 255.0, 7.0 / 255.0, 100.0 / 255.0),
    (12.0 / 255.0, 44.0 / 255.0, 138.0 / 255.0),
    (24.0 / 255.0, 82.0 / 255.0, 177.0 / 255.0),
    (57.0 / 255.0, 125.0 / 255.0, 209.0 / 255.0),
    (134.0 / 255.0, 181.0 / 255.0, 229.0 / 255.0),
    (211.0 / 255.0, 236.0 / 255.0, 248.0 / 255.0),
    (241.0 / 255.0, 233.0 / 255.0, 191.0 / 255.0),
    (248.0 / 255.0, 201.0 / 255.0, 95.0 / 255.0),
    (255.0 / 255.0, 170.0 / 255.0, 0.0 / 255.0),
    (204.0 / 255.0, 128.0 / 255.0, 0.0 / 255.0),
    (153.0 / 255.0, 87.0 / 255.0, 0.0 / 255.0),
    (106.0 / 255.0, 52.0 / 255.0, 3.0 / 255.0)
  ]

  const BLACK32: Color32 := Color32(0, 0, 0, 255)
  const BLACK_F: ColorF := ColorF(0.0, 0.0, 0.0, 1.0)

  /** The colour `SetColor.Execute` stores for one count. It starts from opaque
      black; only a count different from the cap selects a table entry, and
      only a remainder 0..15 matches a case (C#'s `%` is negative for a
      negative count, which then matches none and stays black). */
  function SetColor32(value: Int32, maxIterations: Int32): (c: Color32)
    ensures c.a == 255
    ensures value == maxIterations ==> c == BLACK32
  {
    if value != maxIterations && Rem16(value) >= 0 then
      var (r, g, b) := JOB_PALETTE[Rem16(value)];
      Color32(r, g, b, 255)
    else
      BLACK32
  }

  /** The colour the scalar `SetColor` returns: the same decision, with the
      scalar table and alpha 1. */
  function SetColorF(value: Int32, maxIterations: Int32): (c: ColorF)
    ensures c.a == 1.0
    ensures value == maxIterations ==> c == BLACK_F
  {
    if value != maxIterations && Rem16(value) >= 0 then
      var (r, g, b) := SCALAR_PALETTE[Rem16(value)];
      ColorF(r, g, b, 1.0)
    else
      BLACK_F
  }

  /** A byte colour as the float colour Unity associates with it. */
  function ToColorF(c: Color32): ColorF {
    ColorF(c.r as real / 255.0, c.g as real / 255.0, c.b as real / 255.0, c.a as real / 255.0)
  }

  /** The escaped counts the loop produces (0 <= value, value != cap) take
      table entry value % 16, opaque. */
  lemma EscapedCountColor(value: Int32, maxIterations: Int32)
    requires 0 <= value && value != maxIterations
    ensures SetColor32(value, maxIterations) == Color32(JOB_PALETTE[value % 16].0,
      JOB_PALETTE[value % 16].1, JOB_PALETTE[value % 16].2, 255)
  {
  }

  /** The palette cycles with period 16 over escaped counts. */
  lemma PaletteCycles(value: Int32, maxIterations: Int32)
    requires 0 <= value && value + 16 <= INT32_MAX
    requires value != maxIterations && value + 16 != maxIterations
    ensures SetColor32(value, maxIterations) == SetColor32(value + 16, maxIterations)
    ensures SetColorF(value, maxIterations) == SetColorF(value + 16, maxIterations)
  {
  }

  /** No table entry is black, so for the counts the loop can produce (between
      0 and a non-negative cap) black means interior and nothing else. */
  lemma BlackIffInterior(value: Int32, maxIterations: Int32)
    requires 0 <= value <= maxIterations
    ensures SetColor32(value, maxIterations) == BLACK32 <==> value == maxIterations
    ensures SetColorF(value, maxIterations) == BLACK_F <==> value == maxIterations
  {
    if value != maxIterations {
      var k := Rem16(value);
      assert 0 <= k < 16;
      assert JOB_PALETTE[k] != (0, 0, 0);
      assert SCALAR_PALETTE[k] != (0.0, 0.0, 0.0);
    }
  }

  /** A negative count that is not a multiple of 16 matches no case of the
      switch and is drawn black, although it is not the cap. */
  lemma NegativeCountsMatchNoCase(value: Int32, maxIterations: Int32)
    requires value < 0 && value % 16 != 0
    ensures SetColor32(value, maxIterations) == BLACK32
    ensures SetColorF(value, maxIterations) == BLACK_F
  {
  }

  /** The two files' tables hold the same colours: the scalar colour of every
      count is the job colour divided by 255, channel by channel. */
  lemma ScalarColorIsJobColorScaled(value: Int32, maxIterations: Int32)
    ensures SetColorF(value, maxIterations) == ToColorF(SetColor32(value, maxIterations))
  {
    if value != maxIterations && Rem16(value) >= 0 {
      TablesAgree(Rem16(value));
    }
  }

  lemma TablesAgree(k: int)
    requires 0 <= k < 16
    ensures SCALAR_PALETTE[k].0 == JOB_PALETTE[k].0 as real / 255.0
    ensures SCALAR_PALETTE[k].1 == JOB_PALETTE[k].1 as real / 255.0
    ensures SCALAR_PALETTE[k].2 == JOB_PALETTE[k].2 as real / 255.0
  {
  }
}
