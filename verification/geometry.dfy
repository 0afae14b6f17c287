/** Fixed site geometry: the constants of bitdraw.h and sites_draw.c.
    Every constant of the source is a whole number of user-space units, so
    coordinates are modelled as `int`. */
module Geometry {

  // bitdraw.h: the switch glyph
  const SwitchCenterX: int := 50
  const SwitchCenterY: int := 50
  const SwitchRadius: int := 15

  // bitdraw.h: every site has the same footprint
  const SiteWidth: int := 100
  const SiteHeight: int := 100

  // sites_draw.c: the label
  const NameOffsetX: int := 20
  const NameOffsetY: int := 20
  const NameFontSize: int := 8
  const NameFontType: string := "bitstream vera sans mono"

  // sites_draw.c: the inset box
  const SiteMarginX: int := 10
  const SiteMarginY: int := 10

  // sites_draw.c: the lookup-table squares
  const LutWidth: int := 10
  const LutHeight: int := 10
  const LutBaseX: int := 80
  const LutBaseY: int := 20
  const LutDx: int := 0
  const LutDy: int := 10
  /** The loop bound of `_draw_luts`. */
  const LutCount: nat := 4

  /** An axis-aligned box given by its corner and extent. */
  datatype Box = Box(x: int, y: int, w: int, h: int) {
    predicate Contains(inner: Box) {
      x <= inner.x && inner.x + inner.w <= x + w &&
      y <= inner.y && inner.y + inner.h <= y + h
    }

    /** The interiors of the two boxes do not overlap. */
    predicate InteriorDisjoint(other: Box) {
      x + w <= other.x || other.x + other.w <= x ||
      y + h <= other.y || other.y + other.h <= y
    }
  }

  /** The footprint of one site in its own coordinates. */
  const Footprint: Box := Box(0, 0, SiteWidth, SiteHeight)

  /** The device offset of grid cell (x, y): `x * SITE_WIDTH, y * SITE_HEIGHT`. */
  function CellOffset(x: nat, y: nat): (o: (int, int))
    ensures o.0 >= 0 && o.1 >= 0
    ensures o.0 % SiteWidth == 0 && o.1 % SiteHeight == 0
  {
    (x * SiteWidth, y * SiteHeight)
  }

  /** Distinct grid cells are placed at distinct offsets, and the cell is
      recovered from its offset. */
  lemma CellOffsetInjective(x1: nat, y1: nat, x2: nat, y2: nat)
    ensures CellOffset(x1, y1) == CellOffset(x2, y2) <==> (x1 == x2 && y1 == y2)
    ensures CellOffset(x1, y1).0 / SiteWidth == x1 && CellOffset(x1, y1).1 / SiteHeight == y1
  {
  }

  /** Neighbouring cells tile the plane: the footprint placed at cell (x, y)
      ends exactly where the footprint of cell (x + 1, y) begins, and likewise
      vertically. */
  lemma CellsTile(x: nat, y: nat)
    ensures CellOffset(x, y).0 + SiteWidth == CellOffset(x + 1, y).0
    ensures CellOffset(x, y).1 + SiteHeight == CellOffset(x, y + 1).1
  {
  }
}
