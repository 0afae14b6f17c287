/** The drawing context of bitdraw.h and the site records it draws. */
module DrawingContext {
  import opened Wrappers
  import opened Canvas

  /** The number of site types, `NR_SITE_TYPE`, and the ordinal of `CLB`.
      Both come from the site enumeration, which is not part of this model;
      the values below stand in for them and the proofs use only
      `Clb < NrSiteType`. */
  const NrSiteType: nat := 8
  const Clb: SiteType := 1

  type SiteType = k: nat | k < NrSiteType witness 0

  /** A pattern pointer, possibly null. */
  type Slot = Option<PatternId>

  /** One of the three per-type pattern arrays: exactly one slot per site type. */
  type SlotArray = a: seq<Slot> | |a| == NrSiteType witness seq(NrSiteType, _ => None)

  /** The `cairo_t *` the context draws on; borrowed, never owned. */
  type SurfaceHandle = nat

  /** The `pip_patterns` pointer, declared but never populated; kept only so
      that operations can be shown to leave it alone. */
  type PipTable = nat

  datatype Context = Context(
    cr: SurfaceHandle,
    text: bool,
    singPatterns: SlotArray,
    linePatterns: SlotArray,
    fullPatterns: SlotArray,
    pipPatterns: PipTable,
    xOffset: int,
    yOffset: int,
    zoom: Zoom)

  /** A site as this module sees it: its type and its printed name. */
  datatype Site = Site(kind: SiteType, name: string)

  /** One visit of the site iteration: grid coordinates and the site there. */
  datatype Placed = Placed(x: nat, y: nat, site: Site)

  /** A chip: grid size in sites and the sites its iteration yields, in an
      order this model leaves open. */
  datatype Chip = Chip(width: nat, height: nat, sites: seq<Placed>)

  /** `set_cairo_context`: rebinds the surface and nothing else. */
  function SetCairoContext(ctx: Context, cr: SurfaceHandle): (r: Context)
    ensures r.cr == cr
    ensures r.text == ctx.text
    ensures r.singPatterns == ctx.singPatterns
    ensures r.linePatterns == ctx.linePatterns
    ensures r.fullPatterns == ctx.fullPatterns
    ensures r.pipPatterns == ctx.pipPatterns
    ensures r.xOffset == ctx.xOffset && r.yOffset == ctx.yOffset
    ensures r.zoom == ctx.zoom
  {
    ctx.(cr := cr)
  }

  /** Rebinding is last-write-wins, and rebinding to the current surface
      changes nothing. */
  lemma SetCairoContextOverwrites(ctx: Context, a: SurfaceHandle, b: SurfaceHandle)
    ensures SetCairoContext(SetCairoContext(ctx, a), b) == SetCairoContext(ctx, b)
    ensures SetCairoContext(ctx, ctx.cr) == ctx
  {
  }
}
