/** The site drawing routines of sites_draw.c, each returning the commands
    it issues on the context's surface. */
module SitesDraw {
  import opened Wrappers
  import opened Geometry
  import opened Canvas
  import opened DrawingContext

  /** `_draw_box`: the site footprint inset by the margin on every side. */
  function DrawBox(): (t: Trace)
    ensures |t| == 2 && t[0].Rect? && t[1] == Stroke
    ensures t[0].x == Footprint.x + SiteMarginX && t[0].x + t[0].w == Footprint.x + Footprint.w - SiteMarginX
    ensures t[0].y == Footprint.y + SiteMarginY && t[0].y + t[0].h == Footprint.y + Footprint.h - SiteMarginY
    ensures t == [Rect(10, 10, 80, 80), Stroke]
  {
    [Rect(SiteMarginX, SiteMarginY, SiteWidth - 2 * SiteMarginX, SiteHeight - 2 * SiteMarginY), Stroke]
  }

  /** `_draw_switchbox`: the switch circle, centred on the footprint. */
  function DrawSwitchbox(): (t: Trace)
    ensures |t| == 2 && t[0].Arc? && t[1] == Stroke
    ensures 2 * t[0].cx == Footprint.x + Footprint.w && 2 * t[0].cy == Footprint.y + Footprint.h
    ensures t == [Arc(50, 50, 15), Stroke]
  {
    [Arc(SwitchCenterX, SwitchCenterY, SwitchRadius), Stroke]
  }

  /** The loop of `_draw_luts` from iteration `i` on, with (x, y) the values
      of the running coordinates before the iteration: each step adds the
      offset first, then draws and strokes a square. */
  function LutLoop(i: nat, x: int, y: int): (t: Trace)
    requires i <= LutCount
    ensures |t| == 2 * (LutCount - i)
    decreases LutCount - i
  {
    if i == LutCount then []
    else
      [Rect(x + LutDx, y + LutDy, LutWidth, LutHeight), Stroke] + LutLoop(i + 1, x + LutDx, y + LutDy)
  }

  /** `_draw_luts`. */
  function DrawLuts(): (t: Trace)
    ensures |t| == 2 * LutCount
  {
    LutLoop(0, LutBaseX, LutBaseY)
  }

  /** `_draw_name`: the label at the fixed offset, then a stroke. */
  function DrawName(name: string): (t: Trace)
    ensures |t| == 3 && t[1] == ShowText(name)
    ensures t[0] == MoveTo(20, 20)
    ensures t[2] == Stroke
  {
    [MoveTo(NameOffsetX, NameOffsetY), ShowText(name), Stroke]
  }

  /** `_draw_clb_pattern`: the label-free glyph of a CLB. */
  function ClbGlyph(): (t: Trace)
    ensures |t| == 12
  {
    DrawBox() + DrawSwitchbox() + DrawLuts()
  }

  /** The label, when the context enables text. */
  function MaybeName(ctx: Context, site: Site): (t: Trace)
    ensures ctx.text <==> |t| > 0
  {
    if ctx.text then DrawName(site.name) else []
  }

  /** `_draw_clb`: the glyph drawn with primitives, then the label. */
  function DrawClb(ctx: Context, site: Site): (t: Trace)
    ensures |t| >= |ClbGlyph()| && t[..|ClbGlyph()|] == ClbGlyph()
    ensures ctx.text <==> |t| > |ClbGlyph()|
  {
    ClbGlyph() + MaybeName(ctx, site)
  }

  /** The result of `draw_clb_pattern`: the commands it issues, the pattern
      `cairo_pop_group` hands back, and the pool after that allocation. */
  datatype Recorded = Recorded(trace: Trace, pattern: PatternId, pool: Pool)

  /** `unsigned width = SITE_WIDTH*zoom`: conversion truncates toward zero,
      which for the non-negative zoom is the floor. */
  function ScaledExtent(extent: int, zoom: Zoom): (n: nat)
    requires extent >= 0
    ensures n as real <= extent as real * zoom < n as real + 1.0
  {
    (extent as real * zoom).Floor
  }

  /** The commands `draw_clb_pattern` issues before the glyph: a saved
      state, clipped to the scaled footprint and zoomed, and an open group
      set up for one-unit white strokes. */
  function PatternPrologue(zoom: Zoom): (t: Trace)
    ensures |t| == 8 && t[0] == Save && t[5] == PushGroup
    ensures t[1] == SetSourceRgb(Black) && t[3] == Clip && t[4] == Scale(zoom)
    ensures t[2] == Rect(0, 0, ScaledExtent(SiteWidth, zoom), ScaledExtent(SiteHeight, zoom))
    ensures t[6] == SetLineWidth(1) && t[7] == SetSourceRgb(White)
  {
    [Save] + PatternClip(zoom) + GroupSetup(zoom)
  }

  /** The black clip to the footprint scaled by the zoom, truncated to whole
      pixels. */
  function PatternClip(zoom: Zoom): Trace {
    var width, height := ScaledExtent(SiteWidth, zoom), ScaledExtent(SiteHeight, zoom);
    [SetSourceRgb(Black), Rect(0, 0, width, height), Clip]
  }

  /** The zoom, then the group the glyph is recorded into, with one-unit
      white strokes. */
  function GroupSetup(zoom: Zoom): Trace {
    [Scale(zoom), PushGroup, SetLineWidth(1), SetSourceRgb(White)]
  }

  /** `draw_clb_pattern`: records the glyph, scaled by the zoom and clipped
      to the scaled footprint, into a group whose pattern it returns. */
  function RecordClbPattern(ctx: Context, pool: Pool): (r: Recorded)
    ensures !pool.Allocated(r.pattern) && r.pool.Allocated(r.pattern)
    ensures r.pool.next == pool.next + 1 && r.pool.released == pool.released
    ensures |r.trace| == 8 + |ClbGlyph()| + 2 && r.trace[..8] == PatternPrologue(ctx.zoom)
    ensures r.trace[8..|r.trace| - 2] == ClbGlyph()
    ensures r.trace[|r.trace| - 2] == PopGroup(r.pattern) && r.trace[|r.trace| - 1] == Restore
  {
    var alloc := Allocate(pool);
    var pattern := alloc.0;
    var trace := PatternPrologue(ctx.zoom) + ClbGlyph() + [PopGroup(pattern), Restore];
    Recorded(trace, pattern, alloc.1)
  }

  /** `_draw_clb_compose`: stamps the cached CLB pattern, then the label.
      The slot must hold a pattern. */
  function DrawClbCompose(ctx: Context, site: Site): (t: Trace)
    requires ctx.singPatterns[Clb].Some?
    ensures |t| >= 4 && t[1] == SetSource(ctx.singPatterns[Clb].value) && t[2] == Paint
  {
    [Save, SetSource(ctx.singPatterns[Clb].value), Paint, Restore] + MaybeName(ctx, site)
  }

  /** The entries a dispatch table can hold (`site_draw_t`). */
  datatype SiteDraw = ClbComposeEntry | ClbVectorEntry

  /** `draw_table_compositing`, one entry per site type: only the CLB entry
      is set, every other entry is null. */
  function DrawTableCompositing(kind: SiteType): (e: Option<SiteDraw>)
    ensures e.Some? <==> kind == Clb
    ensures e.Some? ==> e.value == ClbComposeEntry
  {
    if kind == Clb then Some(ClbComposeEntry) else None
  }

  /** `draw_table_vectorized`: likewise, only the CLB entry is set. */
  function DrawTableVectorized(kind: SiteType): (e: Option<SiteDraw>)
    ensures e.Some? <==> kind == Clb
    ensures e.Some? ==> e.value == ClbVectorEntry
  {
    if kind == Clb then Some(ClbVectorEntry) else None
  }

  /** The cached pattern a composited drawing of this site needs is there. */
  predicate ComposeReady(ctx: Context, site: Site) {
    site.kind == Clb ==> ctx.singPatterns[Clb].Some?
  }

  /** Calls a table entry. */
  function Call(entry: SiteDraw, ctx: Context, site: Site): Trace
    requires entry == ClbComposeEntry ==> ctx.singPatterns[Clb].Some?
  {
    match entry
    case ClbComposeEntry => DrawClbCompose(ctx, site)
    case ClbVectorEntry => DrawClb(ctx, site)
  }

  /** `_draw_site_compose`: calls the compositing entry of the site's type,
      if there is one. */
  function DispatchCompose(ctx: Context, site: Site): (t: Trace)
    requires ComposeReady(ctx, site)
    ensures site.kind != Clb ==> t == []
    ensures site.kind == Clb ==> |t| >= 4 && t[1] == SetSource(ctx.singPatterns[Clb].value) && t[2] == Paint
  {
    match DrawTableCompositing(site.kind)
    case None => []
    case Some(entry) => Call(entry, ctx, site)
  }

  /** `draw_site_compose`: saves, moves to the cell, dispatches, restores. */
  function DrawSiteCompose(ctx: Context, p: Placed): (t: Trace)
    requires ComposeReady(ctx, p.site)
    ensures |t| >= 3 && t[0] == Save && t[|t| - 1] == Restore
    ensures t[1] == Translate(CellOffset(p.x, p.y).0, CellOffset(p.x, p.y).1)
    ensures p.site.kind == Clb ==> t[2..|t| - 1] == DrawClbCompose(ctx, p.site)
    ensures p.site.kind != Clb ==> |t| == 3
  {
    var offset := CellOffset(p.x, p.y);
    [Save, Translate(offset.0, offset.1)] + DispatchCompose(ctx, p.site) + [Restore]
  }

  /** `draw_site_vector`: for a type with a vectorized entry, moves to the
      cell, draws, and moves back; otherwise issues nothing. */
  function DrawSiteVector(ctx: Context, p: Placed): (t: Trace)
    ensures p.site.kind != Clb ==> t == []
    ensures p.site.kind == Clb ==>
      var o := CellOffset(p.x, p.y);
      |t| >= 2 && t[0] == Translate(o.0, o.1) && t[|t| - 1] == Translate(-o.0, -o.1)
      && t[1..|t| - 1] == DrawClb(ctx, p.site)
  {
    match DrawTableVectorized(p.site.kind)
    case None => []
    case Some(entry) =>
      var offset := CellOffset(p.x, p.y);
      [Translate(offset.0, offset.1)] + Call(entry, ctx, p.site) + [Translate(-offset.0, -offset.1)]
  }

  /** The two callbacks handed to the site iteration. */
  datatype Visitor = SiteCompose | SiteVector

  predicate AllComposeReady(ctx: Context, sites: seq<Placed>) {
    forall i :: 0 <= i < |sites| ==> ComposeReady(ctx, sites[i].site)
  }

  function Visit(v: Visitor, ctx: Context, p: Placed): Trace
    requires v == SiteCompose ==> ComposeReady(ctx, p.site)
  {
    match v
    case SiteCompose => DrawSiteCompose(ctx, p)
    case SiteVector => DrawSiteVector(ctx, p)
  }

  /** `iterate_over_sites` with a callback: the callback's commands for each
      visited site, in the order the iteration yields them. */
  function IterateOverSites(ctx: Context, sites: seq<Placed>, v: Visitor): (t: Trace)
    requires v == SiteCompose ==> AllComposeReady(ctx, sites)
    ensures v == SiteVector && (forall i :: 0 <= i < |sites| ==> sites[i].site.kind != Clb) ==> t == []
    ensures v == SiteCompose ==> |t| >= 3 * |sites|
  {
    if |sites| == 0 then []
    else Visit(v, ctx, sites[0]) + IterateOverSites(ctx, sites[1..], v)
  }

  /** `draw_chip_for_window`: under a saved state, zooms, moves the viewport
      offset to the origin, and stamps every site. */
  function DrawChipForWindow(ctx: Context, chip: Chip): (t: Trace)
    requires AllComposeReady(ctx, chip.sites)
    ensures |t| >= 4 && t[0] == Save && t[1] == Scale(ctx.zoom) && t[|t| - 1] == Restore
  {
    WindowFrame(ctx.zoom, ctx.xOffset, ctx.yOffset, IterateOverSites(ctx, chip.sites, SiteCompose))
  }

  /** The frame `draw_chip_for_window` puts around the stamped sites: a
      saved state, the zoom, and the viewport offset moved to the origin. */
  function WindowFrame(zoom: Zoom, xOffset: int, yOffset: int, grid: Trace): (t: Trace)
    ensures |t| == |grid| + 4 && t[0] == Save && t[1] == Scale(zoom) && t[|t| - 1] == Restore
    ensures t[2] == Translate(-xOffset, -yOffset) && t[3..|t| - 1] == grid
  {
    [Save, Scale(zoom), Translate(-xOffset, -yOffset)] + grid + [Restore]
  }

  /** The canvas-wide settings issued before the sites are drawn. */
  const ChipSetup: Trace :=
    [SetSourceRgb(Black), Paint, SetSourceRgb(White), SetLineWidth(1),
     SelectFont(NameFontType), SetFontSize(NameFontSize)]

  /** `_draw_chip_vectorized`: clips to the chip, paints the background, sets
      stroke and font, and draws every site with primitives. */
  function DrawChipVectorized(ctx: Context, chip: Chip): (t: Trace)
    ensures |t| >= 2 + |ChipSetup|
    ensures t[0] == Rect(0, 0, chip.width * SiteWidth, chip.height * SiteHeight) && t[1] == Clip
    ensures t[2..2 + |ChipSetup|] == ChipSetup
    ensures t[2 + |ChipSetup|..] == IterateOverSites(ctx, chip.sites, SiteVector)
  {
    [Rect(0, 0, chip.width * SiteWidth, chip.height * SiteHeight), Clip]
    + ChipSetup
    + IterateOverSites(ctx, chip.sites, SiteVector)
  }

  /** `draw_chip`: paints the background, sets stroke and font, then draws
      the chip for the window. */
  function DrawChip(ctx: Context, chip: Chip): (t: Trace)
    requires AllComposeReady(ctx, chip.sites)
    ensures |t| >= |ChipSetup| && t[..|ChipSetup|] == ChipSetup
    ensures t[|ChipSetup|..] == DrawChipForWindow(ctx, chip)
  {
    ChipSetup + DrawChipForWindow(ctx, chip)
  }

  /** `draw_cairo_chip`: a context as `init_drawing_context` leaves it (that
      routine is not part of this model, so its result is a parameter),
      bound to the given surface, draws the chip vectorized. */
  function DrawCairoChip(init: Context, cr: SurfaceHandle, chip: Chip): (t: Trace)
    ensures |t| >= 2 + |ChipSetup|
    ensures t[0] == Rect(0, 0, chip.width * SiteWidth, chip.height * SiteHeight) && t[1] == Clip
  {
    DrawChipVectorized(SetCairoContext(init, cr), chip)
  }
}
