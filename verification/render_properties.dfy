/** What the site drawing routines promise: glyph geometry, the label
    rule, total dispatch, and, through the canvas interpreter, that every
    routine leaves the transform and the save stack as it found them and
    shows each label at its site's cell. */
module RenderProperties {
  import opened Wrappers
  import opened Geometry
  import opened Canvas
  import opened DrawingContext
  import opened SitesDraw

  // ---------------------------------------------------------------------
  // Glyph geometry

  /** The inset box of `_draw_box`. */
  const InsetBox: Box := Box(SiteMarginX, SiteMarginY, SiteWidth - 2 * SiteMarginX, SiteHeight - 2 * SiteMarginY)

  /** Closed form of the j-th lookup-table square: the offset has been added
      j + 1 times when it is drawn. */
  function LutBox(j: nat): Box {
    Box(LutBaseX + (j + 1) * LutDx, LutBaseY + (j + 1) * LutDy, LutWidth, LutHeight)
  }

  /** The outline of a path command. */
  function Outline(c: Cmd): Box
    requires c.Rect? || c.Arc?
  {
    if c.Rect? then Box(c.x, c.y, c.w, c.h) else Box(c.cx - c.r, c.cy - c.r, 2 * c.r, 2 * c.r)
  }

  function BoxRect(b: Box): Cmd {
    Rect(b.x, b.y, b.w, b.h)
  }

  /** Iteration j of the loop, started at iteration i with coordinates (x, y),
      draws the square offset j - i + 1 times from (x, y), then strokes it. */
  lemma {:induction false} LutLoopPlacement(i: nat, x: int, y: int, j: nat)
    requires i <= j < LutCount
    ensures LutLoop(i, x, y)[2 * (j - i)] == Rect(x + (j - i + 1) * LutDx, y + (j - i + 1) * LutDy, LutWidth, LutHeight)
    ensures LutLoop(i, x, y)[2 * (j - i) + 1] == Stroke
    decreases j - i
  {
    var rest := LutLoop(i + 1, x + LutDx, y + LutDy);
    assert LutLoop(i, x, y) == [Rect(x + LutDx, y + LutDy, LutWidth, LutHeight), Stroke] + rest;
    if j > i {
      LutLoopPlacement(i + 1, x + LutDx, y + LutDy, j);
      assert LutLoop(i, x, y)[2 * (j - i)] == rest[2 * (j - (i + 1))];
      assert LutLoop(i, x, y)[2 * (j - i) + 1] == rest[2 * (j - (i + 1)) + 1];
    }
  }

  /** `_draw_luts` draws exactly four 10 by 10 squares, each followed by a
      stroke, at x = 80 and y = 30, 40, 50, 60. */
  lemma DrawLutsPlacement()
    ensures |DrawLuts()| == 8
    ensures forall j :: 0 <= j < LutCount ==> DrawLuts()[2 * j] == BoxRect(LutBox(j)) && DrawLuts()[2 * j + 1] == Stroke
    ensures DrawLuts() == [Rect(80, 30, 10, 10), Stroke, Rect(80, 40, 10, 10), Stroke,
                           Rect(80, 50, 10, 10), Stroke, Rect(80, 60, 10, 10), Stroke]
  {
    forall j | 0 <= j < LutCount
      ensures DrawLuts()[2 * j] == BoxRect(LutBox(j)) && DrawLuts()[2 * j + 1] == Stroke
    {
      LutLoopPlacement(0, LutBaseX, LutBaseY, j);
    }
    assert DrawLuts()[0] == BoxRect(LutBox(0));
    assert DrawLuts()[2] == BoxRect(LutBox(1));
    assert DrawLuts()[4] == BoxRect(LutBox(2));
    assert DrawLuts()[6] == BoxRect(LutBox(3));
  }

  /** The whole CLB glyph, command by command. */
  lemma ClbGlyphCommands()
    ensures ClbGlyph() == [Rect(10, 10, 80, 80), Stroke, Arc(50, 50, 15), Stroke,
                           Rect(80, 30, 10, 10), Stroke, Rect(80, 40, 10, 10), Stroke,
                           Rect(80, 50, 10, 10), Stroke, Rect(80, 60, 10, 10), Stroke]
  {
    var luts := DrawLuts();
    DrawLutsPlacement();
    var head: Trace := [Rect(10, 10, 80, 80), Stroke, Arc(50, 50, 15), Stroke];
    assert ClbGlyph() == head + luts;
    assert forall i :: 0 <= i < 4 ==> (head + luts)[i] == head[i];
    assert forall i :: 4 <= i < 12 ==> (head + luts)[i] == luts[i - 4];
  }

  /** The glyph only draws: it neither saves, restores nor transforms, and
      shows no text. */
  lemma ClbGlyphFlat()
    ensures FlatTrace(ClbGlyph()) && NoText(ClbGlyph())
  {
    ClbGlyphCommands();
  }

  /** Every shape of the glyph lies inside the inset box, which lies inside
      the footprint, and each shape is stroked right after it is drawn; the
      four squares do not overlap. */
  lemma ClbGlyphGeometry()
    ensures Footprint.Contains(InsetBox)
    ensures forall i :: 0 <= i < |ClbGlyph()| && (ClbGlyph()[i].Rect? || ClbGlyph()[i].Arc?) ==>
      InsetBox.Contains(Outline(ClbGlyph()[i])) && i + 1 < |ClbGlyph()| && ClbGlyph()[i + 1] == Stroke
    ensures forall j, k :: 0 <= j < k < LutCount ==> LutBox(j).InteriorDisjoint(LutBox(k))
  {
    ClbGlyphCommands();
  }

  /** The switch glyph is the circle of radius 15 about the footprint's centre. */
  lemma SwitchCentred()
    ensures DrawSwitchbox()[0] == Arc(Footprint.w / 2, Footprint.h / 2, SwitchRadius)
    ensures Outline(DrawSwitchbox()[0]) == Box(35, 35, 30, 30)
  {
  }

  // ---------------------------------------------------------------------
  // The label rule

  predicate HasText(t: Trace) {
    exists i :: 0 <= i < |t| && t[i].ShowText?
  }

  /** `_draw_clb` draws the same glyph whatever the text setting, and appends
      the label, and only the label, exactly when text is enabled. */
  lemma ClbLabelRule(ctx: Context, site: Site)
    ensures DrawClb(ctx, site) == DrawClb(ctx.(text := false), site) + (if ctx.text then DrawName(site.name) else [])
    ensures DrawClb(ctx.(text := false), site) == ClbGlyph()
    ensures HasText(DrawClb(ctx, site)) <==> ctx.text
  {
    ClbGlyphCommands();
    var t := DrawClb(ctx, site);
    if ctx.text {
      assert t[|ClbGlyph()| + 1] == ShowText(site.name);
    } else {
      assert t == ClbGlyph();
    }
  }

  /** `_draw_clb_compose` likewise: the stamp is the same whatever the text
      setting, and the label follows exactly when text is enabled. */
  lemma ClbComposeLabelRule(ctx: Context, site: Site)
    requires ctx.singPatterns[Clb].Some?
    ensures DrawClbCompose(ctx, site) == DrawClbCompose(ctx.(text := false), site) + (if ctx.text then DrawName(site.name) else [])
    ensures DrawClbCompose(ctx.(text := false), site) == [Save, SetSource(ctx.singPatterns[Clb].value), Paint, Restore]
    ensures HasText(DrawClbCompose(ctx, site)) <==> ctx.text
  {
    var t := DrawClbCompose(ctx, site);
    if ctx.text {
      assert t[5] == ShowText(site.name);
    }
  }

  // ---------------------------------------------------------------------
  // Dispatch

  /** Both tables have an entry for CLB only; every other type draws
      nothing, except that compositing still saves, moves and restores. */
  lemma DispatchTotal(ctx: Context, p: Placed)
    ensures DrawTableCompositing(p.site.kind).Some? <==> p.site.kind == Clb
    ensures DrawTableVectorized(p.site.kind).Some? <==> p.site.kind == Clb
    ensures p.site.kind != Clb ==> DispatchCompose(ctx, p.site) == []
    ensures p.site.kind != Clb ==>
      DrawSiteCompose(ctx, p) == [Save, Translate(CellOffset(p.x, p.y).0, CellOffset(p.x, p.y).1), Restore]
    ensures DrawSiteVector(ctx, p) == [] <==> p.site.kind != Clb
    ensures p.site.kind == Clb && ComposeReady(ctx, p.site) ==>
      DispatchCompose(ctx, p.site) == DrawClbCompose(ctx, p.site)
    ensures p.site.kind == Clb ==>
      var o := CellOffset(p.x, p.y);
      DrawSiteVector(ctx, p) == [Translate(o.0, o.1)] + DrawClb(ctx, p.site) + [Translate(-o.0, -o.1)]
  {
  }

  // ---------------------------------------------------------------------
  // Running the traces

  /** The label of `_draw_name`, shown at the name offset. */
  lemma DrawNameRun(s: Surface, name: string)
    ensures Run(s, DrawName(name)) == Some(s.(point := None, labels := s.labels + [Label(name, s.ctm.Apply(NameOffsetX, NameOffsetY))]))
  {
    var t := DrawName(name);
    var s1 := s.(point := Some(s.ctm.Apply(NameOffsetX, NameOffsetY)));
    assert t[1..] == [ShowText(name), Stroke];
    TextRun(s1, name);
  }

  /** The labels a site contributes when its cell sits under transform m. */
  function SiteLabel(m: Matrix, ctx: Context, p: Placed): seq<Label> {
    if ctx.text && p.site.kind == Clb then
      [Label(p.site.name, m.Apply(CellOffset(p.x, p.y).0 + NameOffsetX, CellOffset(p.x, p.y).1 + NameOffsetY))]
    else []
  }

  /** Reference definition: the labels of a whole iteration, one per CLB
      site when text is on, each at its cell's name offset. */
  function GridLabels(m: Matrix, ctx: Context, sites: seq<Placed>): seq<Label> {
    if |sites| == 0 then [] else SiteLabel(m, ctx, sites[0]) + GridLabels(m, ctx, sites[1..])
  }

  lemma MaybeNameRun(s: Surface, ctx: Context, site: Site)
    ensures ShowsOnly(s, MaybeName(ctx, site), if ctx.text then [Label(site.name, s.ctm.Apply(NameOffsetX, NameOffsetY))] else [])
  {
    if ctx.text {
      DrawNameRun(s, site.name);
    }
  }

  /** Either table entry for CLB, drawn with primitives or stamped, leaves
      transform and stack alone and shows the label at the name offset
      exactly when text is on. */
  lemma CallRun(s: Surface, entry: SiteDraw, ctx: Context, site: Site)
    requires entry == ClbComposeEntry ==> ctx.singPatterns[Clb].Some?
    ensures ShowsOnly(s, Call(entry, ctx, site), if ctx.text then [Label(site.name, s.ctm.Apply(NameOffsetX, NameOffsetY))] else [])
  {
    match entry
    case ClbVectorEntry =>
      ClbGlyphFlat();
      FlatRun(s, ClbGlyph());
      var s1 := Run(s, ClbGlyph()).value;
      RunAppend(s, ClbGlyph(), MaybeName(ctx, site));
      MaybeNameRun(s1, ctx, site);
    case ClbComposeEntry =>
      var stamp: Trace := [Save, SetSource(ctx.singPatterns[Clb].value), Paint, Restore];
      var s1 := s.(stack := s.stack + [Saved(s.ctm)]);
      assert stamp == [Save] + [stamp[1]] + [Paint] + [Restore];
      RunAppend(s, [Save] + [stamp[1]] + [Paint], [Restore]);
      RunAppend(s, [Save] + [stamp[1]], [Paint]);
      RunAppend(s, [Save], [stamp[1]]);
      RunSingle(s, Save);
      RunSingle(s1, stamp[1]);
      RunSingle(s1, Paint);
      RunSingle(s1, Restore);
      assert s1.stack[..|s1.stack| - 1] == s.stack;
      assert Run(s, stamp) == Some(s);
      RunAppend(s, stamp, MaybeName(ctx, site));
      MaybeNameRun(s, ctx, site);
  }

  /** `draw_site_vector` leaves transform and save stack as they were (the
      move to the cell is undone) and shows the site's label in its cell. */
  lemma SiteVectorRun(s: Surface, ctx: Context, p: Placed)
    ensures ShowsOnly(s, DrawSiteVector(ctx, p), SiteLabel(s.ctm, ctx, p))
  {
    match DrawTableVectorized(p.site.kind)
    case None =>
    case Some(entry) =>
      var o := CellOffset(p.x, p.y);
      var body := Call(entry, ctx, p.site);
      var s1 := s.(ctm := s.ctm.Translated(o.0, o.1));
      RunAppend(s, [Translate(o.0, o.1)] + body, [Translate(-o.0, -o.1)]);
      RunAppend(s, [Translate(o.0, o.1)], body);
      RunSingle(s, Translate(o.0, o.1));
      CallRun(s1, entry, ctx, p.site);
      var s2 := Run(s1, body).value;
      RunSingle(s2, Translate(-o.0, -o.1));
      TranslateBack(s.ctm, o.0, o.1);
      TranslatedApply(s.ctm, o.0, o.1, NameOffsetX, NameOffsetY);
  }

  /** A body drawn between a save with a move and the matching restore
      shows what it shows inside, and the restore undoes the move. */
  lemma CellFrameRun(s: Surface, dx: int, dy: int, body: Trace, labels: seq<Label>)
    requires ShowsOnly(s.(stack := s.stack + [Saved(s.ctm)], ctm := s.ctm.Translated(dx, dy)), body, labels)
    ensures ShowsOnly(s, [Save, Translate(dx, dy)] + body + [Restore], labels)
  {
    var opening: Trace := [Save, Translate(dx, dy)];
    var s1 := s.(stack := s.stack + [Saved(s.ctm)]);
    var s2 := s1.(ctm := s.ctm.Translated(dx, dy));
    assert opening[1..] == [Translate(dx, dy)];
    TranslateRun(s1, dx, dy);
    assert Run(s, opening) == Some(s2);
    RunAppend(s, opening + body, [Restore]);
    RunAppend(s, opening, body);
    var s3 := Run(s2, body).value;
    RunSingle(s3, Restore);
    assert s3.stack[..|s3.stack| - 1] == s.stack;
  }

  /** `draw_site_compose` is save/restore balanced, for a type with no entry
      as well, and shows the site's label in its cell. */
  lemma SiteComposeRun(s: Surface, ctx: Context, p: Placed)
    requires ComposeReady(ctx, p.site)
    ensures ShowsOnly(s, DrawSiteCompose(ctx, p), SiteLabel(s.ctm, ctx, p))
  {
    var o := CellOffset(p.x, p.y);
    var s2 := s.(stack := s.stack + [Saved(s.ctm)], ctm := s.ctm.Translated(o.0, o.1));
    match DrawTableCompositing(p.site.kind)
    case None =>
      assert Run(s2, []) == Some(s2);
      CellFrameRun(s, o.0, o.1, [], []);
    case Some(entry) =>
      CallRun(s2, entry, ctx, p.site);
      TranslatedApply(s.ctm, o.0, o.1, NameOffsetX, NameOffsetY);
      CellFrameRun(s, o.0, o.1, DispatchCompose(ctx, p.site), SiteLabel(s.ctm, ctx, p));
  }

  /** Either callback, on one site, shows that site's label in its cell. */
  lemma VisitRun(s: Surface, v: Visitor, ctx: Context, p: Placed)
    requires v == SiteCompose ==> ComposeReady(ctx, p.site)
    ensures ShowsOnly(s, Visit(v, ctx, p), SiteLabel(s.ctm, ctx, p))
  {
    if v == SiteCompose {
      SiteComposeRun(s, ctx, p);
    } else {
      SiteVectorRun(s, ctx, p);
    }
  }

  /** The whole iteration, with either callback, leaves transform and save
      stack alone and shows exactly the labels of `GridLabels`, in
      iteration order; both modes show the same labels. */
  lemma {:induction false} IterateRun(s: Surface, ctx: Context, sites: seq<Placed>, v: Visitor)
    requires v == SiteCompose ==> AllComposeReady(ctx, sites)
    ensures ShowsOnly(s, IterateOverSites(ctx, sites, v), GridLabels(s.ctm, ctx, sites))
    decreases |sites|
  {
    if |sites| > 0 {
      var head := Visit(v, ctx, sites[0]);
      var tail := IterateOverSites(ctx, sites[1..], v);
      assert v == SiteCompose ==> AllComposeReady(ctx, sites[1..]) by {
        if v == SiteCompose {
          forall i | 0 <= i < |sites[1..]| ensures ComposeReady(ctx, sites[1..][i].site) {
            assert sites[1..][i] == sites[i + 1];
          }
        }
      }
      VisitRun(s, v, ctx, sites[0]);
      var s1 := Run(s, head).value;
      IterateRun(s1, ctx, sites[1..], v);
      ShowsOnlyAppend(s, head, tail, SiteLabel(s.ctm, ctx, sites[0]), GridLabels(s.ctm, ctx, sites[1..]));
    }
  }

  /** The iteration over a concatenation of site lists issues the commands
      for the first list, then those for the second. */
  lemma {:induction false} IterateAppend(ctx: Context, a: seq<Placed>, b: seq<Placed>, v: Visitor)
    requires v == SiteCompose ==> AllComposeReady(ctx, a + b)
    ensures v == SiteCompose ==> AllComposeReady(ctx, a) && AllComposeReady(ctx, b)
    ensures IterateOverSites(ctx, a + b, v) == IterateOverSites(ctx, a, v) + IterateOverSites(ctx, b, v)
    decreases |a|
  {
    if v == SiteCompose {
      forall i | 0 <= i < |a| ensures ComposeReady(ctx, a[i].site) {
        assert a[i] == (a + b)[i];
      }
      forall i | 0 <= i < |b| ensures ComposeReady(ctx, b[i].site) {
        assert b[i] == (a + b)[|a| + i];
      }
    }
    if |a| > 0 {
      assert (a + b)[0] == a[0];
      assert (a + b)[1..] == a[1..] + b;
      IterateAppend(ctx, a[1..], b, v);
    } else {
      assert a + b == b;
    }
  }

  /** One visited site gets exactly its callback's commands: the stamp
      frame of `draw_site_compose` in the window drawing, the glyph of
      `draw_site_vector` in the vectorized one. */
  lemma IterateSingle(ctx: Context, p: Placed)
    ensures IterateOverSites(ctx, [p], SiteVector) == DrawSiteVector(ctx, p)
    ensures ComposeReady(ctx, p.site) ==> IterateOverSites(ctx, [p], SiteCompose) == DrawSiteCompose(ctx, p)
  {
    assert [p][1..] == [];
  }

  /** The transform under which `draw_chip_for_window` stamps the sites. */
  function WindowMatrix(m: Matrix, ctx: Context): Matrix {
    m.Scaled(ctx.zoom).Translated(-ctx.xOffset, -ctx.yOffset)
  }

  /** The frame's three opening commands save the state, zoom, and move the
      origin. */
  lemma WindowPrologueRun(s: Surface, zoom: Zoom, dx: int, dy: int)
    ensures Run(s, [Save, Scale(zoom), Translate(dx, dy)])
         == Some(s.(stack := s.stack + [Saved(s.ctm)], ctm := s.ctm.Scaled(zoom).Translated(dx, dy)))
  {
    var t: Trace := [Save, Scale(zoom), Translate(dx, dy)];
    var s1 := s.(stack := s.stack + [Saved(s.ctm)]);
    var s2 := s1.(ctm := s.ctm.Scaled(zoom));
    assert t[1..] == [Scale(zoom), Translate(dx, dy)];
    assert t[1..][1..] == [Translate(dx, dy)];
    TranslateRun(s2, dx, dy);
  }

  /** A grid drawn inside the window frame shows what it shows inside, and
      the frame's closing restore undoes its opening. */
  lemma WindowFrameRun(s: Surface, zoom: Zoom, xOffset: int, yOffset: int, grid: Trace, labels: seq<Label>)
    requires ShowsOnly(s.(stack := s.stack + [Saved(s.ctm)], ctm := s.ctm.Scaled(zoom).Translated(-xOffset, -yOffset)), grid, labels)
    ensures ShowsOnly(s, WindowFrame(zoom, xOffset, yOffset, grid), labels)
  {
    var opening: Trace := [Save, Scale(zoom), Translate(-xOffset, -yOffset)];
    var s3 := s.(stack := s.stack + [Saved(s.ctm)], ctm := s.ctm.Scaled(zoom).Translated(-xOffset, -yOffset));
    WindowPrologueRun(s, zoom, -xOffset, -yOffset);
    RunAppend(s, opening + grid, [Restore]);
    RunAppend(s, opening, grid);
    var s4 := Run(s3, grid).value;
    RunSingle(s4, Restore);
    assert s4.stack[..|s4.stack| - 1] == s.stack;
  }

  /** `draw_chip_for_window` is save/restore balanced and shows each label
      in its cell, zoomed and shifted by the viewport offset. */
  lemma ChipForWindowRun(s: Surface, ctx: Context, chip: Chip)
    requires AllComposeReady(ctx, chip.sites)
    ensures ShowsOnly(s, DrawChipForWindow(ctx, chip), GridLabels(WindowMatrix(s.ctm, ctx), ctx, chip.sites))
  {
    var s3 := s.(stack := s.stack + [Saved(s.ctm)], ctm := WindowMatrix(s.ctm, ctx));
    IterateRun(s3, ctx, chip.sites, SiteCompose);
    WindowFrameRun(s, ctx.zoom, ctx.xOffset, ctx.yOffset, IterateOverSites(ctx, chip.sites, SiteCompose),
                   GridLabels(WindowMatrix(s.ctm, ctx), ctx, chip.sites));
  }

  /** `draw_chip` adds only flat, label-free settings before the window
      drawing, so it is balanced too. */
  lemma DrawChipRun(s: Surface, ctx: Context, chip: Chip)
    requires AllComposeReady(ctx, chip.sites)
    ensures ShowsOnly(s, DrawChip(ctx, chip), GridLabels(WindowMatrix(s.ctm, ctx), ctx, chip.sites))
  {
    assert FlatTrace(ChipSetup) && NoText(ChipSetup);
    FlatRun(s, ChipSetup);
    var s1 := Run(s, ChipSetup).value;
    RunAppend(s, ChipSetup, DrawChipForWindow(ctx, chip));
    ChipForWindowRun(s1, ctx, chip);
  }

  /** `_draw_chip_vectorized` leaves transform and save stack alone and shows
      each label in its cell. */
  lemma ChipVectorizedRun(s: Surface, ctx: Context, chip: Chip)
    ensures ShowsOnly(s, DrawChipVectorized(ctx, chip), GridLabels(s.ctm, ctx, chip.sites))
  {
    var setup := [Rect(0, 0, chip.width * SiteWidth, chip.height * SiteHeight), Clip] + ChipSetup;
    assert FlatTrace(setup) && NoText(setup);
    FlatRun(s, setup);
    var s1 := Run(s, setup).value;
    RunAppend(s, setup, IterateOverSites(ctx, chip.sites, SiteVector));
    IterateRun(s1, ctx, chip.sites, SiteVector);
  }

  /** The labels depend on the text flag only, not on the surface bound. */
  lemma {:induction false} GridLabelsIgnoreSurface(m: Matrix, ctx: Context, cr: SurfaceHandle, sites: seq<Placed>)
    ensures GridLabels(m, SetCairoContext(ctx, cr), sites) == GridLabels(m, ctx, sites)
    decreases |sites|
  {
    if |sites| > 0 {
      GridLabelsIgnoreSurface(m, ctx, cr, sites[1..]);
    }
  }

  /** `draw_cairo_chip` on any surface leaves transformation and stack alone
      and shows the labels the initial context's text setting calls for,
      each in its cell; the surface handle does not change what is drawn. */
  lemma CairoChipRun(s: Surface, init: Context, cr: SurfaceHandle, chip: Chip)
    ensures ShowsOnly(s, DrawCairoChip(init, cr, chip), GridLabels(s.ctm, init, chip.sites))
    ensures DrawCairoChip(init, cr, chip) == DrawChipVectorized(init, chip)
  {
    ChipVectorizedRun(s, SetCairoContext(init, cr), chip);
    GridLabelsIgnoreSurface(s.ctm, init, cr, chip.sites);
    SurfaceIgnored(init, cr, chip.sites);
  }

  /** The site commands do not mention the bound surface. */
  lemma {:induction false} SurfaceIgnored(ctx: Context, cr: SurfaceHandle, sites: seq<Placed>)
    ensures IterateOverSites(SetCairoContext(ctx, cr), sites, SiteVector) == IterateOverSites(ctx, sites, SiteVector)
    decreases |sites|
  {
    if |sites| > 0 {
      SurfaceIgnored(ctx, cr, sites[1..]);
    }
  }

  /** At zoom 1 with no viewport offset, the composited drawing and the
      vectorized drawing show the same labels at the same places. */
  lemma ModesShowSameLabels(s: Surface, ctx: Context, chip: Chip)
    requires AllComposeReady(ctx, chip.sites)
    requires ctx.zoom == 1.0 && ctx.xOffset == 0 && ctx.yOffset == 0
    ensures Run(s, DrawChip(ctx, chip)).Some? && Run(s, DrawChipVectorized(ctx, chip)).Some?
    ensures Run(s, DrawChip(ctx, chip)).value.labels == Run(s, DrawChipVectorized(ctx, chip)).value.labels
  {
    assert WindowMatrix(s.ctm, ctx) == s.ctm;
    DrawChipRun(s, ctx, chip);
    ChipVectorizedRun(s, ctx, chip);
  }

  /** Two CLB sites named "A" and "B" side by side, text on, drawn
      vectorized onto a fresh surface: exactly two labels, "A" and "B",
      one site width apart. */
  lemma TwoSiteScenario(ctx: Context, chip: Chip)
    requires ctx.text
    requires chip == Chip(2, 1, [Placed(0, 0, Site(Clb, "A")), Placed(1, 0, Site(Clb, "B"))])
    ensures Run(Blank, DrawChipVectorized(ctx, chip)).Some?
    ensures Run(Blank, DrawChipVectorized(ctx, chip)).value.labels == [Label("A", Point(20.0, 20.0)), Label("B", Point(120.0, 20.0))]
  {
    ChipVectorizedRun(Blank, ctx, chip);
    var sites := chip.sites;
    assert sites[1..][1..] == [];
    assert GridLabels(Identity, ctx, sites[1..][1..]) == [];
    assert GridLabels(Identity, ctx, sites[1..]) == [Label("B", Identity.Apply(120, 20))];
    assert GridLabels(Identity, ctx, sites) == [Label("A", Identity.Apply(20, 20)), Label("B", Identity.Apply(120, 20))];
  }

  // ---------------------------------------------------------------------
  // Patterns

  /** The save and the clip of `draw_clb_pattern`: one saved state, and the
      clip consumes the rectangle's path. */
  lemma PatternClipRun(s: Surface, z: Zoom)
    ensures Run(s, [Save] + PatternClip(z)) == Some(s.(stack := s.stack + [Saved(s.ctm)], point := None))
  {
    var t := [Save] + PatternClip(z);
    var s1 := s.(stack := s.stack + [Saved(s.ctm)]);
    var rect := t[2];
    var s2 := s1.(point := Some(s.ctm.Apply(0, 0)));
    assert t[1..] == [SetSourceRgb(Black), rect, Clip];
    assert t[1..][1..] == [rect, Clip];
    assert t[1..][1..][1..] == [Clip];
    RunSingle(s2, Clip);
    var s3 := s1.(point := None);
    assert Run(s1, t[1..][1..]) == Some(s3);
    assert Run(s1, t[1..]) == Some(s3);
  }

  /** The zoom and the group of `draw_clb_pattern`: the group opens under the
      zoomed transform. */
  lemma GroupSetupRun(s: Surface, z: Zoom)
    ensures Run(s, GroupSetup(z)) == Some(s.(ctm := s.ctm.Scaled(z), stack := s.stack + [Group(s.ctm.Scaled(z))]))
  {
    var t := GroupSetup(z);
    var s1 := s.(ctm := s.ctm.Scaled(z));
    var s2 := s1.(stack := s.stack + [Group(s1.ctm)]);
    assert t[1..] == [PushGroup, SetLineWidth(1), SetSourceRgb(White)];
    assert t[1..][1..] == [SetLineWidth(1), SetSourceRgb(White)];
    assert t[1..][1..][1..] == [SetSourceRgb(White)];
    RunSingle(s2, SetSourceRgb(White));
    assert Run(s2, t[1..][1..]) == Some(s2);
    assert Run(s1, t[1..]) == Some(s2);
  }

  /** The prologue of `draw_clb_pattern`: a saved state, then the zoom, then
      an open group, with no label shown. */
  lemma RecordPrologueRun(s: Surface, z: Zoom)
    ensures Run(s, PatternPrologue(z)).Some?
    ensures Run(s, PatternPrologue(z)).value.ctm == s.ctm.Scaled(z)
    ensures Run(s, PatternPrologue(z)).value.stack == s.stack + [Saved(s.ctm), Group(s.ctm.Scaled(z))]
    ensures Run(s, PatternPrologue(z)).value.labels == s.labels
  {
    var s1 := s.(stack := s.stack + [Saved(s.ctm)], point := None);
    PatternClipRun(s, z);
    GroupSetupRun(s1, z);
    RunThen(s, [Save] + PatternClip(z), GroupSetup(z), s1);
  }

  /** The epilogue of `draw_clb_pattern`: popping the group and restoring
      undo the prologue. */
  lemma RecordEpilogueRun(s: Surface, inner: Matrix, m: Matrix, stack: seq<Frame>, pattern: PatternId)
    requires s.stack == stack + [Saved(m), Group(inner)]
    ensures Run(s, [PopGroup(pattern), Restore]) == Some(s.(ctm := m, stack := stack))
  {
    var s1 := s.(ctm := inner, stack := stack + [Saved(m)]);
    assert [PopGroup(pattern), Restore] == [PopGroup(pattern)] + [Restore];
    RunAppend(s, [PopGroup(pattern)], [Restore]);
    RunSingle(s, PopGroup(pattern));
    assert (stack + [Saved(m), Group(inner)])[..|stack| + 1] == stack + [Saved(m)];
    RunSingle(s1, Restore);
    assert (stack + [Saved(m)])[..|stack|] == stack;
  }

  /** `draw_clb_pattern` is save/restore and push/pop-group balanced and
      shows no label. */
  lemma RecordClbPatternRun(s: Surface, ctx: Context, pool: Pool)
    ensures ShowsOnly(s, RecordClbPattern(ctx, pool).trace, [])
  {
    var r := RecordClbPattern(ctx, pool);
    var pre := PatternPrologue(ctx.zoom);
    var post: Trace := [PopGroup(r.pattern), Restore];
    assert r.trace == pre + ClbGlyph() + post;
    RecordPrologueRun(s, ctx.zoom);
    var s1 := Run(s, pre).value;
    ClbGlyphFlat();
    FlatRun(s1, ClbGlyph());
    var s2 := Run(s1, ClbGlyph()).value;
    RunAppend(s, pre, ClbGlyph());
    RecordEpilogueRun(s2, s.ctm.Scaled(ctx.zoom), s.ctm, s.stack, r.pattern);
    RunAppend(s, pre + ClbGlyph(), post);
  }

  /** The group `draw_clb_pattern` records holds exactly the glyph that the
      vectorized mode draws without its label, so both modes draw the same
      shapes. */
  lemma RecordedGlyphMatchesVector(ctx: Context, pool: Pool, site: Site)
    ensures RecordClbPattern(ctx, pool).trace[5] == PushGroup
    ensures RecordClbPattern(ctx, pool).trace[8..|RecordClbPattern(ctx, pool).trace| - 2] == DrawClb(ctx.(text := false), site)
  {
    ClbLabelRule(ctx, site);
    var t := RecordClbPattern(ctx, pool).trace;
    assert t[8..|t| - 2] == ClbGlyph();
  }

  /** The composited drawing does not look at the zoom: a pattern recorded
      at another zoom is stamped as it is, and a zoom change alters only the
      scale `draw_chip_for_window` applies. */
  lemma {:induction false} ComposeIgnoresZoom(ctx: Context, z: Zoom, sites: seq<Placed>)
    requires AllComposeReady(ctx, sites)
    ensures IterateOverSites(ctx.(zoom := z), sites, SiteCompose) == IterateOverSites(ctx, sites, SiteCompose)
    decreases |sites|
  {
    if |sites| > 0 {
      assert AllComposeReady(ctx, sites[1..]) by {
        forall i | 0 <= i < |sites[1..]| ensures ComposeReady(ctx, sites[1..][i].site) {
          assert sites[1..][i] == sites[i + 1];
        }
      }
      ComposeIgnoresZoom(ctx, z, sites[1..]);
    }
  }

  lemma ReadyIgnoresZoom(ctx: Context, z: Zoom, sites: seq<Placed>)
    requires AllComposeReady(ctx, sites)
    ensures AllComposeReady(ctx.(zoom := z), sites)
  {
    forall i | 0 <= i < |sites| ensures ComposeReady(ctx.(zoom := z), sites[i].site) {
      assert ComposeReady(ctx, sites[i].site);
    }
  }

  lemma WindowZoomOnlyScales(ctx: Context, z: Zoom, chip: Chip)
    requires AllComposeReady(ctx, chip.sites)
    ensures AllComposeReady(ctx.(zoom := z), chip.sites)
    ensures DrawChipForWindow(ctx.(zoom := z), chip)
         == WindowFrame(z, ctx.xOffset, ctx.yOffset, IterateOverSites(ctx, chip.sites, SiteCompose))
  {
    ReadyIgnoresZoom(ctx, z, chip.sites);
    ComposeIgnoresZoom(ctx, z, chip.sites);
  }

}
