# debit site rendering, modelled in Dafny

This project models the site-rendering module of debit, an FPGA bitstream
analyser. The module draws a chip layout as a grid of 100 by 100 site
cells. A CLB site is drawn as:

- an inset box;
- a switch circle;
- four lookup-table squares;
- optionally, the site's name.

A chip is drawn in one of two modes:

- **composited**: a CLB glyph is recorded once into a cached Cairo pattern
  at the current zoom, and that pattern is stamped into each cell;
- **vectorized**: each glyph is drawn with primitives, as used for PDF
  output.

The cached patterns live in a drawing context, which owns them and has to
release them.

Cairo is reduced to a trace of commands (`Canvas.Cmd`). Each drawing
routine is a pure function that returns the commands it issues. A small
interpreter (`Canvas.Run`) tracks an abstract surface:

- the current transformation: a uniform scale and a translation, with
  exact reals;
- the stack of saved states, for `cairo_save` and `cairo_push_group`;
- the current point;
- the labels shown so far.

A restore with no matching save, or a pop with no matching group, puts
the surface in an error state (`None`). Pattern handles come from a pool
that counts every release in a multiset, so a leak or a double release
can be seen.

Modules:

- `Wrappers`: `Option`.
- `Geometry`: the constants of `bitdraw.h` and `sites_draw.c`, and cell
  placement.
- `Canvas`: the command trace, the interpreter, general facts about
  running traces (`ShowsOnly`, `RunAppend`, `FlatRun`), and the pattern pool.
- `DrawingContext`: `drawing_context_t`, sites, chips and
  `set_cairo_context`.
- `SitesDraw`: every drawing routine of `sites_draw.c`.
- `RenderProperties`: glyph geometry, the label rule, dispatch, and
  balance and label placement through the interpreter.
- `PatternCache`: `generate_patterns`, `destroy_patterns`,
  `drawing_context_destroy` and the ownership invariant.

## Model

| member | source | states |
|---|---|---|
| Geometry.CellOffsetInjective | sites_draw.c:181 | Grid cell (x, y) is placed at (100x, 100y). Distinct cells get distinct offsets, and dividing the offset by the site size gives the cell back. |
| Geometry.CellsTile | bitdraw.h:40-42 | All sites share one footprint, so a cell's footprint ends exactly where its right and lower neighbours' footprints begin. |
| DrawingContext.SetCairoContext | bitdraw.h:64-67 | `set_cairo_context` sets the surface. The text flag, all three pattern arrays, `pip_patterns`, both offsets and the zoom stay unchanged. |
| DrawingContext.SetCairoContextOverwrites | bitdraw.h:64-67 | Binding twice keeps only the last surface. Binding the surface the context already has changes nothing. |
| SitesDraw.DrawBox | sites_draw.c:47-51 | `_draw_box` draws one rectangle inset by the 10-unit margin on every side of the 100 by 100 footprint, `Rect(10,10,80,80)`, then a stroke. |
| SitesDraw.DrawSwitchbox | sites_draw.c:55-59 | `_draw_switchbox` draws one full circle whose centre is the centre of the footprint, then a stroke. |
| SitesDraw.LutLoop | sites_draw.c:64-70 | The loop of `_draw_luts` from iteration i on issues one rectangle and one stroke per remaining iteration. Where each square lands is stated by `RenderProperties.LutLoopPlacement`. |
| SitesDraw.DrawLuts | sites_draw.c:61-71 | `_draw_luts` issues four rectangle-and-stroke pairs. Their positions and sizes are stated by `RenderProperties.DrawLutsPlacement`. |
| SitesDraw.DrawName | sites_draw.c:74-82 | `_draw_name` moves to (20, 20), shows the site name, and strokes. |
| SitesDraw.MaybeName | sites_draw.c:98-100 | The label commands are non-empty exactly when the context's text flag is set. |
| SitesDraw.ScaledExtent | sites_draw.c:108 | The scaled site extent is the product truncated to a whole number: at most the product, and greater than the product minus one. |
| SitesDraw.PatternPrologue | sites_draw.c:107-124 | `draw_clb_pattern` saves and sets black. It then clips to the rectangle from (0, 0) whose sides are `100 * zoom` truncated to whole pixels, and zooms. Only then does it open its group, followed by the one-unit line width and the white source. |
| SitesDraw.RecordClbPattern | sites_draw.c:103-132 | The recording is the prologue at the context's zoom, then the CLB glyph, then `cairo_pop_group` and the restore. The pattern returned is the one `cairo_pop_group` hands back. It is freshly allocated, and nothing is released. |
| SitesDraw.ClbGlyph | sites_draw.c:84-89 | `_draw_clb_pattern` issues twelve commands. `RenderProperties.ClbGlyphCommands` pins each of them, and `ClbGlyphGeometry` places them inside the footprint. |
| SitesDraw.DrawClb | sites_draw.c:91-101 | `_draw_clb` always begins with the whole label-free glyph and adds commands after it exactly when text is on. `RenderProperties.ClbLabelRule` states that what it adds is the label. |
| SitesDraw.DrawClbCompose | sites_draw.c:134-156 | `_draw_clb_compose` sets the cached CLB pattern as the source and paints it. |
| SitesDraw.DrawTableCompositing | sites_draw.c:162-165 | The compositing table has an entry exactly for CLB, and that entry is `_draw_clb_compose`. |
| SitesDraw.DrawTableVectorized | sites_draw.c:188-191 | The vectorized table has an entry exactly for CLB, and that entry is `_draw_clb`. |
| SitesDraw.DispatchCompose | sites_draw.c:167-174 | `_draw_site_compose` issues nothing for a type without an entry. For a CLB site it stamps the cached CLB pattern. `RenderProperties.DispatchTotal` equates it with `_draw_clb_compose`. |
| SitesDraw.DrawSiteCompose | sites_draw.c:165-186 | For every site type, `draw_site_compose` starts with a save, translates to the cell's offset (100x, 100y) and ends with a restore. For a CLB site, what lies between is the CLB compositing entry. For any other type nothing lies between. |
| SitesDraw.DrawSiteVector | sites_draw.c:193-206 | For a CLB site, `draw_site_vector` translates to the cell's offset, draws the CLB vectorized entry (glyph and optional label), and translates back by the negated offset. For any other type it issues nothing. |
| SitesDraw.WindowFrame | sites_draw.c:236-243 | The window frame opens with a save, the zoom and the move by the negated viewport offset. It then holds the site commands unchanged and ends with a restore. |
| SitesDraw.DrawChipForWindow | sites_draw.c:231-244 | `draw_chip_for_window` saves, applies the context's zoom first, and restores last. |
| SitesDraw.DrawChipVectorized | sites_draw.c:252-277 | `_draw_chip_vectorized` first clips to the whole chip, `width * 100` by `height * 100`, then issues the canvas setup, then draws every site through `draw_site_vector`, whatever the text setting. |
| SitesDraw.DrawChip | sites_draw.c:280-316 | `draw_chip` issues the background paint, stroke and font settings before anything else, and then exactly the window drawing of `draw_chip_for_window`. |
| SitesDraw.DrawCairoChip | sites_draw.c:348-354 | `draw_cairo_chip` first clips to the whole chip, `width * 100` by `height * 100`. |
| RenderProperties.CairoChipRun | sites_draw.c:348-354 | `draw_cairo_chip` issues the vectorized drawing of the initial context, whatever surface it is bound to. On any surface it leaves transformation and stack alone and shows the reference labels of the initial context's text setting, each in its cell. |
| RenderProperties.LutLoopPlacement | sites_draw.c:62-71 | Iteration j of the `_draw_luts` loop draws the square offset j + 1 times from the base, because the offset is added before drawing, and then strokes it. |
| RenderProperties.DrawLutsPlacement | sites_draw.c:62-71 | `_draw_luts` draws exactly four 10 by 10 squares, each followed by a stroke, at x = 80 and y = 30, 40, 50, 60. |
| RenderProperties.ClbGlyphCommands | sites_draw.c:84-89 | The CLB glyph is exactly the box, the circle and the four squares, 12 commands in all. |
| RenderProperties.ClbGlyphFlat | sites_draw.c:84-89 | The glyph never saves, restores, transforms or opens a group, and shows no text. |
| RenderProperties.ClbGlyphGeometry | sites_draw.c:45-71 | Every shape of the glyph lies in the inset box, which lies in the footprint. Each shape is stroked right after it is drawn. No two lookup-table squares overlap. |
| RenderProperties.SwitchCentred | bitdraw.h:17-19 | The switch circle has radius 15, is centred at (50, 50), the middle of the footprint, and spans the box (35, 35, 30, 30). |
| RenderProperties.ClbLabelRule | sites_draw.c:91-101 | `_draw_clb` draws the same glyph in both text settings. It appends the label exactly when text is on, and draws text if and only if text is on. |
| RenderProperties.ClbComposeLabelRule | sites_draw.c:134-156 | `_draw_clb_compose` issues the same stamp in both text settings. It appends the label exactly when text is on, and draws text if and only if text is on. |
| RenderProperties.DispatchTotal | sites_draw.c:162-206 | Both tables have an entry exactly for CLB. A CLB site's dispatch runs the CLB entry: the pattern stamp when compositing, the glyph between the cell translates when vectorized. Any other type draws nothing, except that compositing still emits save, translate to its cell, restore. |
| SitesDraw.IterateOverSites | sites_draw.c:276 | `iterate_over_sites`, called at lines 241 and 276. With `draw_site_vector`, an iteration over sites none of which is a CLB issues nothing. With `draw_site_compose`, every visited site contributes at least its save, translate and restore. `RenderProperties.IterateAppend` and `IterateSingle` pin the rest. |
| RenderProperties.IterateAppend | sites_draw.c:241 | For both call sites (lines 241 and 276), iterating over two site lists in turn issues the first list's commands followed by the second's, for either callback. |
| RenderProperties.IterateSingle | sites_draw.c:241 | A single visited site gets exactly its callback's commands: `draw_site_vector` in the vectorized drawing, `draw_site_compose` in the window drawing. |
| RenderProperties.DrawNameRun | sites_draw.c:74-82 | Running `_draw_name` shows the name at the transformed name offset and consumes the path. |
| Canvas.TranslateBack | sites_draw.c:202-204 | Translating by (dx, dy) and then by (-dx, -dy) restores the transformation. |
| RenderProperties.SiteVectorRun | sites_draw.c:193-206 | `draw_site_vector` leaves transformation and save stack as they were, because its move is undone. It shows the site's label, if any, at its cell's name offset. |
| RenderProperties.SiteComposeRun | sites_draw.c:176-186 | `draw_site_compose` is save/restore balanced, including for a type with no entry. It shows the site's label, if any, at its cell's name offset. |
| RenderProperties.IterateRun | sites_draw.c:276 | Iterating either callback over the sites is balanced. It shows exactly the reference labels (`GridLabels`), one per CLB site when text is on, in iteration order. The commands each site contributes are pinned by `IterateAppend` and `IterateSingle`. |
| RenderProperties.ChipForWindowRun | sites_draw.c:231-244 | `draw_chip_for_window` is save/restore balanced. It shows every label zoomed and shifted by the viewport offset. |
| RenderProperties.DrawChipRun | sites_draw.c:280-316 | `draw_chip` is balanced and shows the same labels as `draw_chip_for_window`. |
| RenderProperties.ChipVectorizedRun | sites_draw.c:252-277 | `_draw_chip_vectorized` leaves transformation and stack alone and shows every label in its cell. |
| RenderProperties.ModesShowSameLabels | sites_draw.c:162-191 | At zoom 1 with no offset, composited and vectorized drawing both run and show the same labels. |
| RenderProperties.TwoSiteScenario | sites_draw.c:252-277 | Two CLB sites "A" and "B" side by side, with text on, show exactly "A" at (20, 20) and "B" at (120, 20). |
| RenderProperties.PatternClipRun | sites_draw.c:110-114 | The save and the clip of `draw_clb_pattern` push one saved state and consume the rectangle's path. |
| RenderProperties.GroupSetupRun | sites_draw.c:115-124 | The zoom is applied before `cairo_push_group`, so the group opens under the zoomed transformation. |
| RenderProperties.RecordPrologueRun | sites_draw.c:110-124 | After the prologue there is one saved state and one open group, the transformation is zoomed, and no label has been shown. |
| RenderProperties.RecordEpilogueRun | sites_draw.c:127-129 | Popping the group and then restoring undoes the prologue. |
| RenderProperties.RecordClbPatternRun | sites_draw.c:103-132 | `draw_clb_pattern` is save/restore and push/pop-group balanced and shows no label. |
| RenderProperties.RecordedGlyphMatchesVector | sites_draw.c:117-127 | The recorded group holds exactly what `_draw_clb` draws with text off. Both modes draw the same shapes. |
| RenderProperties.ComposeIgnoresZoom | sites_draw.c:134-156 | Stamping the sites does not depend on the zoom. |
| RenderProperties.WindowZoomOnlyScales | sites_draw.c:231-244 | A zoom change alters only the `Scale` of `draw_chip_for_window`. The stamped sites stay the same commands. |
| PatternCache.SlotsAreOwned | bitdraw.h:25-27 | Under the ownership invariant, a non-null slot of any of the three arrays holds a pattern that exactly one slot holds, that was allocated, and that was never released. |
| PatternCache.GeneratePatterns | sites_draw.c:219-223 | `generate_patterns` stores in the CLB slot exactly the pattern `draw_clb_pattern` returns, and its commands are that recording. Every other slot and field is left unchanged, and nothing is released. |
| PatternCache.GeneratePatternsRun | sites_draw.c:219-223 | Regenerating the cache leaves the surface's transform and state stack as they were and shows no text. |
| PatternCache.SafeRelease | sites_draw.c:326-330 | `safe_cairo_pattern_destroy` releases a non-null pattern once and leaves a null one alone. |
| PatternCache.DestroyPatterns | sites_draw.c:225-229 | `destroy_patterns` nulls the CLB slot, changes nothing else, and releases the old pattern once if there was one. |
| PatternCache.ReleaseOwnedExactlyOnce | sites_draw.c:332-342 | Releasing each pattern once per slot that holds it releases nothing twice under the invariant. With no leak, every allocated pattern ends up released exactly once. |
| PatternCache.DrawingContextDestroy | sites_draw.c:332-342 | `drawing_context_destroy` releases each pattern once per non-null slot of all three arrays and releases nothing else. Under the invariant, this is exactly once. |
| PatternCache.DestroyPatternsKeepsOwnership | sites_draw.c:225-229 | `destroy_patterns` keeps the ownership invariant and leaks nothing new. |
| PatternCache.GenerateIntoEmptyKeepsOwnership | sites_draw.c:219-223 | `generate_patterns` into an empty CLB slot keeps the invariant and leaks nothing new. |
| PatternCache.GenerateOverFilledLeaks | sites_draw.c:222 | `generate_patterns` over a filled slot loses the old pattern: no slot holds it and it was never released, so it joins the leaked set. |
| PatternCache.RegenerateKeepsOwnership | sites_draw.c:219-229 | `destroy_patterns` followed by `generate_patterns` replaces the CLB pattern without a leak and keeps the invariant. |

## Left out

- Cairo's own semantics are not modelled: rasterisation, clipping, paint compositing, colours, fonts and line width. They stay uninterpreted commands. The interpreter only follows the transformation, the save/group stack, the current point and the labels.
- `cairo_show_text` is modelled as leaving a label at the current point. The text advance that moves the current point is not modelled.
- Floating-point arithmetic is not modelled. The zoom is an exact non-negative real, and the truncation of `SITE_WIDTH*zoom` to `unsigned` is the floor. Overflow of that `unsigned` for a huge zoom is left out.
- Cairo's error for a non-invertible matrix (`cairo_scale` by 0) is left out: `Scale` never fails.
- The negation of the `gint` viewport offsets is unbounded, so the overflow of `-INT_MIN` is not modelled.
- `iterate_over_sites` is not part of this model. Its output is the chip's input sequence of placed sites, in an order the model leaves open.
- `snprint_csite` is not part of this model. A site's printed name is an opaque string.
- `init_drawing_context` is not part of this model. `DrawCairoChip` takes the context it produces as a parameter, and `drawing_context_create` is left out for the same reason.
- `debit_log`, `g_new` and `g_free` are left out. They are logging and memory management with no effect on what is drawn or released.
- `NR_SITE_TYPE` and the ordinal of `CLB` come from `sites.h`, which is not part of this model. The stand-in values 8 and 1 are used, and the proofs rely only on `Clb < NrSiteType`.
- SitesDraw.DrawClbCompose: requires the CLB slot of the single-site array to hold a pattern. A null pattern handed to `cairo_set_source` is not modelled. So compositing a CLB site, and the composited chip drawing, carry this as a precondition (`ComposeReady`, `AllComposeReady`).
- `destroy_patterns` calls `cairo_pattern_destroy` directly, and Cairo ignores a null pattern. `DestroyPatterns` models this by releasing through `SafeRelease`.
- Unused or undefined code is left out: `draw_full_clb_pattern` (never called), the commented-out blocks, and `pip_patterns` (never populated, kept only as an unchanged field). Also the header prototypes whose definitions are not part of this model: `create_drawing_context`, `destroy_drawing_context`, `draw_chip_monitored`, `draw_all_wires` and `draw_cairo_wires`.
- A second call to `drawing_context_destroy` is undefined behaviour and is left out. So is freeing the context itself.
