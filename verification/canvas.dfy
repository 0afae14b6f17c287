/** The Cairo canvas, reduced to a trace of drawing commands and a small
    interpreter over an abstract surface state: the current transformation
    (a uniform scale and a translation), the stack of saved states, the
    current point, and the labels shown so far.  Patterns are handles
    allocated by a pool whose releases are counted in a multiset. */
module Canvas {
  import opened Wrappers

  /** A pattern handle (`cairo_pattern_t *`). */
  type PatternId = nat

  /** The zoom factor of a drawing context; the floating-point value is
      modelled as an exact non-negative real. */
  type Zoom = z: real | 0.0 <= z

  datatype Colour = Black | White

  datatype Cmd =
    | Save
    | Restore
    | Translate(dx: int, dy: int)
    | Scale(zoom: Zoom)
    | Rect(x: int, y: int, w: int, h: int)
    /** A full circle, from angle 0 to 2π. */
    | Arc(cx: int, cy: int, r: int)
    | Stroke
    | Paint
    | Clip
    | SetSource(pattern: PatternId)
    | SetSourceRgb(colour: Colour)
    | SetLineWidth(width: int)
    | SelectFont(face: string)
    | SetFontSize(size: int)
    | MoveTo(x: int, y: int)
    | ShowText(text: string)
    | PushGroup
    /** `cairo_pop_group`, carrying the handle of the pattern it returns. */
    | PopGroup(pattern: PatternId)

  type Trace = seq<Cmd>

  datatype Point = Point(x: real, y: real)

  /** A transformation made of a uniform scale followed by a translation:
      user (x, y) is device (tx + scale * x, ty + scale * y). */
  datatype Matrix = Matrix(scale: real, tx: real, ty: real) {
    function Apply(x: int, y: int): Point {
      Point(tx + scale * (x as real), ty + scale * (y as real))
    }

    function Translated(dx: int, dy: int): Matrix {
      Matrix(scale, tx + scale * (dx as real), ty + scale * (dy as real))
    }

    function Scaled(z: real): Matrix {
      Matrix(scale * z, tx, ty)
    }
  }

  const Identity: Matrix := Matrix(1.0, 0.0, 0.0)

  /** A saved graphics state: by `cairo_save`, or implicitly by `cairo_push_group`. */
  datatype Frame = Saved(ctm: Matrix) | Group(ctm: Matrix)

  /** A string shown on the surface, at a device position. */
  datatype Label = Label(text: string, at: Point)

  datatype Surface = Surface(ctm: Matrix, stack: seq<Frame>, point: Option<Point>, labels: seq<Label>)

  /** A fresh surface: identity transform, nothing saved, nothing drawn. */
  const Blank: Surface := Surface(Identity, [], None, [])

  /** One command.  `None` is a surface in an error state: a restore with no
      matching save on top of the stack, or a pop with no matching group. */
  function Step(s: Surface, c: Cmd): Option<Surface> {
    match c
    case Save => Some(s.(stack := s.stack + [Saved(s.ctm)]))
    case Restore =>
      if |s.stack| > 0 && s.stack[|s.stack| - 1].Saved? then
        Some(s.(ctm := s.stack[|s.stack| - 1].ctm, stack := s.stack[..|s.stack| - 1]))
      else None
    case PushGroup => Some(s.(stack := s.stack + [Group(s.ctm)]))
    case PopGroup(_) =>
      if |s.stack| > 0 && s.stack[|s.stack| - 1].Group? then
        Some(s.(ctm := s.stack[|s.stack| - 1].ctm, stack := s.stack[..|s.stack| - 1]))
      else None
    case Translate(dx, dy) => Some(s.(ctm := s.ctm.Translated(dx, dy)))
    case Scale(z) => Some(s.(ctm := s.ctm.Scaled(z)))
    // a rectangle's closed subpath leaves the current point at its corner
    case Rect(x, y, _, _) => Some(s.(point := Some(s.ctm.Apply(x, y))))
    // the full circle ends where it started, at angle 0
    case Arc(cx, cy, r) => Some(s.(point := Some(s.ctm.Apply(cx + r, cy))))
    case MoveTo(x, y) => Some(s.(point := Some(s.ctm.Apply(x, y))))
    // stroking and clipping consume the path and its current point
    case Stroke => Some(s.(point := None))
    case Clip => Some(s.(point := None))
    // text without a current point starts at the user-space origin
    case ShowText(text) =>
      var at := if s.point.Some? then s.point.value else s.ctm.Apply(0, 0);
      Some(s.(labels := s.labels + [Label(text, at)]))
    case _ => Some(s)
  }

  function Run(s: Surface, t: Trace): Option<Surface>
    decreases |t|
  {
    if |t| == 0 then Some(s)
    else match Step(s, t[0])
      case None => None
      case Some(s') => Run(s', t[1..])
  }

  /** The trace ran without error and left transform and stack as it found them. */
  predicate Restores(s: Surface, t: Trace) {
    var r := Run(s, t);
    r.Some? && r.value.ctm == s.ctm && r.value.stack == s.stack
  }

  /** A command that changes neither the transform nor the stack. */
  predicate Flat(c: Cmd) {
    !(c.Save? || c.Restore? || c.Translate? || c.Scale? || c.PushGroup? || c.PopGroup?)
  }

  predicate FlatTrace(t: Trace) {
    forall i :: 0 <= i < |t| ==> Flat(t[i])
  }

  predicate NoText(t: Trace) {
    forall i :: 0 <= i < |t| ==> !t[i].ShowText?
  }

  /** Running a concatenation is running its halves in turn. */
  lemma {:induction false} RunAppend(s: Surface, a: Trace, b: Trace)
    ensures Run(s, a + b) == (match Run(s, a) case None => None case Some(s') => Run(s', b))
    decreases |a|
  {
    if |a| == 0 {
      assert a + b == b;
    } else {
      assert (a + b)[0] == a[0];
      assert (a + b)[1..] == a[1..] + b;
      match Step(s, a[0])
      case None =>
      case Some(s') => RunAppend(s', a[1..], b);
    }
  }

  /** A trace without saves, restores, transforms or groups always runs, and
      leaves transform and stack untouched; without text it shows nothing. */
  lemma {:induction false} FlatRun(s: Surface, t: Trace)
    requires FlatTrace(t)
    ensures Restores(s, t)
    ensures NoText(t) ==> Run(s, t).value.labels == s.labels
    decreases |t|
  {
    if |t| > 0 {
      assert Flat(t[0]);
      var s' := Step(s, t[0]).value;
      assert FlatTrace(t[1..]) by {
        forall i | 0 <= i < |t[1..]| ensures Flat(t[1..][i]) {
          assert t[1..][i] == t[i + 1];
        }
      }
      if NoText(t) {
        assert !t[0].ShowText?;
        assert NoText(t[1..]) by {
          forall i | 0 <= i < |t[1..]| ensures !t[1..][i].ShowText? {
            assert t[1..][i] == t[i + 1];
          }
        }
      }
      FlatRun(s', t[1..]);
    }
  }

  /** A one-command trace is one step. */
  lemma RunSingle(s: Surface, c: Cmd)
    ensures Run(s, [c]) == Step(s, c)
  {
    assert [c][1..] == [];
  }

  /** A point in translated coordinates is the shifted point in the old ones. */
  lemma TranslatedApply(m: Matrix, dx: int, dy: int, x: int, y: int)
    ensures m.Translated(dx, dy).Apply(x, y) == m.Apply(dx + x, dy + y)
  {
    var t := m.Translated(dx, dy);
    assert t.tx + m.scale * (x as real) == m.tx + m.scale * ((dx + x) as real) by {
      Distributes(m.scale, dx, x);
    }
    assert t.ty + m.scale * (y as real) == m.ty + m.scale * ((dy + y) as real) by {
      Distributes(m.scale, dy, y);
    }
  }

  /** Scaling distributes over the sum of two integer coordinates. */
  lemma Distributes(k: real, a: int, b: int)
    ensures k * (a as real) + k * (b as real) == k * ((a + b) as real)
  {
    assert (a + b) as real == a as real + b as real;
  }

  /** Translating back by the negated offset undoes a translation. */
  lemma TranslateBack(m: Matrix, dx: int, dy: int)
    ensures m.Translated(dx, dy).Translated(-dx, -dy) == m
  {
    assert m.scale * ((-dx) as real) == -(m.scale * (dx as real));
    assert m.scale * ((-dy) as real) == -(m.scale * (dy as real));
  }

  /** Text shown at the current point, then the path consumed. */
  lemma TextRun(s: Surface, text: string)
    requires s.point.Some?
    ensures Run(s, [ShowText(text), Stroke]) == Some(s.(point := None, labels := s.labels + [Label(text, s.point.value)]))
  {
    var s1 := s.(labels := s.labels + [Label(text, s.point.value)]);
    assert [ShowText(text), Stroke][1..] == [Stroke];
    RunSingle(s1, Stroke);
  }

  /** A translation changes only the transformation. */
  lemma TranslateRun(s: Surface, dx: int, dy: int)
    ensures Run(s, [Translate(dx, dy)]) == Some(s.(ctm := s.ctm.Translated(dx, dy)))
  {
    RunSingle(s, Translate(dx, dy));
  }

  /** A label-only effect: transform and stack untouched, `extra` appended
      to the labels. */
  predicate ShowsOnly(s: Surface, t: Trace, extra: seq<Label>) {
    Restores(s, t) && Run(s, t).value.labels == s.labels + extra
  }

  /** Label-only effects compose. */
  lemma ShowsOnlyAppend(s: Surface, a: Trace, b: Trace, la: seq<Label>, lb: seq<Label>)
    requires ShowsOnly(s, a, la)
    requires ShowsOnly(Run(s, a).value, b, lb)
    ensures ShowsOnly(s, a + b, la + lb)
  {
    RunAppend(s, a, b);
  }

  /** Running a trace whose first part is known to run. */
  lemma RunThen(s: Surface, a: Trace, b: Trace, s1: Surface)
    requires Run(s, a) == Some(s1)
    ensures Run(s, a + b) == Run(s1, b)
  {
    RunAppend(s, a, b);
  }

  /** The surface's view of allocation: handles are handed out in sequence,
      and every release is counted, so a double release shows as a
      multiplicity above one. */
  datatype Pool = Pool(next: PatternId, released: multiset<PatternId>) {
    predicate Allocated(p: PatternId) {
      p < next
    }

    /** No handle was released twice, and only allocated ones were released. */
    predicate Sound() {
      forall p :: p in released ==> Allocated(p) && released[p] == 1
    }
  }

  /** Allocates a fresh pattern handle. */
  function Allocate(pool: Pool): (r: (PatternId, Pool))
    ensures !pool.Allocated(r.0) && r.1.Allocated(r.0)
    ensures forall p :: pool.Allocated(p) ==> r.1.Allocated(p)
    ensures r.1.released == pool.released
  {
    (pool.next, pool.(next := pool.next + 1))
  }

  /** `cairo_pattern_destroy`. */
  function Release(pool: Pool, p: PatternId): (r: Pool)
    ensures r.next == pool.next
    ensures r.released[p] == pool.released[p] + 1
    ensures forall q :: q != p ==> r.released[q] == pool.released[q]
  {
    pool.(released := pool.released + multiset{p})
  }
}
