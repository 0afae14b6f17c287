/** The pattern cache of a drawing context: three per-type slot arrays,
    filled by `generate_patterns`, emptied by `destroy_patterns`, and
    released by `drawing_context_destroy`.  Releases are counted in the
    pool's multiset, so a leak (a pattern nobody holds and nobody released)
    and a double release are both visible. */
module PatternCache {
  import opened Wrappers
  import opened Canvas
  import opened DrawingContext
  import opened SitesDraw
  import RenderProperties

  /** Whether a slot holds pattern p, as a count. */
  function Holds(slot: Slot, p: PatternId): nat {
    if slot == Some(p) then 1 else 0
  }

  /** How many of the three slots of site type i hold p. */
  function TypeCount(ctx: Context, i: nat, p: PatternId): nat
    requires i < NrSiteType
  {
    Holds(ctx.singPatterns[i], p) + Holds(ctx.linePatterns[i], p) + Holds(ctx.fullPatterns[i], p)
  }

  /** How many slots of the first n site types hold p. */
  function CountBelow(ctx: Context, n: nat, p: PatternId): nat
    requires n <= NrSiteType
  {
    if n == 0 then 0 else CountBelow(ctx, n - 1, p) + TypeCount(ctx, n - 1, p)
  }

  /** How many slots of the context hold p: the context owns p when this is
      positive. */
  function Owners(ctx: Context, p: PatternId): nat {
    CountBelow(ctx, NrSiteType, p)
  }

  /** The ownership invariant: no pattern sits in two slots, every held
      pattern is live (allocated, never released), and the pool has never
      released anything twice. */
  ghost predicate Owns(ctx: Context, pool: Pool) {
    && pool.Sound()
    && (forall p :: Owners(ctx, p) > 0 ==> Owners(ctx, p) == 1 && pool.Allocated(p) && p !in pool.released)
  }

  /** Patterns allocated, never released, and held by no slot. */
  function Leaked(ctx: Context, pool: Pool): set<PatternId> {
    set p: PatternId | p < pool.next && p !in pool.released && Owners(ctx, p) == 0
  }

  /** A pattern in any slot of a type below n is counted by CountBelow(n). */
  lemma {:induction false} SlotCounted(ctx: Context, n: nat, i: nat, p: PatternId)
    requires i < n <= NrSiteType
    ensures CountBelow(ctx, n, p) >= TypeCount(ctx, i, p)
    decreases n
  {
    if i < n - 1 {
      SlotCounted(ctx, n - 1, i, p);
    }
  }

  /** Every non-null slot holds a pattern owned by the context; under the
      invariant that pattern is live. */
  lemma SlotsAreOwned(ctx: Context, pool: Pool, i: SiteType)
    requires Owns(ctx, pool)
    ensures ctx.singPatterns[i].Some? ==> var p := ctx.singPatterns[i].value; Owners(ctx, p) == 1 && pool.Allocated(p) && p !in pool.released
    ensures ctx.linePatterns[i].Some? ==> var p := ctx.linePatterns[i].value; Owners(ctx, p) == 1 && pool.Allocated(p) && p !in pool.released
    ensures ctx.fullPatterns[i].Some? ==> var p := ctx.fullPatterns[i].value; Owners(ctx, p) == 1 && pool.Allocated(p) && p !in pool.released
  {
    if ctx.singPatterns[i].Some? {
      SlotCounted(ctx, NrSiteType, i, ctx.singPatterns[i].value);
    }
    if ctx.linePatterns[i].Some? {
      SlotCounted(ctx, NrSiteType, i, ctx.linePatterns[i].value);
    }
    if ctx.fullPatterns[i].Some? {
      SlotCounted(ctx, NrSiteType, i, ctx.fullPatterns[i].value);
    }
  }

  /** Replacing the CLB entry of the single-site array changes how many
      slots hold p by exactly what the old and new entries contribute. */
  lemma {:induction false} CountBelowReplace(ctx: Context, v: Slot, n: nat, p: PatternId)
    requires n <= NrSiteType
    ensures CountBelow(ctx.(singPatterns := ctx.singPatterns[Clb := v]), n, p) + (if Clb < n then Holds(ctx.singPatterns[Clb], p) else 0)
         == CountBelow(ctx, n, p) + (if Clb < n then Holds(v, p) else 0)
    decreases n
  {
    if n > 0 {
      var ctx' := ctx.(singPatterns := ctx.singPatterns[Clb := v]);
      CountBelowReplace(ctx, v, n - 1, p);
      if n - 1 != Clb {
        assert ctx'.singPatterns[n - 1] == ctx.singPatterns[n - 1];
      }
    }
  }

  lemma OwnersReplace(ctx: Context, v: Slot, p: PatternId)
    ensures Owners(ctx.(singPatterns := ctx.singPatterns[Clb := v]), p) + Holds(ctx.singPatterns[Clb], p)
         == Owners(ctx, p) + Holds(v, p)
  {
    CountBelowReplace(ctx, v, NrSiteType, p);
  }

  /** The result of `generate_patterns`: the updated context, the pool after
      the new pattern's allocation, and the commands drawn to make it. */
  datatype Generated = Generated(ctx: Context, pool: Pool, trace: Trace)

  /** `generate_patterns`: records the CLB pattern at the current zoom and
      stores it in the CLB slot, overwriting whatever was there without
      releasing it. */
  function GeneratePatterns(ctx: Context, pool: Pool): (r: Generated)
    ensures r.ctx.singPatterns[Clb].Some?
    ensures !pool.Allocated(r.ctx.singPatterns[Clb].value) && r.pool.Allocated(r.ctx.singPatterns[Clb].value)
    ensures r.ctx == ctx.(singPatterns := ctx.singPatterns[Clb := r.ctx.singPatterns[Clb]])
    ensures r.pool.next == pool.next + 1 && r.pool.released == pool.released
    ensures var recorded := RecordClbPattern(ctx, pool);
      r.trace == recorded.trace && r.ctx.singPatterns[Clb] == Some(recorded.pattern) && r.pool == recorded.pool
    ensures |r.trace| >= 2 && r.trace[|r.trace| - 2] == PopGroup(r.ctx.singPatterns[Clb].value)
  {
    var recorded := RecordClbPattern(ctx, pool);
    Generated(ctx.(singPatterns := ctx.singPatterns[Clb := Some(recorded.pattern)]), recorded.pool, recorded.trace)
  }

  /** Generating the patterns draws nothing visible: the recording leaves
      the transform and the state stack as it found them and shows no text. */
  lemma GeneratePatternsRun(s: Surface, ctx: Context, pool: Pool)
    ensures ShowsOnly(s, GeneratePatterns(ctx, pool).trace, [])
  {
    RenderProperties.RecordClbPatternRun(s, ctx, pool);
  }

  /** `safe_cairo_pattern_destroy`: releases a non-null pattern, ignores null. */
  function SafeRelease(pool: Pool, slot: Slot): (r: Pool)
    ensures r.next == pool.next
    ensures forall q :: r.released[q] == pool.released[q] + Holds(slot, q)
  {
    match slot
    case None => pool
    case Some(p) => Release(pool, p)
  }

  /** `destroy_patterns`: releases the CLB slot's pattern (releasing a null
      pattern does nothing) and nulls the slot. */
  function DestroyPatterns(ctx: Context, pool: Pool): (r: (Context, Pool))
    ensures r.0.singPatterns[Clb].None?
    ensures r.0 == ctx.(singPatterns := ctx.singPatterns[Clb := None])
    ensures r.1.next == pool.next
    ensures forall q :: r.1.released[q] == pool.released[q] + Holds(ctx.singPatterns[Clb], q)
  {
    (ctx.(singPatterns := ctx.singPatterns[Clb := None]), SafeRelease(pool, ctx.singPatterns[Clb]))
  }

  /** Releasing each owned pattern once per slot that holds it: under the
      ownership invariant no pattern is released twice, and with no leak
      every pattern ever allocated is released exactly once. */
  lemma ReleaseOwnedExactlyOnce(ctx: Context, pool: Pool, r: Pool)
    requires Owns(ctx, pool)
    requires r.next == pool.next
    requires forall p :: r.released[p] == pool.released[p] + Owners(ctx, p)
    ensures r.Sound()
    ensures forall p :: Owners(ctx, p) > 0 ==> r.released[p] == 1
    ensures Leaked(ctx, pool) == {} ==> forall p :: pool.Allocated(p) ==> r.released[p] == 1
  {
    forall p | p in r.released ensures r.Allocated(p) && r.released[p] == 1 {
      if Owners(ctx, p) == 0 {
        assert p in pool.released;
      }
    }
    if Leaked(ctx, pool) == {} {
      forall p | pool.Allocated(p) ensures r.released[p] == 1 {
        if Owners(ctx, p) == 0 {
          assert p !in Leaked(ctx, pool);
        }
      }
    }
  }

  /** `drawing_context_destroy`: walks the site types and releases the
      non-null slots of all three arrays, each once per slot that holds it
      and nothing else. */
  method DrawingContextDestroy(ctx: Context, pool: Pool) returns (r: Pool)
    ensures r.next == pool.next
    ensures forall p :: r.released[p] == pool.released[p] + Owners(ctx, p)
    ensures Owns(ctx, pool) ==> r.Sound() && forall p :: Owners(ctx, p) > 0 ==> r.released[p] == 1
    ensures Owns(ctx, pool) && Leaked(ctx, pool) == {} ==> forall p :: pool.Allocated(p) ==> r.released[p] == 1
  {
    r := pool;
    var i := 0;
    while i < NrSiteType
      invariant i <= NrSiteType
      invariant r.next == pool.next
      invariant forall p :: r.released[p] == pool.released[p] + CountBelow(ctx, i, p)
    {
      r := SafeRelease(r, ctx.singPatterns[i]);
      r := SafeRelease(r, ctx.linePatterns[i]);
      r := SafeRelease(r, ctx.fullPatterns[i]);
      i := i + 1;
    }
    if Owns(ctx, pool) {
      ReleaseOwnedExactlyOnce(ctx, pool, r);
    }
  }

  /** `destroy_patterns` keeps the invariant and leaks nothing new. */
  lemma DestroyPatternsKeepsOwnership(ctx: Context, pool: Pool)
    requires Owns(ctx, pool)
    ensures Owns(DestroyPatterns(ctx, pool).0, DestroyPatterns(ctx, pool).1)
    ensures Leaked(DestroyPatterns(ctx, pool).0, DestroyPatterns(ctx, pool).1) == Leaked(ctx, pool)
  {
    var (ctx', pool') := DestroyPatterns(ctx, pool);
    var previous := ctx.singPatterns[Clb];
    SlotsAreOwned(ctx, pool, Clb);
    forall p ensures Owners(ctx', p) + Holds(previous, p) == Owners(ctx, p) {
      OwnersReplace(ctx, None, p);
    }
    forall p | p in pool'.released ensures pool'.Allocated(p) && pool'.released[p] == 1 {
      if previous == Some(p) {
        assert p !in pool.released;
      }
    }
    assert Leaked(ctx', pool') == Leaked(ctx, pool) by {
      forall p ensures p in Leaked(ctx', pool') <==> p in Leaked(ctx, pool) {
        if previous == Some(p) {
          assert p in pool'.released;
        }
      }
    }
  }

  /** `generate_patterns` into an empty slot keeps the invariant and leaks
      nothing new. */
  lemma GenerateIntoEmptyKeepsOwnership(ctx: Context, pool: Pool)
    requires Owns(ctx, pool)
    requires ctx.singPatterns[Clb].None?
    ensures Owns(GeneratePatterns(ctx, pool).ctx, GeneratePatterns(ctx, pool).pool)
    ensures Leaked(GeneratePatterns(ctx, pool).ctx, GeneratePatterns(ctx, pool).pool) == Leaked(ctx, pool)
  {
    var g := GeneratePatterns(ctx, pool);
    var q := g.ctx.singPatterns[Clb].value;
    forall p ensures Owners(g.ctx, p) == Owners(ctx, p) + Holds(Some(q), p) {
      OwnersReplace(ctx, Some(q), p);
    }
    assert Owners(ctx, q) == 0;
    forall p | p in g.pool.released ensures g.pool.Allocated(p) && g.pool.released[p] == 1 {
      assert pool.Allocated(p);
    }
    assert Leaked(g.ctx, g.pool) == Leaked(ctx, pool) by {
      forall p ensures p in Leaked(g.ctx, g.pool) <==> p in Leaked(ctx, pool) {
        if p == q {
          assert Owners(g.ctx, p) == 1;
        }
      }
    }
  }

  /** `generate_patterns` over a filled slot loses the old pattern: it is
      leaked, still unreleased, and no slot holds it any more, so not even
      `drawing_context_destroy` will release it. */
  lemma GenerateOverFilledLeaks(ctx: Context, pool: Pool)
    requires Owns(ctx, pool)
    requires ctx.singPatterns[Clb].Some?
    ensures var g := GeneratePatterns(ctx, pool);
      var lost := ctx.singPatterns[Clb].value;
      && Owners(g.ctx, lost) == 0
      && lost !in g.pool.released
      && Leaked(g.ctx, g.pool) == Leaked(ctx, pool) + {lost}
  {
    var g := GeneratePatterns(ctx, pool);
    var lost := ctx.singPatterns[Clb].value;
    var q := g.ctx.singPatterns[Clb].value;
    SlotsAreOwned(ctx, pool, Clb);
    forall p ensures Owners(g.ctx, p) + Holds(Some(lost), p) == Owners(ctx, p) + Holds(Some(q), p) {
      OwnersReplace(ctx, Some(q), p);
    }
    assert q != lost;
    assert Owners(g.ctx, lost) == 0;
    assert Leaked(g.ctx, g.pool) == Leaked(ctx, pool) + {lost} by {
      forall p ensures p in Leaked(g.ctx, g.pool) <==> p in Leaked(ctx, pool) + {lost} {
        if p == q {
          assert Owners(g.ctx, p) >= 1;
        }
      }
    }
  }

  /** Destroying then generating, the sequence the cache needs on a zoom
      change, replaces the pattern without a leak. */
  lemma RegenerateKeepsOwnership(ctx: Context, pool: Pool)
    requires Owns(ctx, pool)
    ensures var (c1, p1) := DestroyPatterns(ctx, pool);
      var g := GeneratePatterns(c1, p1);
      Owns(g.ctx, g.pool) && Leaked(g.ctx, g.pool) == Leaked(ctx, pool) && g.ctx.singPatterns[Clb].Some?
  {
    var (c1, p1) := DestroyPatterns(ctx, pool);
    DestroyPatternsKeepsOwnership(ctx, pool);
    GenerateIntoEmptyKeepsOwnership(c1, p1);
  }
}
