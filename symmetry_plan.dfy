/** The combine list of one call of the partial symmetry manager's
    `calculate`: the nested loops over the modification flags that decide
    which partials are recomputed and combined into the master histogram.
    The loops are modelled twice: as they are evidently meant, proved to
    list every partial the reference rule `Recomputes` selects exactly once,
    and as they are written, with the three places where they differ. */
module SymmetryPlan {
  import opened Histograms
  import opened Symmetries
  import opened SymmetrySlots

  /** Appending a partial that is not listed yet keeps a list free of
      duplicates. */
  lemma PushNoDups(r: seq<Slot>, x: Slot)
    requires NoDups(r) && x !in r
    ensures NoDups(r + [x])
  {
    NoDupsConcat(r, [x]);
  }

  /** The body a non-water partial belongs to in the loop over `ibody1`. */
  function RowOf(x: Slot): nat
    requires !x.WW?
  {
    if x.AA? then x.b1 else x.b
  }

  /** What pass `b1` of the loop over `ibody1` is meant to list: the
      selected partials of row `b1` other than the self-correlation. */
  predicate InRow(bodies: seq<Body>, f: Flags, waters: bool, b1: nat, x: Slot) {
    !x.WW? && RowOf(x) == b1 && !IsSelfSlot(x) && IsSlot(bodies, x) && Recomputes(bodies, f, waters, x)
  }

  // ---- what each block of the loop over `ibody1` lists ----

  /** The first block: every symmetry pair of `b1` with a lower body when
      either of the two moved. */
  predicate InExt(bodies: seq<Body>, f: Flags, b1: nat, y: Slot) {
    y.AA? && y.b1 == b1 && y.b2 < b1 < |bodies| && (Moved(f, b1) || Moved(f, y.b2)) &&
    y.s1 <= Syms(bodies, b1) && y.s2 <= Syms(bodies, y.b2)
  }

  /** The second block: `b1` itself against the changed symmetries of the
      lower bodies that did not move. */
  predicate InHost(bodies: seq<Body>, f: Flags, b1: nat, y: Slot) {
    y.AA? && y.b1 == b1 && y.s1 == 0 && y.b2 < b1 < |bodies| && !Moved(f, y.b2) && SymChanged(f, y.b2, y.s2)
  }

  /** The third block: the symmetries of `b1` against the lower bodies that
      did not move, when either symmetry changed. */
  predicate InCopy(bodies: seq<Body>, f: Flags, b1: nat, y: Slot) {
    y.AA? && y.b1 == b1 && y.b2 < b1 < |bodies| && 1 <= y.s1 <= Syms(bodies, b1) && !Moved(f, y.b2) &&
    y.s2 <= Syms(bodies, y.b2) && (SymChanged(f, b1, y.s1) || SymChanged(f, y.b2, y.s2))
  }

  /** The diagonal block: two symmetries of `b1` (or a symmetry and the
      body) when either of them changed. */
  predicate InDiag(bodies: seq<Body>, f: Flags, b1: nat, y: Slot) {
    y.AA? && y.b1 == b1 && y.b2 == b1 < |bodies| && y.s2 < y.s1 <= Syms(bodies, b1) &&
    (SymChanged(f, b1, y.s1) || SymChanged(f, b1, y.s2))
  }

  /** The water block: `b1` and its symmetries against the hydration layer
      when the body moved, the hydration changed or the symmetry changed. */
  predicate InWater(bodies: seq<Body>, f: Flags, b1: nat, y: Slot) {
    y.AW? && y.b == b1 < |bodies| && y.s <= Syms(bodies, b1) && (Moved(f, b1) || f.hydration || SymChanged(f, b1, y.s))
  }

  /** Row `b1` as the union of its blocks; the second and third block run
      only when `b1` did not move. */
  lemma RowCover(bodies: seq<Body>, f: Flags, waters: bool, b1: nat, y: Slot)
    requires Shaped(bodies, f) && b1 < |bodies|
    ensures InRow(bodies, f, waters, b1, y) <==>
      InExt(bodies, f, b1, y) || (!f.external[b1] && (InHost(bodies, f, b1, y) || InCopy(bodies, f, b1, y))) ||
      InDiag(bodies, f, b1, y) || (waters && InWater(bodies, f, b1, y))
  {
    if y.AA? && y.b1 == b1 && y.b2 < b1 && SymChanged(f, y.b2, y.s2) {
      assert y.s2 <= Syms(bodies, y.b2);
    }
  }

  // ---- the loops as they are evidently meant ----

  method ExtBlock(bodies: seq<Body>, f: Flags, b1: nat) returns (r: seq<Slot>)
    requires Shaped(bodies, f) && b1 < |bodies|
    ensures NoDups(r)
    ensures forall y :: y in r <==> InExt(bodies, f, b1, y)
  {
    r := [];
    for b2 := 0 to b1
      invariant NoDups(r)
      invariant forall y :: y in r <==> InExt(bodies, f, b1, y) && y.b2 < b2
    {
      if f.external[b1] || f.external[b2] {
        for s1 := 0 to Syms(bodies, b1) + 1
          invariant NoDups(r)
          invariant forall y :: y in r <==> InExt(bodies, f, b1, y) && (y.b2 < b2 || (y.b2 == b2 && y.s1 < s1))
        {
          for s2 := 0 to Syms(bodies, b2) + 1
            invariant NoDups(r)
            invariant forall y :: y in r <==>
              InExt(bodies, f, b1, y) && (y.b2 < b2 || (y.b2 == b2 && (y.s1 < s1 || (y.s1 == s1 && y.s2 < s2))))
          {
            PushNoDups(r, AA(b1, s1, b2, s2));
            r := r + [AA(b1, s1, b2, s2)];
          }
        }
      }
    }
  }

  method HostBlock(bodies: seq<Body>, f: Flags, b1: nat) returns (r: seq<Slot>)
    requires Shaped(bodies, f) && b1 < |bodies|
    ensures NoDups(r)
    ensures forall y :: y in r <==> InHost(bodies, f, b1, y)
  {
    r := [];
    for b2 := 0 to b1
      invariant NoDups(r)
      invariant forall y :: y in r <==> InHost(bodies, f, b1, y) && y.b2 < b2
    {
      if !f.external[b2] {
        for s2 := 0 to Syms(bodies, b2)
          invariant NoDups(r)
          invariant forall y :: y in r <==> InHost(bodies, f, b1, y) && (y.b2 < b2 || (y.b2 == b2 && y.s2 <= s2))
        {
          if f.symmetry[b2][s2] {
            PushNoDups(r, AA(b1, 0, b2, s2 + 1));
            r := r + [AA(b1, 0, b2, s2 + 1)];
          }
        }
      }
    }
  }

  /** The third block with the moved lower bodies skipped, as the second
      block already does: their pairs are in the first block. */
  method CopyBlock(bodies: seq<Body>, f: Flags, b1: nat) returns (r: seq<Slot>)
    requires Shaped(bodies, f) && b1 < |bodies|
    ensures NoDups(r)
    ensures forall y :: y in r <==> InCopy(bodies, f, b1, y)
  {
    r := [];
    for s1 := 0 to Syms(bodies, b1)
      invariant NoDups(r)
      invariant forall y :: y in r <==> InCopy(bodies, f, b1, y) && y.s1 <= s1
    {
      for b2 := 0 to b1
        invariant NoDups(r)
        invariant forall y :: y in r <==> InCopy(bodies, f, b1, y) && (y.s1 <= s1 || (y.s1 == s1 + 1 && y.b2 < b2))
      {
        if !f.external[b2] {
          if f.symmetry[b1][s1] {
            PushNoDups(r, AA(b1, s1 + 1, b2, 0));
            r := r + [AA(b1, s1 + 1, b2, 0)];
          }
          for s2 := 0 to Syms(bodies, b2)
            invariant NoDups(r)
            invariant forall y :: y in r <==>
              InCopy(bodies, f, b1, y) && (y.s1 <= s1 || (y.s1 == s1 + 1 && (y.b2 < b2 || (y.b2 == b2 && y.s2 <= s2))))
          {
            if f.symmetry[b1][s1] || f.symmetry[b2][s2] {
              PushNoDups(r, AA(b1, s1 + 1, b2, s2 + 1));
              r := r + [AA(b1, s1 + 1, b2, s2 + 1)];
            }
          }
        }
      }
    }
  }

  /** The diagonal block with a pair of symmetries recomputed when either of
      the two changed. */
  method DiagBlock(bodies: seq<Body>, f: Flags, b1: nat) returns (r: seq<Slot>)
    requires Shaped(bodies, f) && b1 < |bodies|
    ensures NoDups(r)
    ensures forall y :: y in r <==> InDiag(bodies, f, b1, y)
  {
    r := [];
    for s1 := 0 to Syms(bodies, b1)
      invariant NoDups(r)
      invariant forall y :: y in r <==> InDiag(bodies, f, b1, y) && y.s1 <= s1
    {
      if f.symmetry[b1][s1] {
        PushNoDups(r, AA(b1, s1 + 1, b1, 0));
        r := r + [AA(b1, s1 + 1, b1, 0)];
      }
      for s2 := 0 to s1
        invariant NoDups(r)
        invariant forall y :: y in r <==> InDiag(bodies, f, b1, y) && (y.s1 <= s1 || (y.s1 == s1 + 1 && y.s2 <= s2))
      {
        if f.symmetry[b1][s1] || f.symmetry[b1][s2] {
          PushNoDups(r, AA(b1, s1 + 1, b1, s2 + 1));
          r := r + [AA(b1, s1 + 1, b1, s2 + 1)];
        }
      }
    }
  }

  method WaterBlock(bodies: seq<Body>, f: Flags, b1: nat) returns (r: seq<Slot>)
    requires Shaped(bodies, f) && b1 < |bodies|
    ensures NoDups(r)
    ensures forall y :: y in r <==> InWater(bodies, f, b1, y)
  {
    r := [];
    if f.external[b1] || f.hydration {
      for s := 0 to Syms(bodies, b1) + 1
        invariant NoDups(r)
        invariant forall y :: y in r <==> InWater(bodies, f, b1, y) && y.s < s
      {
        PushNoDups(r, AW(b1, s));
        r := r + [AW(b1, s)];
      }
    } else {
      for s := 0 to Syms(bodies, b1)
        invariant NoDups(r)
        invariant forall y :: y in r <==> InWater(bodies, f, b1, y) && y.s <= s
      {
        if f.symmetry[b1][s] {
          PushNoDups(r, AW(b1, s + 1));
          r := r + [AW(b1, s + 1)];
        }
      }
    }
  }

  /** One pass of the loop over `ibody1`: its blocks in order. */
  method RowTasks(bodies: seq<Body>, f: Flags, waters: bool, b1: nat) returns (r: seq<Slot>)
    requires Shaped(bodies, f) && b1 < |bodies|
    ensures NoDups(r)
    ensures forall y :: y in r <==> InRow(bodies, f, waters, b1, y)
  {
    r := ExtBlock(bodies, f, b1);
    ghost var lower := !f.external[b1];
    if !f.external[b1] {
      var h := HostBlock(bodies, f, b1);
      var c := CopyBlock(bodies, f, b1);
      assert Apart(r, h) && Apart(r + h, c);
      NoDupsConcat(r, h);
      NoDupsConcat(r + h, c);
      r := r + h + c;
    }
    assert A: forall y :: y in r <==> InExt(bodies, f, b1, y) || (lower && (InHost(bodies, f, b1, y) || InCopy(bodies, f, b1, y)));
    var d := DiagBlock(bodies, f, b1);
    assert Apart(r, d);
    NoDupsConcat(r, d);
    r := r + d;
    var w: seq<Slot> := [];
    if waters {
      w := WaterBlock(bodies, f, b1);
    }
    assert Apart(r, w);
    NoDupsConcat(r, w);
    r := r + w;
    forall y
      ensures y in r <==> InRow(bodies, f, waters, b1, y)
    {
      RowCover(bodies, f, waters, b1, y);
    }
  }

  /** What the combine list holds once the rows below `b1` are done. */
  predicate Planned(bodies: seq<Body>, f: Flags, waters: bool, b1: nat, y: Slot) {
    IsSlot(bodies, y) && Recomputes(bodies, f, waters, y) && (y.WW? || IsSelfSlot(y) || RowOf(y) < b1)
  }

  /** `calculate`'s combine list: the self-correlations of the internally
      changed bodies (the loop calling `calc_aa_self`), the water partial
      when the hydration changed, then the loop over `ibody1`. It lists
      every partial the reference rule selects, and each once. */
  method CombineList(bodies: seq<Body>, f: Flags, waters: bool) returns (plan: seq<Slot>)
    requires Shaped(bodies, f)
    ensures NoDups(plan)
    ensures forall y :: y in plan <==> IsSlot(bodies, y) && Recomputes(bodies, f, waters, y)
  {
    plan := [];
    for b := 0 to |bodies|
      invariant NoDups(plan)
      invariant forall y :: y in plan <==> IsSelfSlot(y) && y.b1 < b && f.internal[y.b1]
    {
      if f.internal[b] {
        PushNoDups(plan, AA(b, 0, b, 0));
        plan := plan + [AA(b, 0, b, 0)];
      }
    }
    if waters && f.hydration {
      PushNoDups(plan, WW);
      plan := plan + [WW];
    }
    for b1 := 0 to |bodies|
      invariant NoDups(plan)
      invariant forall y :: y in plan <==> Planned(bodies, f, waters, b1, y)
    {
      var row := RowTasks(bodies, f, waters, b1);
      assert Apart(plan, row);
      NoDupsConcat(plan, row);
      plan := plan + row;
    }
  }

  // ---- the loops as written ----

  /** The third block as written: the lower bodies that moved are not
      skipped, although all their pairs with `b1` are in the first block. */
  predicate InCopyAsWritten(bodies: seq<Body>, f: Flags, b1: nat, y: Slot) {
    y.AA? && y.b1 == b1 && y.b2 < b1 < |bodies| && 1 <= y.s1 <= Syms(bodies, b1) &&
    y.s2 <= Syms(bodies, y.b2) && (SymChanged(f, b1, y.s1) || SymChanged(f, y.b2, y.s2))
  }

  /** The diagonal block as written: a pair of symmetries of `b1` only when
      the higher of the two changed. */
  predicate InDiagAsWritten(bodies: seq<Body>, f: Flags, b1: nat, y: Slot) {
    y.AA? && y.b1 == b1 && y.b2 == b1 < |bodies| && y.s2 < y.s1 <= Syms(bodies, b1) && SymChanged(f, b1, y.s1)
  }

  /** Row `b1` as written after its first block. */
  predicate InRestAsWritten(bodies: seq<Body>, f: Flags, waters: bool, b1: nat, y: Slot) {
    (!Moved(f, b1) && (InHost(bodies, f, b1, y) || InCopyAsWritten(bodies, f, b1, y))) ||
    InDiagAsWritten(bodies, f, b1, y) || (waters && InWater(bodies, f, b1, y))
  }

  predicate InRowAsWritten(bodies: seq<Body>, f: Flags, waters: bool, b1: nat, y: Slot) {
    InExt(bodies, f, b1, y) || InRestAsWritten(bodies, f, waters, b1, y)
  }

  /** Row by row, the loops as written select no partial the reference rule
      does not, and they miss exactly the pairs of two symmetries of one
      body whose higher symmetry is unchanged while the lower one changed. */
  lemma RowAsWrittenMisses(bodies: seq<Body>, f: Flags, waters: bool, b1: nat, y: Slot)
    requires Shaped(bodies, f) && b1 < |bodies|
    ensures InRowAsWritten(bodies, f, waters, b1, y) ==> InRow(bodies, f, waters, b1, y)
    ensures InRow(bodies, f, waters, b1, y) && !InRowAsWritten(bodies, f, waters, b1, y) <==>
      InDiag(bodies, f, b1, y) && !SymChanged(f, b1, y.s1)
  {
    RowCover(bodies, f, waters, b1, y);
  }

  method CopyBlockAsWritten(bodies: seq<Body>, f: Flags, b1: nat) returns (r: seq<Slot>)
    requires Shaped(bodies, f) && b1 < |bodies|
    ensures forall y :: y in r <==> InCopyAsWritten(bodies, f, b1, y)
  {
    r := [];
    for s1 := 0 to Syms(bodies, b1)
      invariant forall y :: y in r <==> InCopyAsWritten(bodies, f, b1, y) && y.s1 <= s1
    {
      for b2 := 0 to b1
        invariant forall y :: y in r <==>
          InCopyAsWritten(bodies, f, b1, y) && (y.s1 <= s1 || (y.s1 == s1 + 1 && y.b2 < b2))
      {
        if f.symmetry[b1][s1] {
          r := r + [AA(b1, s1 + 1, b2, 0)];
        }
        for s2 := 0 to Syms(bodies, b2)
          invariant forall y :: y in r <==>
            InCopyAsWritten(bodies, f, b1, y) && (y.s1 <= s1 || (y.s1 == s1 + 1 && (y.b2 < b2 || (y.b2 == b2 && y.s2 <= s2))))
        {
          if f.symmetry[b1][s1] || f.symmetry[b2][s2] {
            r := r + [AA(b1, s1 + 1, b2, s2 + 1)];
          }
        }
      }
    }
  }

  method DiagBlockAsWritten(bodies: seq<Body>, f: Flags, b1: nat) returns (r: seq<Slot>)
    requires Shaped(bodies, f) && b1 < |bodies|
    ensures forall y :: y in r <==> InDiagAsWritten(bodies, f, b1, y)
  {
    r := [];
    for s1 := 0 to Syms(bodies, b1)
      invariant forall y :: y in r <==> InDiagAsWritten(bodies, f, b1, y) && y.s1 <= s1
    {
      if f.symmetry[b1][s1] {
        r := r + [AA(b1, s1 + 1, b1, 0)];
        for s2 := 0 to s1
          invariant forall y :: y in r <==>
            InDiagAsWritten(bodies, f, b1, y) && (y.s1 <= s1 || (y.s1 == s1 + 1 && y.s2 <= s2))
        {
          r := r + [AA(b1, s1 + 1, b1, s2 + 1)];
        }
      }
    }
  }

  /** One pass of the loop over `ibody1` as written; `cut` is where its
      first block ends. */
  method RowTasksAsWritten(bodies: seq<Body>, f: Flags, waters: bool, b1: nat) returns (r: seq<Slot>, cut: nat)
    requires Shaped(bodies, f) && b1 < |bodies|
    ensures cut <= |r|
    ensures forall y :: y in r[..cut] <==> InExt(bodies, f, b1, y)
    ensures forall y :: y in r[cut..] <==> InRestAsWritten(bodies, f, waters, b1, y)
  {
    var e := ExtBlock(bodies, f, b1);
    var rest: seq<Slot> := [];
    if !f.external[b1] {
      var h := HostBlock(bodies, f, b1);
      var c := CopyBlockAsWritten(bodies, f, b1);
      rest := h + c;
    }
    var d := DiagBlockAsWritten(bodies, f, b1);
    rest := rest + d;
    if waters {
      var w := WaterBlock(bodies, f, b1);
      rest := rest + w;
    }
    r, cut := e + rest, |e|;
    assert r[..cut] == e && r[cut..] == rest;
  }

  /** `calculate`'s combine list as written: the self-correlations that
      `calc_aa_self` recomputes are never combined, so they never reach
      the partials or the master histogram. */
  method CombineListAsWritten(bodies: seq<Body>, f: Flags, waters: bool) returns (plan: seq<Slot>)
    requires Shaped(bodies, f)
    ensures forall y :: y in plan <==>
      (y.WW? && waters && f.hydration) || (!y.WW? && RowOf(y) < |bodies| && InRowAsWritten(bodies, f, waters, RowOf(y), y))
    ensures forall y :: IsSelfSlot(y) ==> y !in plan
  {
    plan := [];
    if waters && f.hydration {
      plan := plan + [WW];
    }
    for b1 := 0 to |bodies|
      invariant forall y :: y in plan <==>
        (y.WW? && waters && f.hydration) || (!y.WW? && RowOf(y) < b1 && InRowAsWritten(bodies, f, waters, RowOf(y), y))
    {
      var row, cut := RowTasksAsWritten(bodies, f, waters, b1);
      assert row == row[..cut] + row[cut..];
      plan := plan + row;
    }
  }

  /** Two bodies; the lower one moved and the only symmetry of the upper
      one changed. */
  const TwoBodies: seq<Body> := [Body([]), Body([Symmetry(2, false)])]
  const LowerMoved: Flags := Flags([false, false], [true, false], [[], [true]], false)

  /** Row 1 as written lists `AA(1, 1, 0, 0)` twice: once in the first
      block because body 0 moved and again in the third block because the
      symmetry of body 1 changed; the calculator is asked for it twice and
      the combine list moves its result twice. */
  method DuplicateEnqueue() returns (r: seq<Slot>)
    ensures exists i, j :: 0 <= i < j < |r| && r[i] == r[j] == AA(1, 1, 0, 0)
    ensures !NoDups(r)
  {
    var cut;
    r, cut := RowTasksAsWritten(TwoBodies, LowerMoved, false, 1);
    var x := AA(1, 1, 0, 0);
    assert InExt(TwoBodies, LowerMoved, 1, x);
    assert InCopyAsWritten(TwoBodies, LowerMoved, 1, x);
    assert x in r[..cut] && x in r[cut..];
    var i :| 0 <= i < cut && r[..cut][i] == x;
    var j :| 0 <= j < |r| - cut && r[cut..][j] == x;
    assert r[i] == r[cut + j] == x;
  }

  /** One body with two symmetries, of which only the first changed. */
  const OneBody: seq<Body> := [Body([Symmetry(1, false), Symmetry(1, false)])]
  const FirstSymmetryChanged: Flags := Flags([false], [false], [[true, false]], false)

  /** The pair of the body's second and first symmetry must be recomputed,
      since the first changed, but the list as written leaves it out. */
  method DiagonalMiss() returns (plan: seq<Slot>)
    ensures IsSlot(OneBody, AA(0, 2, 0, 1)) && Recomputes(OneBody, FirstSymmetryChanged, false, AA(0, 2, 0, 1))
    ensures AA(0, 2, 0, 1) !in plan
  {
    plan := CombineListAsWritten(OneBody, FirstSymmetryChanged, false);
  }

  /** One body without symmetries whose atoms changed. */
  const OneBare: seq<Body> := [Body([])]
  const AtomsChanged: Flags := Flags([true], [false], [[]], false)

  /** The body's self-correlation must be recomputed and combined, but the
      list as written leaves it out. */
  method SelfNeverCombined() returns (plan: seq<Slot>)
    ensures IsSlot(OneBare, AA(0, 0, 0, 0)) && Recomputes(OneBare, AtomsChanged, false, AA(0, 0, 0, 0))
    ensures AA(0, 0, 0, 0) !in plan
  {
    plan := CombineListAsWritten(OneBare, AtomsChanged, false);
  }
}
