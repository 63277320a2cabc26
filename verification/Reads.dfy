/** Reads under an element mask and under a what-if overlay, related to plain reads. */
module Reads {
  import opened FixedPoint
  import opened CubeModel
  import opened Rollups
  import opened Semantics
  import opened Evaluation
  import opened Sparse
  import opened Gate

  /** Two registries that compute every single cell alike, whatever the cells they consult
      are worth. */
  ghost predicate SameStep(a: Env, b: Env)
    requires EnvOk(a) && EnvOk(b)
  {
    Universe(a) == Universe(b) && forall rd: Reader, c :: Compute(a, rd, c) == Compute(b, rd, c)
  }

  lemma {:induction false} SameStepSameEval(a: Env, b: Env, stack: set<Cell>, c: Cell)
    requires EnvOk(a) && EnvOk(b) && SameStep(a, b)
    ensures Eval(a, stack, c) == Eval(b, stack, c)
    decreases Universe(a) - stack
  {
    hide Eval, EnvOk, Universe, Compute, Under;
    EvalUnfold(a, stack, c);
    EvalUnfold(b, stack, c);
    if c !in stack {
      var ra, rb := Under(a, stack + {c}), Under(b, stack + {c});
      forall e | e in Compute(a, ra, c).log
        ensures ra(e) == rb(e)
      {
        if c !in Universe(a) { OutsideConsultsNothing(a, ra, c); }
        OneFewer(Universe(a), stack, c);
        SameStepSameEval(a, b, stack + {c}, e);
        UnderIs(a, stack + {c}, e);
        UnderIs(b, stack + {c}, e);
      }
      ComputeExt(a, ra, rb, c);
    }
  }

  /** Registries of one shape, neither reading sparsely, compute alike where they agree on
      the leaves the mask lets through. */
  lemma SameLeavesSameStep(a: Env, b: Env)
    requires EnvOk(a) && EnvOk(b) && SameShape(a.entries, b.entries) && a.mask == b.mask
    requires forall o :: 0 <= o < |a.entries| ==> !TakesSparse(a, o) && !TakesSparse(b, o)
    requires forall c :: Visible(a, c) && AllLeaf(a.entries[c.cube].cube.dims, c.coord) ==>
               LeafValue(a, c) == LeafValue(b, c)
    ensures SameStep(a, b)
  {
    hide RunExpr, RunSum, DenseItems, SparseItems, ExprOk, CubeOk, LeafValue, AllLeaf, Denies, CheckedProduct;
    forall rd: Reader, c
      ensures Compute(a, rd, c) == Compute(b, rd, c)
    {
      if c.cube < |a.entries| {
        assert EntryOk(a.entries, c.cube) && EntryOk(b.entries, c.cube);
        var rules := RulesOf(a.entries[c.cube]);
        var m := FirstMatch(rules, a.entries[c.cube].cube.dims, c.coord);
        if m.Some? {
          ExprShape(rd, a.entries, b.entries, c.cube, rules[m.value].expr);
        }
      }
    }
    SameUniverse(a, b);
  }

  lemma SameUniverse(a: Env, b: Env)
    requires SameShape(a.entries, b.entries)
    ensures Universe(a) == Universe(b)
  {}

  // ---------------------------------------------------------------- masks

  predicate Visible(env: Env, c: Cell) {
    c.cube < |env.entries| && !Denied(env, c)
  }

  /** What a masked read returns, error or value, does not depend on anything stored, or laid
      over, at a denied coordinate. */
  lemma MaskedReadsIgnoreDenied(a: Env, b: Env, c: Cell)
    requires EnvOk(a) && EnvOk(b) && SameShape(a.entries, b.entries)
    requires a.mask.Some? && a.mask == b.mask
    requires forall e :: Visible(a, e) ==> LeafValue(a, e) == LeafValue(b, e)
    ensures Eval(a, {}, c) == Eval(b, {}, c)
  {
    hide EnvOk, Eval, SameStep, LeafValue;
    SameLeavesSameStep(a, b);
    SameStepSameEval(a, b, {}, c);
  }

  function Unmasked(env: Env): Env {
    Dense(env).(mask := None)
  }

  lemma UnmaskedOk(env: Env)
    requires EnvOk(env)
    ensures EnvOk(Unmasked(env)) && Universe(Unmasked(env)) == Universe(env)
    ensures SameShape(env.entries, Unmasked(env).entries)
    ensures Unmasked(env) == Dense(View(env, env.overlay, None))
  {
    DenseEnv(env);
    forall o | 0 <= o < |env.entries|
      ensures EntryOk(Unmasked(env).entries, o)
    {
      assert EntryOk(Dense(env).entries, o);
    }
  }

  /** One cell: the mask denies it, or it is computed as if there were none. */
  lemma MaskedStep(env: Env, rd: Reader, c: Cell)
    requires EnvOk(env) && env.mask.Some? && EnvOk(Unmasked(env))
    ensures Compute(env, rd, c) ==
            if Denied(env, c) then Run(Err(AccessDenied), []) else Compute(Unmasked(env), rd, c)
  {
    hide RunExpr, RunSum, DenseItems, SparseItems, ExprOk, CubeOk, LeafValue, AllLeaf, Denies, CheckedProduct;
    UnmaskedOk(env);
    var u := Unmasked(env);
    if c.cube < |env.entries| {
      assert EntryOk(env.entries, c.cube) && EntryOk(u.entries, c.cube);
      assert LeafValue(env, c) == LeafValue(u, c) by { SameLeafValue(env, c); }
      var rules := RulesOf(env.entries[c.cube]);
      var m := FirstMatch(rules, env.entries[c.cube].cube.dims, c.coord);
      if m.Some? {
        ExprShape(rd, env.entries, u.entries, c.cube, rules[m.value].expr);
      }
    }
  }

  lemma SameLeafValue(env: Env, c: Cell)
    requires c.cube < |env.entries|
    ensures LeafValue(env, c) == LeafValue(Unmasked(env), c)
  {}

  /** A mask denies a read or leaves it alone: it never turns one answer into another. */
  lemma {:induction false} MaskDeniesOrAgrees(env: Env, stack: set<Cell>, c: Cell)
    requires EnvOk(env) && env.mask.Some? && EnvOk(Unmasked(env))
    ensures Eval(env, stack, c) == Err(AccessDenied) || Eval(env, stack, c) == Eval(Unmasked(env), stack, c)
    decreases Universe(env) - stack
  {
    hide Eval, EnvOk, Universe, Compute, Under, Unmasked;
    var u := Unmasked(env);
    UnmaskedOk(env);
    EvalUnfold(env, stack, c);
    EvalUnfold(u, stack, c);
    if c !in stack {
      var ra, rb := Under(env, stack + {c}), Under(u, stack + {c});
      ComputeErrors(env, ra, c);
      forall e | e in Compute(env, ra, c).log
        ensures ra(e) == Err(AccessDenied) || ra(e) == rb(e)
      {
        if c !in Universe(env) { OutsideConsultsNothing(env, ra, c); }
        OneFewer(Universe(env), stack, c);
        MaskDeniesOrAgrees(env, stack + {c}, e);
        UnderIs(env, stack + {c}, e);
        UnderIs(u, stack + {c}, e);
      }
      if Compute(env, ra, c).res != Err(AccessDenied) {
        NotDeniedBelow(ra, Compute(env, ra, c));
        ComputeExt(env, ra, rb, c);
        MaskedStep(env, rb, c);
      }
    }
  }

  /** `path` follows the cells the masked evaluation consults, none of them hidden, to a hidden one. */
  ghost predicate LeadsToDenied(env: Env, stack: set<Cell>, c: Cell, path: seq<Cell>)
    requires EnvOk(env)
    decreases |path|
  {
    && |path| > 0 && path[0] == c && c !in stack
    && (|path| == 1 <==> Denied(env, c))
    && (|path| > 1 ==>
          path[1] in Compute(env, Under(env, stack + {c}), c).log
          && LeadsToDenied(env, stack + {c}, path[1], path[1..]))
  }

  /** A read is denied exactly when the cells it consults lead to one the mask hides. */
  lemma DeniedIffLeadsThere(env: Env, stack: set<Cell>, c: Cell)
    requires EnvOk(env)
    ensures Eval(env, stack, c) == Err(AccessDenied) <==> exists path :: LeadsToDenied(env, stack, c, path)
  {
    hide Eval, EnvOk, LeadsToDenied;
    if Eval(env, stack, c) == Err(AccessDenied) {
      var path := DeniedPath(env, stack, c);
    }
    forall path | LeadsToDenied(env, stack, c, path)
      ensures Eval(env, stack, c) == Err(AccessDenied)
    {
      PathDenies(env, stack, c, path);
    }
  }

  lemma {:induction false} DeniedPath(env: Env, stack: set<Cell>, c: Cell) returns (path: seq<Cell>)
    requires EnvOk(env) && Eval(env, stack, c) == Err(AccessDenied)
    ensures LeadsToDenied(env, stack, c, path)
    decreases Universe(env) - stack
  {
    hide Compute, EnvOk, Eval, Universe, Under, Denied, LeadsToDenied;
    EvalUnfold(env, stack, c);
    if Denied(env, c) {
      path := [c];
      EndsDenied(env, stack, c);
    } else {
      var e := LastDenied(env, stack, c);
      OneFewer(Universe(env), stack, c);
      var rest := DeniedPath(env, stack + {c}, e);
      path := [c] + rest;
      LeadsOn(env, stack, c, e, rest);
    }
  }

  lemma EndsDenied(env: Env, stack: set<Cell>, c: Cell)
    requires EnvOk(env) && Denied(env, c) && c !in stack
    ensures LeadsToDenied(env, stack, c, [c])
  {
    hide EnvOk, Compute, Under, Denied;
  }

  lemma LeadsOn(env: Env, stack: set<Cell>, c: Cell, e: Cell, rest: seq<Cell>)
    requires EnvOk(env) && !Denied(env, c) && c !in stack
    requires e in Compute(env, Under(env, stack + {c}), c).log && LeadsToDenied(env, stack + {c}, e, rest)
    ensures LeadsToDenied(env, stack, c, [c] + rest)
  {
    hide EnvOk, Compute, Under, Denied;
    assert ([c] + rest)[1..] == rest;
  }

  /** The cell a denied evaluation had come to. */
  lemma LastDenied(env: Env, stack: set<Cell>, c: Cell) returns (e: Cell)
    requires EnvOk(env) && c !in stack && !Denied(env, c) && Eval(env, stack, c) == Err(AccessDenied)
    ensures c in Universe(env) && e in Compute(env, Under(env, stack + {c}), c).log
    ensures Eval(env, stack + {c}, e) == Err(AccessDenied)
  {
    hide Compute, EnvOk, Eval, Universe, Under, Denied;
    EvalUnfold(env, stack, c);
    var rd := Under(env, stack + {c});
    ComputeErrors(env, rd, c);
    var log := Compute(env, rd, c).log;
    e := log[|log| - 1];
    UnderIs(env, stack + {c}, e);
    if c !in Universe(env) { OutsideConsultsNothing(env, rd, c); }
  }

  lemma {:induction false} PathDenies(env: Env, stack: set<Cell>, c: Cell, path: seq<Cell>)
    requires EnvOk(env) && LeadsToDenied(env, stack, c, path)
    ensures Eval(env, stack, c) == Err(AccessDenied)
    decreases |path|
  {
    hide Compute, EnvOk, Eval, Universe, Under, Denied;
    EvalUnfold(env, stack, c);
    var rd := Under(env, stack + {c});
    ComputeErrors(env, rd, c);
    if |path| > 1 {
      UnderIs(env, stack + {c}, path[1]);
      PathDenies(env, stack + {c}, path[1], path[1..]);
    }
  }

  lemma NotDeniedBelow(rd: Reader, run: Run<Fixed>)
    requires ErrorsLast(rd, run) && run.res != Err(AccessDenied)
    ensures forall e :: e in run.log ==> rd(e) != Err(AccessDenied)
  {
    forall e | e in run.log
      ensures rd(e) != Err(AccessDenied)
    {
      var i :| 0 <= i < |run.log| && run.log[i] == e;
    }
  }

  /** So an answer a masked caller gets is the answer anyone gets, sparse rollups included. */
  lemma MaskedAnswerIsTheAnswer(env: Env, mask: Mask, overlay: Option<Overlay>, c: Cell)
    requires EnvOk(env) && Licensed(env) && (overlay.Some? ==> overlay.value.scope != 0)
    ensures EnvOk(View(env, overlay, Some(mask))) && EnvOk(View(env, overlay, None))
    ensures Eval(View(env, overlay, Some(mask)), {}, c) != Err(AccessDenied) ==>
              Eval(View(env, overlay, Some(mask)), {}, c) == Eval(View(env, overlay, None), {}, c)
  {
    hide EnvOk, Licensed, Eval, Base, Universe;
    ViewOk(env, overlay, Some(mask));
    ViewOk(env, overlay, None);
    UnmaskedOk(View(env, overlay, Some(mask)));
    MaskDeniesOrAgrees(View(env, overlay, Some(mask)), {}, c);
    GatedReadsAreDense(env, overlay, None, c);
    assert Unmasked(View(env, overlay, Some(mask))) == Dense(View(env, overlay, None));
  }

  // ---------------------------------------------------------------- what-if overlays

  /** `after` is `before` with the overlay's leaves stored, in whatever order and with whatever
      licenses its new contents earn. */
  ghost predicate Committed(before: Env, overlay: Overlay, after: Env)
    requires EnvOk(before) && EnvOk(after)
  {
    && SameShape(before.entries, after.entries)
    && before.overlay.None? && after.overlay.None? && before.mask.None? && after.mask.None?
    && forall o, c :: 0 <= o < |before.entries| && AllLeaf(before.entries[o].cube.dims, c) ==>
         Stored(after.entries[o].cube, c) ==
         if o == overlay.target && c in overlay.cells then overlay.cells[c] else Stored(before.entries[o].cube, c)
  }

  lemma SameCommittedLeaf(before: Env, overlay: Overlay, after: Env, mask: Option<Mask>, x: Cell)
    requires EnvOk(before) && EnvOk(after) && Committed(before, overlay, after)
    requires x.cube < |before.entries| && AllLeaf(before.entries[x.cube].cube.dims, x.coord)
    ensures LeafValue(View(before, Some(overlay), mask), x) == LeafValue(Dense(View(after, None, mask)), x)
  {}

  /** Asking "what if" answers every cell as committing the same leaves would, through rules,
      rollups and leaves a rule shadows, even where the committed registry reads sparsely. */
  lemma WhatIfIsCommit(before: Env, overlay: Overlay, after: Env, mask: Option<Mask>, c: Cell)
    requires EnvOk(before) && EnvOk(after) && Licensed(after) && overlay.scope != 0
    requires Committed(before, overlay, after)
    ensures EnvOk(View(before, Some(overlay), mask)) && EnvOk(View(after, None, mask))
    ensures Eval(View(before, Some(overlay), mask), {}, c) == Eval(View(after, None, mask), {}, c)
  {
    ViewOk(before, Some(overlay), mask);
    ViewOk(after, None, mask);
    DenseEnv(View(after, None, mask));
    var whatIf, dense := View(before, Some(overlay), mask), Dense(View(after, None, mask));
    hide EnvOk, Licensed, Eval, Universe, SameStep, AllLeaf, LeafValue, Denies, Stored;
    forall o | 0 <= o < |whatIf.entries|
      ensures whatIf.entries[o].cube.dims == dense.entries[o].cube.dims
                && whatIf.entries[o].rules == dense.entries[o].rules
    {}
    forall x | Visible(whatIf, x) && AllLeaf(whatIf.entries[x.cube].cube.dims, x.coord)
      ensures LeafValue(whatIf, x) == LeafValue(dense, x)
    {
      SameCommittedLeaf(before, overlay, after, mask, x);
    }
    SameLeavesSameStep(whatIf, dense);
    SameStepSameEval(whatIf, dense, {}, c);
    GatedReadsAreDense(after, None, mask, c);
  }

  /** Storing leaves one by one, as a commit or a test fixture does; zero clears a cell. */
  method StoreLeaves(cube: Cube, leaves: map<Coord, Fixed>) returns (r: Cube)
    requires CubeOk(cube) && forall c :: c in leaves ==> AllLeaf(cube.dims, c)
    ensures CubeOk(r) && r.dims == cube.dims && r.name == cube.name
    ensures forall c :: Stored(r, c) == if c in leaves then leaves[c] else Stored(cube, c)
  {
    r := cube;
    var todo := leaves;
    while todo != map[]
      invariant CubeOk(r) && r.dims == cube.dims && r.name == cube.name
      invariant todo.Keys <= leaves.Keys && forall c :: c in todo ==> todo[c] == leaves[c]
      invariant forall c :: Stored(r, c) == if c in leaves && c !in todo then leaves[c] else Stored(cube, c)
      decreases |todo|
    {
      assert todo.Keys != {};
      var c :| c in todo.Keys;
      r := SetLeaf(r, c, todo[c]);
      assert |todo - {c}| < |todo| by {
        assert (todo - {c}).Keys == todo.Keys - {c};
      }
      todo := todo - {c};
    }
  }

  method SetLeaf(cube: Cube, c: Coord, v: Fixed) returns (r: Cube)
    requires CubeOk(cube) && AllLeaf(cube.dims, c)
    ensures CubeOk(r) && r.dims == cube.dims && r.name == cube.name
    ensures forall x :: Stored(r, x) == if x == c then v else Stored(cube, x)
  {
    if v == 0 {
      r := cube.(cells := cube.cells - {c}, scan := Without(cube.scan, c));
    } else {
      r := cube.(cells := cube.cells[c := v], scan := if c in cube.cells then cube.scan else cube.scan + [c]);
    }
  }

  function Without(s: seq<Coord>, c: Coord): (r: seq<Coord>)
    ensures forall x :: x in r <==> x in s && x != c
  {
    if s == [] then [] else (if s[0] == c then [] else [s[0]]) + Without(s[1..], c)
  }
}
