/** The capping procedure as it runs: nested loops over a dictionary of weights, in whatever order it lists its keys. */
module HardCapsLoops {
  import opened Common
  import opened Sums
  import opened HardCaps

  /** One key less to add. */
  lemma LeftToAdd(m: Weights, left: set<Symbol>, s: Symbol)
    requires s in m && s in left
    ensures Total(Within(m, left)) == m[s] + Total(Within(m, left - {s}))
  {
    TotalSplit(Within(m, left), s);
    assert Within(m, left) - {s} == Within(m, left - {s});
  }

  lemma AllAndNothing(m: Weights)
    ensures Within(m, m.Keys) == m && Total(Within(m, {})) == 0.0
  {
    assert Within(m, {}) == map[];
  }

  method ClipEach(w: Weights, cap: real, tol: real) returns (after: Weights, excess: real, over: set<Symbol>)
    ensures after == Clipped(w, cap, tol) && excess == Total(ClippedOff(w, cap, tol)) && over == ClipSet(w, cap, tol)
  {
    after, excess, over := w, 0.0, {};
    ghost var off := ClippedOff(w, cap, tol);
    AllAndNothing(off);
    assert off.Keys == w.Keys;
    var left := w.Keys;
    while left != {}
      invariant left <= w.Keys == after.Keys
      invariant forall s :: s in w ==> after[s] == if s in left then w[s] else Clipped(w, cap, tol)[s]
      invariant forall s :: s in over <==> s in w && s !in left && w[s] > cap + tol
      invariant excess + Total(Within(off, left)) == Total(off)
      decreases |left|
    {
      var s :| s in left;
      LeftToAdd(off, left, s);
      if w[s] > cap + tol {
        excess := excess + (w[s] - cap);
        after := after[s := cap];
        over := over + {s};
      }
      left := left - {s};
    }
  }

  method SumWithin(w: Weights, to: set<Symbol>) returns (total: real)
    requires to <= w.Keys
    ensures total == Total(Within(w, to))
  {
    total := 0.0;
    AllAndNothing(w);
    var left := to;
    while left != {}
      invariant left <= to
      invariant total + Total(Within(w, left)) == Total(Within(w, to))
      decreases |left|
    {
      var s :| s in left;
      LeftToAdd(w, left, s);
      total := total + w[s];
      left := left - {s};
    }
  }

  method SpreadInto(w: Weights, amount: real, to: set<Symbol>) returns (after: Weights)
    requires to <= w.Keys
    ensures after == Spread(w, amount, to)
  {
    after := w;
    if amount > LOOP_TOLERANCE {
      var total := SumWithin(w, to);
      if total > LOOP_TOLERANCE {
        var left := to;
        while left != {}
          invariant left <= to && after.Keys == w.Keys
          invariant forall s :: s in w ==>
                      after[s] == if s in to && s !in left then w[s] + Times(amount, w[s] / total) else w[s]
          decreases |left|
        {
          var s :| s in left;
          after := after[s := after[s] + Times(amount, after[s] / total)];
          left := left - {s};
        }
      }
    }
  }

  function OfClass(w: Weights, classes: Classes, c: AssetClass): set<Symbol> {
    set s | s in w && s in classes && classes[s] == c
  }

  lemma ClassLeft(w: Weights, classes: Classes, left: set<Symbol>, s: Symbol, c: AssetClass)
    requires s in left && s in w
    ensures ClassTotal(Within(w, left), classes, c)
         == ClassTotal(Within(w, left - {s}), classes, c) + (if s in OfClass(w, classes, c) then w[s] else 0.0)
  {
    var before, after := Members(Within(w, left), classes, c), Members(Within(w, left - {s}), classes, c);
    if s in OfClass(w, classes, c) {
      TotalSplit(before, s);
      assert before - {s} == after;
    } else {
      assert before == after;
    }
  }

  method TotalsByClass(w: Weights, classes: Classes) returns (totals: map<AssetClass, real>)
    ensures forall c :: c in totals ==> totals[c] == ClassTotal(w, classes, c)
    ensures forall s :: s in w && s in classes ==> classes[s] in totals
  {
    totals := map[];
    AllAndNothing(w);
    var left := w.Keys;
    while left != {}
      invariant left <= w.Keys
      invariant forall s :: s in w && s in classes && s !in left ==> classes[s] in totals
      invariant forall c :: Counted(totals, c) + ClassTotal(Within(w, left), classes, c) == ClassTotal(w, classes, c)
      decreases |left|
    {
      var s :| s in left;
      forall c
        ensures ClassTotal(Within(w, left), classes, c)
             == ClassTotal(Within(w, left - {s}), classes, c) + (if s in OfClass(w, classes, c) then w[s] else 0.0)
      {
        ClassLeft(w, classes, left, s, c);
      }
      if s in classes {
        totals := totals[classes[s] := Counted(totals, classes[s]) + w[s]];
      }
      left := left - {s};
    }
    forall c
      ensures ClassTotal(Within(w, {}), classes, c) == 0.0
    {
      assert Members(Within(w, {}), classes, c) == map[];
    }
  }

  function Counted(totals: map<AssetClass, real>, c: AssetClass): real {
    if c in totals then totals[c] else 0.0
  }

  /** Members of one class are scaled; what that takes away is counted. */
  method ScaleClass(w: Weights, classes: Classes, c: AssetClass, scale: real) returns (after: Weights, taken: real)
    ensures after == map s | s in w :: if s in OfClass(w, classes, c) then Times(w[s], scale) else w[s]
    ensures taken == Total(w) - Total(after)
  {
    after, taken := w, 0.0;
    var left := w.Keys;
    while left != {}
      invariant left <= w.Keys == after.Keys
      invariant forall s :: s in w ==>
                  after[s] == if s !in left && s in OfClass(w, classes, c) then Times(w[s], scale) else w[s]
      invariant taken == Total(w) - Total(after)
      decreases |left|
    {
      var s :| s in left;
      if s in classes && classes[s] == c {
        var scaled := Times(w[s], scale);
        TotalUpdate(after, s, scaled);
        taken := taken + (w[s] - scaled);
        after := after[s := scaled];
      }
      left := left - {s};
    }
  }

  /** The classes in `left` are still to be visited. */
  ghost predicate ScaledExcept(w: Weights, after: Weights, over: set<Symbol>, classes: Classes, cap: real, tol: real,
                               left: set<AssetClass>) {
    && after.Keys == w.Keys
    && (forall s :: s in w ==>
          after[s] == if s in classes && classes[s] !in left then ScaledDown(w, classes, cap, tol)[s] else w[s])
    && (forall s :: s in over <==> ClassOver(w, classes, s, cap, tol) && classes[s] !in left)
  }

  ghost function OneClassScaled(w: Weights, classes: Classes, c: AssetClass, total: real, cap: real, tol: real): Weights
    requires cap > 0.0 && tol >= 0.0
  {
    if total > cap + tol then map s | s in w :: if s in OfClass(w, classes, c) then Times(w[s], cap / total) else w[s]
    else w
  }

  lemma OneClassMore(w: Weights, before: Weights, after: Weights, over: set<Symbol>, classes: Classes, cap: real,
                     tol: real, left: set<AssetClass>, c: AssetClass)
    requires ScaledExcept(w, before, over, classes, cap, tol, left) && c in left && cap > 0.0 && tol >= 0.0
    requires after == OneClassScaled(before, classes, c, ClassTotal(w, classes, c), cap, tol)
    ensures ScaledExcept(w, after,
                         over + (if ClassTotal(w, classes, c) > cap + tol then OfClass(w, classes, c) else {}),
                         classes, cap, tol, left - {c})
  {
  }

  method ScaleOver(w: Weights, classes: Classes, cap: real, tol: real)
    returns (after: Weights, taken: real, over: set<Symbol>)
    requires cap > 0.0 && tol >= 0.0
    ensures after == ScaledDown(w, classes, cap, tol) && over == OverSet(w, classes, cap, tol)
    ensures taken == Total(w) - Total(after)
  {
    var totals := TotalsByClass(w, classes);
    after, taken, over := w, 0.0, {};
    var left := totals.Keys;
    while left != {}
      invariant left <= totals.Keys
      invariant ScaledExcept(w, after, over, classes, cap, tol, left)
      invariant taken == Total(w) - Total(after)
      decreases |left|
    {
      var c :| c in left;
      var more, members;
      ghost var before, overBefore := after, over;
      after, more, members := ScaleIfOver(w, after, classes, c, totals[c], cap, tol);
      OneClassMore(w, before, after, overBefore, classes, cap, tol, left, c);
      taken := taken + more;
      over := over + members;
      left := left - {c};
    }
    AllScaled(w, after, over, classes, cap, tol);
  }

  lemma AllScaled(w: Weights, after: Weights, over: set<Symbol>, classes: Classes, cap: real, tol: real)
    requires ScaledExcept(w, after, over, classes, cap, tol, {})
    ensures after == ScaledDown(w, classes, cap, tol) && over == OverSet(w, classes, cap, tol)
  {
  }

  method ScaleIfOver(w: Weights, now: Weights, classes: Classes, c: AssetClass, total: real, cap: real, tol: real)
    returns (after: Weights, taken: real, members: set<Symbol>)
    requires now.Keys == w.Keys && total == ClassTotal(w, classes, c) && cap > 0.0 && tol >= 0.0
    ensures after == OneClassScaled(now, classes, c, total, cap, tol)
    ensures taken == Total(now) - Total(after)
    ensures members == if total > cap + tol then OfClass(w, classes, c) else {}
  {
    after, taken, members := now, 0.0, {};
    if total > cap + tol {
      after, taken := ScaleClass(now, classes, c, cap / total);
      members := OfClass(w, classes, c);
    }
  }

  method CapRound(w: Weights, classes: Classes, caps: Caps) returns (after: Weights, noted: set<Symbol>, changed: bool)
    requires caps.Valid()
    ensures Round(after, noted, changed) == OneRound(w, classes, caps)
  {
    var filled, overCap := ClipAndSpread(w, caps);
    var overClass;
    after, overClass := ScaleAndSpread(filled, classes, caps);
    noted := overCap + overClass;
    changed := overCap != {} || overClass != {};
  }

  method ClipAndSpread(w: Weights, caps: Caps) returns (after: Weights, over: set<Symbol>)
    ensures after == ClippedAndSpread(w, caps) && over == ClipSet(w, caps.perEtf, LOOP_TOLERANCE)
  {
    var excess;
    after, excess, over := ClipEach(w, caps.perEtf, LOOP_TOLERANCE);
    after := SpreadInto(after, excess, Room(after, caps.perEtf, {}));
  }

  method ScaleAndSpread(w: Weights, classes: Classes, caps: Caps) returns (after: Weights, over: set<Symbol>)
    requires caps.Valid()
    ensures after == ScaledAndSpread(w, classes, caps) && over == OverSet(w, classes, caps.perClass, LOOP_TOLERANCE)
  {
    var excess;
    after, excess, over := ScaleOver(w, classes, caps.perClass, LOOP_TOLERANCE);
    after := SpreadInto(after, excess, Room(after, caps.perEtf, over));
  }

  method RunRounds(raw: Weights, classes: Classes, caps: Caps)
    returns (weights: Weights, noted: set<Symbol>, changed: bool)
    requires caps.Valid()
    ensures Round(weights, noted, changed) == Rounds(raw, {}, classes, caps, MaxRounds(raw))
  {
    weights, noted, changed := raw, {}, true;
    ghost var goal := Rounds(raw, {}, classes, caps, MaxRounds(raw));
    var rounds := MaxRounds(raw);
    while rounds > 0
      invariant goal == Rounds(weights, noted, classes, caps, rounds)
      invariant changed
      decreases rounds
    {
      weights, noted, changed := NextRound(weights, noted, classes, caps, rounds, goal);
      rounds := rounds - 1;
      if !changed {
        break;
      }
    }
  }

  method NextRound(w: Weights, before: set<Symbol>, classes: Classes, caps: Caps, ghost left: nat, ghost goal: Round)
    returns (after: Weights, noted: set<Symbol>, changed: bool)
    requires caps.Valid() && left > 0 && goal == Rounds(w, before, classes, caps, left)
    ensures goal == if changed then Rounds(after, noted, classes, caps, left - 1) else Round(after, noted, false)
  {
    var more;
    after, more, changed := CapRound(w, classes, caps);
    noted := before + more;
    OneRoundMore(w, before, classes, caps, left, Round(after, more, changed));
  }

  lemma OneRoundMore(w: Weights, noted: set<Symbol>, classes: Classes, caps: Caps, n: nat, r: Round)
    requires n > 0 && r == OneRound(w, classes, caps)
    ensures Rounds(w, noted, classes, caps, n)
         == if r.changed then Rounds(r.weights, noted + r.noted, classes, caps, n - 1)
            else Round(r.weights, noted + r.noted, false)
  {
    RoundsStep(w, noted, classes, caps, n);
    assert !r.changed ==> noted + r.noted == noted;
  }

  method ApplyHardCaps(raw: Weights, classes: Classes, caps: Caps) returns (weights: Weights, noted: set<Symbol>)
    requires caps.Valid()
    ensures weights == Capped(raw, classes, caps).weights && noted == Capped(raw, classes, caps).noted
  {
    var changed;
    weights, noted, changed := RunRounds(raw, classes, caps);
    weights, noted := ClampBoth(weights, noted, classes, caps, changed);
  }

  method ClampBoth(w: Weights, before: set<Symbol>, classes: Classes, caps: Caps, ghost changed: bool)
    returns (after: Weights, noted: set<Symbol>)
    requires caps.Valid()
    ensures Round(after, noted, changed) == Clamped(Round(w, before, changed), classes, caps)
  {
    var over, overClass, taken;
    after, taken, over := ClipEach(w, caps.perEtf, CLAMP_TOLERANCE);
    after, taken, overClass := ScaleOver(after, classes, caps.perClass, CLAMP_TOLERANCE);
    noted := before + (over + overClass);
  }

  method KeepHeld(weights: Weights) returns (targets: Weights, invested: real)
    ensures targets == Held(weights) && invested == Total(targets)
  {
    targets, invested := map[], 0.0;
    var left := weights.Keys;
    while left != {}
      invariant left <= weights.Keys
      invariant forall s :: s in targets <==> s in weights && s !in left && weights[s] > LOOP_TOLERANCE
      invariant forall s :: s in targets ==> targets[s] == weights[s]
      invariant invested == Total(targets)
      decreases |left|
    {
      var s :| s in left;
      if weights[s] > LOOP_TOLERANCE {
        TotalUpdate(targets, s, weights[s]);
        targets := targets[s := weights[s]];
        invested := invested + weights[s];
      }
      left := left - {s};
    }
  }

  /** The proposal keeps the weights worth holding; the reserve is whatever they leave. */
  method Propose(raw: Weights, classes: Classes, caps: Caps) returns (targets: Weights, reserve: real)
    requires caps.Valid()
    ensures targets == Held(Capped(raw, classes, caps).weights)
    ensures reserve == Reserve(Capped(raw, classes, caps).weights)
  {
    var weights, noted := ApplyHardCaps(raw, classes, caps);
    var invested;
    targets, invested := KeepHeld(weights);
    reserve := if 1.0 - invested > 0.0 then 1.0 - invested else 0.0;
  }
}
