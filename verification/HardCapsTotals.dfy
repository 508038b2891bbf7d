/** What capping does to the total weight: what is spread is kept, and exactly when some of it is left to cash. */
module HardCapsTotals {
  import opened Common
  import opened Sums
  import opened HardCaps

  // ---- Spreading ----

  /** The weights that may take a share are worth sharing among. */
  ghost predicate CanTake(w: Weights, to: set<Symbol>) {
    Total(Within(w, to)) > LOOP_TOLERANCE
  }

  /** Two weights that both take a share keep their ratio. */
  predicate SameRatio(w: Weights, v: Weights, s: Symbol, t: Symbol)
    requires s in w && t in w && w.Keys == v.Keys
  {
    Times(v[s], w[t]) == Times(v[t], w[s])
  }

  lemma RatioKept(x: real, y: real, amount: real, total: real)
    requires total != 0.0
    ensures Times(x + Times(amount, x / total), y) == Times(y + Times(amount, y / total), x)
  {
    ShareCommutes(amount, x, total);
    ShareCommutes(amount, y, total);
    var share := amount / total;
    assert (x + x * share) * y == (y + y * share) * x;
  }

  lemma SpreadSum(w: Weights, amount: real, to: set<Symbol>)
    requires amount > LOOP_TOLERANCE && CanTake(w, to)
    ensures Total(Spread(w, amount, to)) == Total(w) + amount
  {
    var total := Total(Within(w, to));
    var shares := Shares(w, amount, total, to);
    TotalAdd(w, shares, Spread(w, amount, to));
    TotalIgnoresZeros(shares, to);
    forall s | s in w && s in to
      ensures shares[s] == Times(Within(w, to)[s], amount / total)
    {
      ShareCommutes(amount, w[s], total);
    }
    assert (map s | s in shares && s in to :: shares[s]) == Scaled(Within(w, to), amount / total);
    TotalScale(Within(w, to), amount / total);
    WholeShare(amount, total);
  }

  /**
   * Where there is an amount to share and weight to take it, spreading adds exactly the amount, keeps the ratios of
   * those that take it and leaves the others alone; otherwise it changes nothing.
   */
  lemma SpreadExact(w: Weights, amount: real, to: set<Symbol>)
    ensures var v := Spread(w, amount, to);
            && v.Keys == w.Keys && (forall s :: s in w && s !in to ==> v[s] == w[s])
            && if amount > LOOP_TOLERANCE && CanTake(w, to) then
                 && Total(v) == Total(w) + amount
                 && forall s, t :: s in w && t in w && s in to && t in to ==> SameRatio(w, v, s, t)
               else v == w
  {
    if amount > LOOP_TOLERANCE && CanTake(w, to) {
      SpreadSum(w, amount, to);
      forall s, t | s in w && t in w && s in to && t in to
        ensures SameRatio(w, Spread(w, amount, to), s, t)
      {
        RatioKept(w[s], w[t], amount, Total(Within(w, to)));
      }
    }
  }

  lemma SpreadTotal(w: Weights, amount: real, to: set<Symbol>)
    ensures Total(Spread(w, amount, to))
         == if amount > LOOP_TOLERANCE && CanTake(w, to) then Total(w) + amount else Total(w)
  {
    if amount > LOOP_TOLERANCE && CanTake(w, to) {
      SpreadSum(w, amount, to);
    }
  }

  // ---- One round ----

  /** Something is over the per-ETF cap and no weight below it can take the excess. */
  ghost predicate WastesClip(w: Weights, caps: Caps) {
    var clipped := Clipped(w, caps.perEtf, LOOP_TOLERANCE);
    ClipSet(w, caps.perEtf, LOOP_TOLERANCE) != {} && !CanTake(clipped, Room(clipped, caps.perEtf, {}))
  }

  /** Some class is over its cap and no weight outside such classes can take what scaling it down frees. */
  ghost predicate WastesScale(b: Weights, classes: Classes, caps: Caps) {
    var over := OverSet(b, classes, caps.perClass, LOOP_TOLERANCE);
    var scaled := ScaledDown(b, classes, caps.perClass, LOOP_TOLERANCE);
    over != {} && !CanTake(scaled, Room(scaled, caps.perEtf, over))
  }

  ghost predicate Wastes(w: Weights, classes: Classes, caps: Caps) {
    WastesClip(w, caps) || WastesScale(ClippedAndSpread(w, caps), classes, caps)
  }

  /** What is clipped off is nothing at all, or more than the tolerance. */
  lemma ClippedAmount(w: Weights, cap: real, tol: real)
    requires tol >= 0.0
    ensures ClipSet(w, cap, tol) == {} ==> Total(ClippedOff(w, cap, tol)) == 0.0 && Clipped(w, cap, tol) == w
    ensures ClipSet(w, cap, tol) != {} ==> Total(ClippedOff(w, cap, tol)) > tol
    ensures Total(Clipped(w, cap, tol)) + Total(ClippedOff(w, cap, tol)) == Total(w)
  {
    TotalAdd(Clipped(w, cap, tol), ClippedOff(w, cap, tol), w);
    if s :| s in ClipSet(w, cap, tol) {
      TotalNonNegative(ClippedOff(w, cap, tol));
      assert ClippedOff(w, cap, tol)[s] > tol;
    } else {
      forall s | s in w
        ensures w[s] <= cap + tol
      {
        assert s !in ClipSet(w, cap, tol);
      }
      TotalOfZeros(ClippedOff(w, cap, tol));
    }
  }

  function ZeroOutside(w: Weights, to: set<Symbol>): Weights {
    map s | s in w :: if s in to then w[s] else 0.0
  }

  lemma ZerosDropped(w: Weights, to: set<Symbol>)
    ensures Total(ZeroOutside(w, to)) == Total(Within(w, to))
  {
    var z := ZeroOutside(w, to);
    TotalIgnoresZeros(z, to);
    assert (map s | s in z && s in to :: z[s]) == Within(w, to);
  }

  lemma PartsOf(w: Weights, to: set<Symbol>)
    ensures Total(w) == Total(Within(w, to)) + Total(Within(w, w.Keys - to))
  {
    ZerosDropped(w, to);
    ZerosDropped(w, w.Keys - to);
    TotalAdd(ZeroOutside(w, to), ZeroOutside(w, w.Keys - to), w);
  }

  lemma MembersAre(w: Weights, classes: Classes, c: AssetClass) returns (to: set<Symbol>)
    ensures to <= w.Keys && Members(w, classes, c) == Within(w, to)
    ensures forall s :: s in to <==> s in w && s in classes && classes[s] == c
  {
    to := set s | s in w && s in classes && classes[s] == c;
  }

  /** Scaling frees nothing at all, or more than the tolerance. */
  lemma ScaledAmount(w: Weights, classes: Classes, cap: real, tol: real)
    requires cap > 0.0 && tol >= 0.0 && NonNegative(w)
    ensures var v := ScaledDown(w, classes, cap, tol);
            && (OverSet(w, classes, cap, tol) == {} ==> v == w && Total(v) == Total(w))
            && (OverSet(w, classes, cap, tol) != {} ==> Total(v) < Total(w) - tol)
  {
    var v := ScaledDown(w, classes, cap, tol);
    if x :| x in OverSet(w, classes, cap, tol) {
      var c := classes[x];
      var to := MembersAre(w, classes, c);
      ScaleAccounts(w, classes, cap, tol);
      ClassBroughtDown(w, classes, cap, tol, c);
      assert Members(v, classes, c) == Within(v, to);
      PartsOf(w, to);
      PartsOf(v, to);
      TotalMonotone(Within(v, v.Keys - to), Within(w, w.Keys - to));
    } else {
      forall s | s in w
        ensures !ClassOver(w, classes, s, cap, tol)
      {
        assert s !in OverSet(w, classes, cap, tol);
      }
      assert v == w;
    }
  }

  lemma ClipTotal(w: Weights, caps: Caps)
    requires caps.Valid() && NonNegative(w)
    ensures var b := ClippedAndSpread(w, caps);
            Total(b) <= Total(w) && (Total(b) == Total(w) <==> !WastesClip(w, caps))
  {
    var clipped := Clipped(w, caps.perEtf, LOOP_TOLERANCE);
    ClippedAmount(w, caps.perEtf, LOOP_TOLERANCE);
    SpreadTotal(clipped, Total(ClippedOff(w, caps.perEtf, LOOP_TOLERANCE)), Room(clipped, caps.perEtf, {}));
  }

  lemma SpreadBackTotal(b: Weights, scaled: Weights, cap: real, over: set<Symbol>)
    requires if over == {} then Total(scaled) == Total(b) else Total(scaled) < Total(b) - LOOP_TOLERANCE
    ensures Total(SpreadBack(b, scaled, cap, over)) <= Total(b)
    ensures Total(SpreadBack(b, scaled, cap, over)) == Total(b)
       <==> over == {} || CanTake(scaled, Room(scaled, cap, over))
  {
    SpreadTotal(scaled, Total(b) - Total(scaled), Room(scaled, cap, over));
  }

  lemma ScaleTotal(b: Weights, classes: Classes, caps: Caps)
    requires caps.Valid() && NonNegative(b)
    ensures Total(ScaledAndSpread(b, classes, caps)) <= Total(b)
    ensures Total(ScaledAndSpread(b, classes, caps)) == Total(b) <==> !WastesScale(b, classes, caps)
  {
    ScaledAmount(b, classes, caps.perClass, LOOP_TOLERANCE);
    SpreadBackTotal(b, ScaledDown(b, classes, caps.perClass, LOOP_TOLERANCE), caps.perEtf,
                    OverSet(b, classes, caps.perClass, LOOP_TOLERANCE));
  }

  /** A round keeps the total exactly unless it takes weight off and finds none with room to take it. */
  lemma RoundKeepsTotalIff(w: Weights, classes: Classes, caps: Caps)
    requires caps.Valid() && NonNegative(w)
    ensures Total(OneRound(w, classes, caps).weights) <= Total(w)
    ensures Total(OneRound(w, classes, caps).weights) == Total(w) <==> !Wastes(w, classes, caps)
  {
    FirstHalfAccounts(w, caps);
    ClipTotal(w, caps);
    ScaleTotal(ClippedAndSpread(w, caps), classes, caps);
  }

  // ---- All rounds ----

  /** The weights after n rounds; the next round lies two definitions away. */
  ghost function AfterRounds(w: Weights, classes: Classes, caps: Caps, n: nat): Weights
    decreases n, 2
  {
    if n == 0 then w else AfterSome(w, classes, caps, n)
  }

  ghost function AfterSome(w: Weights, classes: Classes, caps: Caps, n: nat): Weights
    requires n > 0
    decreases n, 1
  {
    AfterOneAndMore(w, classes, caps, n)
  }

  ghost function AfterOneAndMore(w: Weights, classes: Classes, caps: Caps, n: nat): Weights
    requires n > 0
    decreases n, 0
  {
    AfterRounds(OneRound(w, classes, caps).weights, classes, caps, n - 1)
  }

  lemma AfterStep(w: Weights, classes: Classes, caps: Caps, n: nat)
    requires n > 0
    ensures AfterRounds(w, classes, caps, n) == AfterRounds(OneRound(w, classes, caps).weights, classes, caps, n - 1)
  {
    assert AfterRounds(w, classes, caps, n) == AfterSome(w, classes, caps, n) == AfterOneAndMore(w, classes, caps, n);
  }

  ghost predicate WastesNever(w: Weights, classes: Classes, caps: Caps, n: nat) {
    forall i: nat :: i < n ==> !Wastes(AfterRounds(w, classes, caps, i), classes, caps)
  }

  lemma {:induction false} RestingRounds(w: Weights, classes: Classes, caps: Caps, n: nat)
    requires caps.Valid() && NonNegative(w) && Respects(w, classes, caps, LOOP_TOLERANCE)
    ensures AfterRounds(w, classes, caps, n) == w
  {
    if n > 0 {
      AfterStep(w, classes, caps, n);
      RoundRestsIff(w, classes, caps);
      RestingRounds(w, classes, caps, n - 1);
    }
  }

  /** Stopping early makes no difference: the loop leaves the weights that all its rounds would. */
  lemma {:induction false} RoundsAre(w: Weights, noted: set<Symbol>, classes: Classes, caps: Caps, n: nat)
    requires caps.Valid() && NonNegative(w)
    ensures Rounds(w, noted, classes, caps, n).weights == AfterRounds(w, classes, caps, n)
    decreases n, 1
  {
    if n > 0 {
      RoundsStep(w, noted, classes, caps, n);
      AfterStep(w, classes, caps, n);
      RoundAccounts(w, classes, caps);
      RoundRestsIff(w, classes, caps);
      MoreRoundsAre(w, noted, OneRound(w, classes, caps), classes, caps, n);
    }
  }

  lemma MoreRoundsAre(w: Weights, noted: set<Symbol>, r: Round, classes: Classes, caps: Caps, n: nat)
    requires caps.Valid() && NonNegative(w) && NonNegative(r.weights) && n > 0
    requires Rounds(w, noted, classes, caps, n)
          == if r.changed then Rounds(r.weights, noted + r.noted, classes, caps, n - 1)
             else Round(r.weights, noted, false)
    requires AfterRounds(w, classes, caps, n) == AfterRounds(r.weights, classes, caps, n - 1)
    requires !r.changed ==> Respects(w, classes, caps, LOOP_TOLERANCE) && r.weights == w
    ensures Rounds(w, noted, classes, caps, n).weights == AfterRounds(w, classes, caps, n)
    decreases n, 0
  {
    if r.changed {
      RoundsAre(r.weights, noted + r.noted, classes, caps, n - 1);
    } else {
      RestingRounds(w, classes, caps, n);
    }
  }

  lemma NeverStep(w: Weights, v: Weights, classes: Classes, caps: Caps, n: nat)
    requires n > 0 && v == OneRound(w, classes, caps).weights
    ensures WastesNever(w, classes, caps, n) <==> !Wastes(w, classes, caps) && WastesNever(v, classes, caps, n - 1)
  {
    assert AfterRounds(w, classes, caps, 0) == w;
    forall i: nat | i < n - 1
      ensures AfterRounds(v, classes, caps, i) == AfterRounds(w, classes, caps, i + 1)
    {
      AfterStep(w, classes, caps, i + 1);
    }
    if !Wastes(w, classes, caps) && WastesNever(v, classes, caps, n - 1) {
      forall i: nat | i < n
        ensures !Wastes(AfterRounds(w, classes, caps, i), classes, caps)
      {
        if i > 0 {
          assert !Wastes(AfterRounds(v, classes, caps, i - 1), classes, caps);
        }
      }
    }
  }

  lemma FirstRound(w: Weights, classes: Classes, caps: Caps, n: nat) returns (v: Weights)
    requires caps.Valid() && NonNegative(w) && n > 0
    ensures NonNegative(v) && Total(v) <= Total(w)
    ensures AfterRounds(w, classes, caps, n) == AfterRounds(v, classes, caps, n - 1)
    ensures WastesNever(w, classes, caps, n) <==> Total(v) == Total(w) && WastesNever(v, classes, caps, n - 1)
  {
    v := OneRound(w, classes, caps).weights;
    AfterStep(w, classes, caps, n);
    RoundAccounts(w, classes, caps);
    RoundKeepsTotalIff(w, classes, caps);
    NeverStep(w, v, classes, caps, n);
  }

  lemma {:induction false} RoundsKeepTotalIff(w: Weights, classes: Classes, caps: Caps, n: nat)
    requires caps.Valid() && NonNegative(w)
    ensures var z := AfterRounds(w, classes, caps, n);
            && NonNegative(z) && Total(z) <= Total(w)
            && (Total(z) == Total(w) <==> WastesNever(w, classes, caps, n))
    decreases n
  {
    if n > 0 {
      var v := FirstRound(w, classes, caps, n);
      RoundsKeepTotalIff(v, classes, caps, n - 1);
    }
  }

  /** The clamps keep the total exactly when they have nothing to do. */
  lemma ClampsKeepTotalIff(r: Round, classes: Classes, caps: Caps)
    requires caps.Valid() && NonNegative(r.weights)
    ensures Total(Clamped(r, classes, caps).weights) <= Total(r.weights)
    ensures Total(Clamped(r, classes, caps).weights) == Total(r.weights)
       <==> Respects(r.weights, classes, caps, CLAMP_TOLERANCE)
  {
    var w, tol := r.weights, CLAMP_TOLERANCE;
    var etf := Clipped(w, caps.perEtf, tol);
    ClipAccounts(w, caps.perEtf, tol);
    ClippedAmount(w, caps.perEtf, tol);
    ScaledAmount(etf, classes, caps.perClass, tol);
    if Respects(w, classes, caps, tol) {
      NothingToMove(w, classes, caps, tol);
    } else if ClipSet(w, caps.perEtf, tol) == {} {
      NoneOver(w, caps.perEtf, tol);
      var s :| s in w && s in classes && ClassTotal(w, classes, classes[s]) > caps.perClass + tol;
      assert s in OverSet(w, classes, caps.perClass, tol);
    }
  }

  lemma NoneOver(w: Weights, cap: real, tol: real)
    requires ClipSet(w, cap, tol) == {}
    ensures forall s :: s in w ==> w[s] <= cap + tol
  {
    forall s | s in w
      ensures w[s] <= cap + tol
    {
      assert s !in ClipSet(w, cap, tol);
    }
  }

  /**
   * Capping leaves weight to cash exactly when some round takes weight off and finds none with room to take it, or
   * when the rounds end with a cap still exceeded and a clamp must act. Otherwise the whole raw weight stays invested.
   */
  lemma CappingKeepsTotalIff(raw: Weights, classes: Classes, caps: Caps)
    requires caps.Valid() && NonNegative(raw)
    ensures Total(Capped(raw, classes, caps).weights) == Total(raw)
       <==> && WastesNever(raw, classes, caps, MaxRounds(raw))
            && Respects(AfterRounds(raw, classes, caps, MaxRounds(raw)), classes, caps, CLAMP_TOLERANCE)
  {
    var n := MaxRounds(raw);
    var r := Rounds(raw, {}, classes, caps, n);
    RoundsAre(raw, {}, classes, caps, n);
    RoundsKeepTotalIff(raw, classes, caps, n);
    ClampsKeepTotalIff(r, classes, caps);
  }

  // ---- Which symbols are noted ----

  /** The round cuts the symbol: it is over its own cap, or its class is once the clipped weight is spread. */
  ghost predicate CutIn(w: Weights, classes: Classes, caps: Caps, s: Symbol) {
    || (s in w && w[s] > caps.perEtf + LOOP_TOLERANCE)
    || ClassOver(ClippedAndSpread(w, caps), classes, s, caps.perClass, LOOP_TOLERANCE)
  }

  ghost predicate CutWithin(w: Weights, classes: Classes, caps: Caps, n: nat, s: Symbol) {
    exists i: nat :: i < n && CutIn(AfterRounds(w, classes, caps, i), classes, caps, s)
  }

  lemma RoundNotes(w: Weights, classes: Classes, caps: Caps, s: Symbol)
    ensures s in OneRound(w, classes, caps).noted <==> CutIn(w, classes, caps, s)
  {
  }

  lemma CutStep(w: Weights, v: Weights, classes: Classes, caps: Caps, n: nat, s: Symbol)
    requires n > 0 && v == OneRound(w, classes, caps).weights
    ensures CutWithin(w, classes, caps, n, s)
       <==> CutIn(w, classes, caps, s) || CutWithin(v, classes, caps, n - 1, s)
  {
    assert AfterRounds(w, classes, caps, 0) == w;
    if i: nat :| i < n && CutIn(AfterRounds(w, classes, caps, i), classes, caps, s) {
      if i > 0 {
        AfterStep(w, classes, caps, i);
        assert CutIn(AfterRounds(v, classes, caps, i - 1), classes, caps, s);
      }
    }
    if i: nat :| i < n - 1 && CutIn(AfterRounds(v, classes, caps, i), classes, caps, s) {
      AfterStep(w, classes, caps, i + 1);
      assert CutIn(AfterRounds(w, classes, caps, i + 1), classes, caps, s);
    }
  }

  lemma RestingCutsNone(w: Weights, classes: Classes, caps: Caps, n: nat, s: Symbol)
    requires caps.Valid() && NonNegative(w) && Respects(w, classes, caps, LOOP_TOLERANCE)
    ensures !CutWithin(w, classes, caps, n, s)
  {
    RoundRestsIff(w, classes, caps);
    RoundNotes(w, classes, caps, s);
    forall i: nat | i < n
      ensures !CutIn(AfterRounds(w, classes, caps, i), classes, caps, s)
    {
      RestingRounds(w, classes, caps, i);
    }
  }

  lemma {:induction false} RoundsNoteIff(
    w: Weights, noted: set<Symbol>, classes: Classes, caps: Caps, n: nat, s: Symbol)
    requires caps.Valid() && NonNegative(w)
    ensures s in Rounds(w, noted, classes, caps, n).noted <==> s in noted || CutWithin(w, classes, caps, n, s)
    decreases n, 1
  {
    if n > 0 {
      var r := OneRound(w, classes, caps);
      RoundsStep(w, noted, classes, caps, n);
      RoundAccounts(w, classes, caps);
      RoundNotes(w, classes, caps, s);
      CutStep(w, r.weights, classes, caps, n, s);
      if !r.changed {
        RoundRestsIff(w, classes, caps);
        RestingCutsNone(w, classes, caps, n, s);
      }
      MoreNoted(w, noted, r, classes, caps, n, s);
    }
  }

  lemma MoreNoted(w: Weights, noted: set<Symbol>, r: Round, classes: Classes, caps: Caps, n: nat, s: Symbol)
    requires caps.Valid() && NonNegative(r.weights) && n > 0
    requires Rounds(w, noted, classes, caps, n)
          == if r.changed then Rounds(r.weights, noted + r.noted, classes, caps, n - 1)
             else Round(r.weights, noted, false)
    requires CutWithin(w, classes, caps, n, s) <==> s in r.noted || CutWithin(r.weights, classes, caps, n - 1, s)
    requires !r.changed ==> !CutWithin(w, classes, caps, n, s)
    ensures s in Rounds(w, noted, classes, caps, n).noted <==> s in noted || CutWithin(w, classes, caps, n, s)
    decreases n, 0
  {
    if r.changed {
      RoundsNoteIff(r.weights, noted + r.noted, classes, caps, n - 1, s);
    }
  }

  /** A symbol gets a note exactly when some round or a clamp cut it. */
  lemma NotedIff(raw: Weights, classes: Classes, caps: Caps, s: Symbol)
    requires caps.Valid() && NonNegative(raw)
    ensures var w := AfterRounds(raw, classes, caps, MaxRounds(raw));
            s in Capped(raw, classes, caps).noted
            <==> || CutWithin(raw, classes, caps, MaxRounds(raw), s)
                 || (s in w && w[s] > caps.perEtf + CLAMP_TOLERANCE)
                 || ClassOver(Clipped(w, caps.perEtf, CLAMP_TOLERANCE), classes, s, caps.perClass, CLAMP_TOLERANCE)
  {
    RoundsAre(raw, {}, classes, caps, MaxRounds(raw));
    RoundsNoteIff(raw, {}, classes, caps, MaxRounds(raw), s);
    ClampNotes(Rounds(raw, {}, classes, caps, MaxRounds(raw)), classes, caps, s);
  }

  lemma ClampNotes(r: Round, classes: Classes, caps: Caps, s: Symbol)
    ensures s in Clamped(r, classes, caps).noted
       <==> || s in r.noted
            || (s in r.weights && r.weights[s] > caps.perEtf + CLAMP_TOLERANCE)
            || ClassOver(Clipped(r.weights, caps.perEtf, CLAMP_TOLERANCE), classes, s, caps.perClass, CLAMP_TOLERANCE)
  {
  }

  // ---- Where no class can bind ----

  /** The weights at their cap, up to the tolerance, or above it. */
  function Full(w: Weights, cap: real): set<Symbol> {
    set s | s in w && w[s] >= cap - LOOP_TOLERANCE
  }

  lemma ClassesIdle(w: Weights, classes: Classes, caps: Caps)
    requires NonNegative(w) && Total(w) <= caps.perClass + LOOP_TOLERANCE
    ensures OverSet(w, classes, caps.perClass, LOOP_TOLERANCE) == {}
  {
    forall s | s in w && s in classes
      ensures ClassTotal(w, classes, classes[s]) <= Total(w)
    {
      var to := MembersAre(w, classes, classes[s]);
      PartsOf(w, to);
      TotalNonNegative(Within(w, w.Keys - to));
    }
  }

  /** Then a round is clipping and spreading alone. */
  lemma ClipOnlyRound(w: Weights, classes: Classes, caps: Caps)
    requires caps.Valid() && NonNegative(w) && Total(w) <= caps.perClass + LOOP_TOLERANCE
    ensures OneRound(w, classes, caps)
         == Round(ClippedAndSpread(w, caps), ClipSet(w, caps.perEtf, LOOP_TOLERANCE),
                  ClipSet(w, caps.perEtf, LOOP_TOLERANCE) != {})
    ensures Wastes(w, classes, caps) <==> WastesClip(w, caps)
  {
    var b := ClippedAndSpread(w, caps);
    FirstHalfAccounts(w, caps);
    ClassesIdle(b, classes, caps);
    ScaledAmount(b, classes, caps.perClass, LOOP_TOLERANCE);
    SpreadExact(b, 0.0, Room(b, caps.perEtf, {}));
  }

  /** What a clipping round makes of a full weight and of another. */
  lemma FullStaysFull(w: Weights, caps: Caps)
    requires caps.Valid() && NonNegative(w)
    ensures var b := ClippedAndSpread(w, caps);
            && b.Keys == w.Keys
            && (forall s :: s in Full(w, caps.perEtf) ==>
                  s in Full(b, caps.perEtf) && b[s] <= caps.perEtf + LOOP_TOLERANCE)
            && (forall s :: s in w && s !in Full(w, caps.perEtf) ==> b[s] >= w[s])
  {
    var clipped := Clipped(w, caps.perEtf, LOOP_TOLERANCE);
    var amount := Total(ClippedOff(w, caps.perEtf, LOOP_TOLERANCE));
    ClipAccounts(w, caps.perEtf, LOOP_TOLERANCE);
    SpreadAccounts(clipped, amount, Room(clipped, caps.perEtf, {}));
  }

  /** So each further round that changes something has one more full weight before it. */
  lemma MoreFull(w: Weights, caps: Caps)
    requires caps.Valid() && NonNegative(w)
    requires ClipSet(ClippedAndSpread(w, caps), caps.perEtf, LOOP_TOLERANCE) != {}
    ensures |Full(ClippedAndSpread(w, caps), caps.perEtf)| > |Full(w, caps.perEtf)|
  {
    var b, cap := ClippedAndSpread(w, caps), caps.perEtf;
    FullStaysFull(w, caps);
    var s :| s in ClipSet(b, cap, LOOP_TOLERANCE);
    assert s in Full(b, cap) && s !in Full(w, cap);
    SmallerSet(Full(w, cap), Full(b, cap));
  }

  lemma {:induction false} SmallerSet(a: set<Symbol>, b: set<Symbol>)
    requires a < b
    ensures |a| < |b|
  {
    assert b == a + (b - a);
    assert b - a != {};
  }

  lemma FullFits(w: Weights, cap: real)
    ensures |Full(w, cap)| <= |w|
  {
    if Full(w, cap) < w.Keys {
      SmallerSet(Full(w, cap), w.Keys);
    } else {
      assert Full(w, cap) == w.Keys;
    }
  }

  /** A further round is needed only with one more full weight. */
  lemma NextFuller(w: Weights, classes: Classes, caps: Caps)
    requires caps.Valid() && NonNegative(w) && Total(w) <= caps.perClass + LOOP_TOLERANCE
    ensures var r, cap := OneRound(w, classes, caps), caps.perEtf;
            && (r.changed <==> ClipSet(w, cap, LOOP_TOLERANCE) != {})
            && NonNegative(r.weights) && Total(r.weights) <= caps.perClass + LOOP_TOLERANCE
            && |r.weights| == |w| && |Full(w, cap)| <= |w|
            && (ClipSet(r.weights, cap, LOOP_TOLERANCE) != {} ==> |Full(r.weights, cap)| > |Full(w, cap)|)
  {
    ClipOnlyRound(w, classes, caps);
    RoundAccounts(w, classes, caps);
    FullFits(w, caps.perEtf);
    SameSize(w, OneRound(w, classes, caps).weights);
    if ClipSet(ClippedAndSpread(w, caps), caps.perEtf, LOOP_TOLERANCE) != {} {
      MoreFull(w, caps);
    }
  }

  lemma {:induction false} ClippingConverges(w: Weights, noted: set<Symbol>, classes: Classes, caps: Caps, n: nat)
    requires caps.Valid() && NonNegative(w) && Total(w) <= caps.perClass + LOOP_TOLERANCE
    requires n >= 1 && (ClipSet(w, caps.perEtf, LOOP_TOLERANCE) != {} ==> n >= |w| - |Full(w, caps.perEtf)| + 2)
    ensures !Rounds(w, noted, classes, caps, n).changed
    decreases n, 1
  {
    RoundsStep(w, noted, classes, caps, n);
    NextFuller(w, classes, caps);
    ConvergesFrom(w, noted, OneRound(w, classes, caps), classes, caps, n);
  }

  lemma ConvergesFrom(w: Weights, noted: set<Symbol>, r: Round, classes: Classes, caps: Caps, n: nat)
    requires caps.Valid() && n >= 1
    requires r.changed ==> n >= |w| - |Full(w, caps.perEtf)| + 2
    requires Rounds(w, noted, classes, caps, n)
          == if r.changed then Rounds(r.weights, noted + r.noted, classes, caps, n - 1)
             else Round(r.weights, noted, false)
    requires NonNegative(r.weights) && Total(r.weights) <= caps.perClass + LOOP_TOLERANCE
    requires |r.weights| == |w| && |Full(w, caps.perEtf)| <= |w|
    requires ClipSet(r.weights, caps.perEtf, LOOP_TOLERANCE) != {} ==>
               |Full(r.weights, caps.perEtf)| > |Full(w, caps.perEtf)|
    ensures !Rounds(w, noted, classes, caps, n).changed
    decreases n, 0
  {
    if r.changed {
      ClippingConverges(r.weights, noted + r.noted, classes, caps, n - 1);
    }
  }

  lemma SameSize(w: Weights, v: Weights)
    requires w.Keys == v.Keys
    ensures |w| == |v|
  {
    assert |w| == |w.Keys| && |v| == |v.Keys|;
  }

  /** Raw weights that fit a class cap in all always converge: each round but the first fills up one more symbol. */
  lemma ConvergesWithoutClasses(raw: Weights, classes: Classes, caps: Caps)
    requires caps.Valid() && NonNegative(raw) && Total(raw) <= caps.perClass + LOOP_TOLERANCE
    ensures !Rounds(raw, {}, classes, caps, MaxRounds(raw)).changed
    ensures Respects(Capped(raw, classes, caps).weights, classes, caps, LOOP_TOLERANCE)
  {
    ClippingConverges(raw, {}, classes, caps, MaxRounds(raw));
    RoundsAccount(raw, {}, classes, caps, MaxRounds(raw));
    ConvergedIsFixed(raw, classes, caps);
  }

  // ---- When there is room for all ----

  function Positive(w: Weights): set<Symbol> {
    set s | s in w && w[s] > 0.0
  }

  lemma {:induction false} TotalBetween(w: Weights, low: real, high: real)
    requires forall s :: s in w ==> low <= w[s] <= high
    ensures Times(|w| as real, low) <= Total(w) <= Times(|w| as real, high)
    decreases |w|
  {
    if s :| s in w {
      TotalSplit(w, s);
      TotalBetween(w - {s}, low, high);
      assert |w| == |w - {s}| + 1;
      OneFewer(|w| as real, low);
      OneFewer(|w| as real, high);
    } else {
      TimesZero(low);
      TimesZero(high);
    }
  }

  lemma OneFewer(n: real, x: real)
    ensures Times(n, x) == Times(n - 1.0, x) + x
  {
  }

  /** The total is that of the positive weights. */
  lemma PositiveTotal(w: Weights)
    requires NonNegative(w)
    ensures Total(w) == Total(Within(w, Positive(w))) && |Within(w, Positive(w))| == |Positive(w)|
  {
    TotalIgnoresZeros(w, Positive(w));
    assert Within(w, Positive(w)).Keys == Positive(w);
    SizeOfKeys(Within(w, Positive(w)));
  }

  lemma SizeOfKeys(w: Weights)
    ensures |w| == |w.Keys|
  {
  }

  /** More raw weight than the symbols that have any may hold is left to cash. */
  lemma LostWhenFull(raw: Weights, classes: Classes, caps: Caps)
    requires caps.Valid() && NonNegative(raw)
    requires Total(raw) > Times(|Positive(raw)| as real, caps.perEtf + CLAMP_TOLERANCE)
    ensures Total(Capped(raw, classes, caps).weights) < Total(raw)
  {
    var z := Capped(raw, classes, caps).weights;
    HardCapsHold(raw, classes, caps);
    PositiveTotal(z);
    assert Positive(z) == Positive(raw);
    TotalBetween(Within(z, Positive(z)), 0.0, caps.perEtf + CLAMP_TOLERANCE);
  }

  /** No class cap can bind, no positive weight is too small to share by, and the positive ones can hold it all. */
  ghost predicate Roomy(w: Weights, caps: Caps) {
    && NonNegative(w) && Total(w) <= caps.perClass + LOOP_TOLERANCE
    && (forall s :: s in w && w[s] > 0.0 ==> w[s] > LOOP_TOLERANCE)
    && Total(w) <= Times(|Positive(w)| as real, caps.perEtf - LOOP_TOLERANCE)
  }

  lemma MemberWithin(w: Weights, to: set<Symbol>, s: Symbol)
    requires NonNegative(w) && s in w && s in to
    ensures w[s] <= Total(Within(w, to))
  {
    TotalNonNegative(Within(w, to));
    assert Within(w, to)[s] == w[s];
  }

  lemma RoomyTakes(w: Weights, caps: Caps)
    requires caps.Valid() && caps.perEtf > LOOP_TOLERANCE && Roomy(w, caps)
    ensures !WastesClip(w, caps)
  {
    var cap, clipped := caps.perEtf, Clipped(w, caps.perEtf, LOOP_TOLERANCE);
    ClippedAmount(w, cap, LOOP_TOLERANCE);
    ClipAccounts(w, cap, LOOP_TOLERANCE);
    assert Positive(clipped) == Positive(w);
    if s :| s in Positive(w) && s in Room(clipped, cap, {}) {
      MemberWithin(clipped, Room(clipped, cap, {}), s);
    } else {
      PositiveTotal(clipped);
      assert forall s :: s in Positive(w) ==> s !in Room(clipped, cap, {});
      TotalBetween(Within(clipped, Positive(w)), cap - LOOP_TOLERANCE, cap + LOOP_TOLERANCE);
    }
  }

  lemma RoomyRound(w: Weights, classes: Classes, caps: Caps)
    requires caps.Valid() && caps.perEtf > LOOP_TOLERANCE && Roomy(w, caps)
    ensures !Wastes(w, classes, caps) && Roomy(OneRound(w, classes, caps).weights, caps)
  {
    RoomyTakes(w, caps);
    ClipOnlyRound(w, classes, caps);
    ClipTotal(w, caps);
    FirstHalfAccounts(w, caps);
    FullStaysFull(w, caps);
    assert Positive(ClippedAndSpread(w, caps)) == Positive(w);
    NoneTooSmall(w, caps);
  }

  lemma NoneTooSmall(w: Weights, caps: Caps)
    requires caps.Valid() && caps.perEtf > LOOP_TOLERANCE && NonNegative(w)
    requires forall s :: s in w && w[s] > 0.0 ==> w[s] > LOOP_TOLERANCE
    ensures var b := ClippedAndSpread(w, caps);
            b.Keys == w.Keys && forall s :: s in b && b[s] > 0.0 ==> b[s] > LOOP_TOLERANCE
  {
    var clipped := Clipped(w, caps.perEtf, LOOP_TOLERANCE);
    ClipAccounts(w, caps.perEtf, LOOP_TOLERANCE);
    SpreadAccounts(clipped, Total(ClippedOff(w, caps.perEtf, LOOP_TOLERANCE)), Room(clipped, caps.perEtf, {}));
  }

  lemma {:induction false} RoomyNeverWastes(w: Weights, classes: Classes, caps: Caps, n: nat)
    requires caps.Valid() && caps.perEtf > LOOP_TOLERANCE && Roomy(w, caps)
    ensures WastesNever(w, classes, caps, n)
    decreases n
  {
    if n > 0 {
      RoomyRound(w, classes, caps);
      RoomyNeverWastes(OneRound(w, classes, caps).weights, classes, caps, n - 1);
      NeverStep(w, OneRound(w, classes, caps).weights, classes, caps, n);
    }
  }

  /** Raw weights for which there is room stay invested to the last bit. */
  lemma KeptWhenRoomy(raw: Weights, classes: Classes, caps: Caps)
    requires caps.Valid() && caps.perEtf > LOOP_TOLERANCE && Roomy(raw, caps)
    ensures Total(Capped(raw, classes, caps).weights) == Total(raw)
  {
    RoomyNeverWastes(raw, classes, caps, MaxRounds(raw));
    ConvergesWithoutClasses(raw, classes, caps);
    RoundsAre(raw, {}, classes, caps, MaxRounds(raw));
    RoundsAccount(raw, {}, classes, caps, MaxRounds(raw));
    CappingKeepsTotalIff(raw, classes, caps);
  }
}
