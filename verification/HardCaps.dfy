/** Water-filling: raw weights capped per ETF and per asset class, the excess spread over what still has room. */
module HardCaps {
  import opened Common
  import opened Sums

  type Weights = map<Symbol, real>

  type AssetClass = string

  /** The asset classes that are known. */
  type Classes = map<Symbol, AssetClass>

  datatype Caps = Caps(perEtf: real, perClass: real) {
    predicate Valid() {
      0.0 < perEtf <= perClass <= 1.0
    }
  }

  const LOOP_TOLERANCE := 0.000000001
  const CLAMP_TOLERANCE := 0.000001

  // ---- The moves ----

  function Clipped(w: Weights, cap: real, tol: real): Weights {
    map s | s in w :: if w[s] > cap + tol then cap else w[s]
  }

  function ClippedOff(w: Weights, cap: real, tol: real): Weights {
    map s | s in w :: if w[s] > cap + tol then w[s] - cap else 0.0
  }

  function ClipSet(w: Weights, cap: real, tol: real): set<Symbol> {
    set s | s in w && w[s] > cap + tol
  }

  function Members(w: Weights, classes: Classes, c: AssetClass): Weights {
    map s | s in w && s in classes && classes[s] == c :: w[s]
  }

  ghost function ClassTotal(w: Weights, classes: Classes, c: AssetClass): real {
    Total(Members(w, classes, c))
  }

  ghost predicate ClassOver(w: Weights, classes: Classes, s: Symbol, cap: real, tol: real) {
    s in w && s in classes && ClassTotal(w, classes, classes[s]) > cap + tol
  }

  ghost function OverSet(w: Weights, classes: Classes, cap: real, tol: real): set<Symbol> {
    set s | s in w && ClassOver(w, classes, s, cap, tol)
  }

  ghost function ScaledDown(w: Weights, classes: Classes, cap: real, tol: real): Weights {
    map s | s in w ::
      if ClassOver(w, classes, s, cap, tol) && ClassTotal(w, classes, classes[s]) != 0.0 then
        Times(w[s], cap / ClassTotal(w, classes, classes[s]))
      else w[s]
  }

  function Room(w: Weights, cap: real, blocked: set<Symbol>): set<Symbol> {
    set s | s in w && s !in blocked && w[s] < cap - LOOP_TOLERANCE
  }

  function Within(w: Weights, to: set<Symbol>): Weights {
    map s | s in w && s in to :: w[s]
  }

  /** The amount is shared in proportion to the weights that take it; too little to share or to take it is dropped. */
  ghost function Spread(w: Weights, amount: real, to: set<Symbol>): Weights {
    var total := Total(Within(w, to));
    if amount > LOOP_TOLERANCE && total > LOOP_TOLERANCE then
      map s | s in w :: if s in to then w[s] + Times(amount, w[s] / total) else w[s]
    else w
  }

  datatype Round = Round(weights: Weights, noted: set<Symbol>, changed: bool)

  ghost function OneRound(w: Weights, classes: Classes, caps: Caps): Round {
    var b := ClippedAndSpread(w, caps);
    var noted := ClipSet(w, caps.perEtf, LOOP_TOLERANCE)
                 + OverSet(b, classes, caps.perClass, LOOP_TOLERANCE);
    Round(ScaledAndSpread(b, classes, caps), noted, noted != {})
  }

  /**
   * Rounds until one changes nothing, at most `n`; the noted symbols accumulate. As with a total, the next round lies
   * two definitions away.
   */
  ghost function Rounds(w: Weights, noted: set<Symbol>, classes: Classes, caps: Caps, n: nat): Round
    decreases n, 2
  {
    if n == 0 then Round(w, noted, true) else SomeRounds(w, noted, classes, caps, n)
  }

  ghost function SomeRounds(w: Weights, noted: set<Symbol>, classes: Classes, caps: Caps, n: nat): Round
    requires n > 0
    decreases n, 1
  {
    RoundAndMore(w, noted, classes, caps, n)
  }

  ghost function RoundAndMore(w: Weights, noted: set<Symbol>, classes: Classes, caps: Caps, n: nat): Round
    requires n > 0
    decreases n, 0
  {
    var r := OneRound(w, classes, caps);
    if r.changed then Rounds(r.weights, noted + r.noted, classes, caps, n - 1)
    else Round(r.weights, noted, false)
  }

  lemma RoundsStep(w: Weights, noted: set<Symbol>, classes: Classes, caps: Caps, n: nat)
    requires n > 0
    ensures var r := OneRound(w, classes, caps);
            Rounds(w, noted, classes, caps, n)
            == if r.changed then Rounds(r.weights, noted + r.noted, classes, caps, n - 1)
               else Round(r.weights, noted, false)
  {
    assert Rounds(w, noted, classes, caps, n) == SomeRounds(w, noted, classes, caps, n)
        == RoundAndMore(w, noted, classes, caps, n);
  }

  ghost function Clamped(r: Round, classes: Classes, caps: Caps): Round {
    var etf := Clipped(r.weights, caps.perEtf, CLAMP_TOLERANCE);
    var over := ClipSet(r.weights, caps.perEtf, CLAMP_TOLERANCE)
                + OverSet(etf, classes, caps.perClass, CLAMP_TOLERANCE);
    Round(ScaledDown(etf, classes, caps.perClass, CLAMP_TOLERANCE), r.noted + over, r.changed)
  }

  function MaxRounds(raw: Weights): nat {
    |raw| * 3 + 10
  }

  ghost function Capped(raw: Weights, classes: Classes, caps: Caps): Round {
    Clamped(Rounds(raw, {}, classes, caps, MaxRounds(raw)), classes, caps)
  }

  // ---- What each move does to one weight and to the total ----

  predicate NonNegative(w: Weights) {
    forall s :: s in w ==> w[s] >= 0.0
  }

  /** No weight appears, disappears, turns negative or moves between zero and positive; only noted ones shrink. */
  predicate SameSupport(w: Weights, v: Weights, noted: set<Symbol>) {
    && v.Keys == w.Keys && NonNegative(v)
    && (forall s :: s in w ==> (v[s] > 0.0 <==> w[s] > 0.0))
    && (forall s :: s in w && s !in noted ==> v[s] >= w[s])
  }

  lemma ClipAccounts(w: Weights, cap: real, tol: real)
    requires cap > 0.0 && tol >= 0.0 && NonNegative(w)
    ensures Total(Clipped(w, cap, tol)) + Total(ClippedOff(w, cap, tol)) == Total(w)
    ensures Total(ClippedOff(w, cap, tol)) >= 0.0
    ensures SameSupport(w, Clipped(w, cap, tol), ClipSet(w, cap, tol))
  {
    TotalAdd(Clipped(w, cap, tol), ClippedOff(w, cap, tol), w);
    TotalNonNegative(ClippedOff(w, cap, tol));
  }

  lemma ShareCommutes(amount: real, x: real, total: real)
    requires total != 0.0
    ensures Times(amount, x / total) == Times(x, amount / total)
  {
  }

  lemma WholeShare(amount: real, total: real)
    requires total != 0.0
    ensures Times(total, amount / total) == amount
  {
  }

  lemma ShareSigned(amount: real, x: real, total: real)
    requires total > 0.0 && amount > 0.0 && x >= 0.0
    ensures Times(amount, x / total) >= 0.0 && (x == 0.0 ==> Times(amount, x / total) == 0.0)
  {
    assert x / total >= 0.0;
  }

  function Shares(w: Weights, amount: real, total: real, to: set<Symbol>): Weights
    requires total != 0.0
  {
    map s | s in w :: if s in to then Times(amount, w[s] / total) else 0.0
  }

  /** Spreading adds the amount, or nothing, to the total, and nothing to a zero weight. */
  lemma SpreadAccounts(w: Weights, amount: real, to: set<Symbol>)
    requires NonNegative(w) && amount >= 0.0
    ensures Total(w) <= Total(Spread(w, amount, to)) <= Total(w) + amount
    ensures SameSupport(w, Spread(w, amount, to), {})
    ensures forall s :: s in w && s !in to ==> Spread(w, amount, to)[s] == w[s]
  {
    var total := Total(Within(w, to));
    if amount > LOOP_TOLERANCE && total > LOOP_TOLERANCE {
      var shares := Shares(w, amount, total, to);
      TotalAdd(w, shares, Spread(w, amount, to));
      TotalIgnoresZeros(shares, to);
      forall s | s in w
        ensures s in to ==> shares[s] == Times(Within(w, to)[s], amount / total)
        ensures shares[s] >= 0.0 && (w[s] == 0.0 ==> shares[s] == 0.0)
      {
        ShareCommutes(amount, w[s], total);
        ShareSigned(amount, w[s], total);
      }
      assert (map s | s in shares && s in to :: shares[s]) == Scaled(Within(w, to), amount / total);
      TotalScale(Within(w, to), amount / total);
      WholeShare(amount, total);
    }
  }

  lemma PositiveFactor(a: real, b: real)
    requires b > 0.0 && Times(a, b) > 0.0
    ensures a > 0.0
  {
  }

  lemma ScaleShrinks(x: real, cap: real, total: real)
    requires x >= 0.0 && 0.0 < cap < total
    ensures 0.0 <= Times(x, cap / total) <= x
    ensures Times(x, cap / total) > 0.0 <==> x > 0.0
  {
    var share := cap / total;
    assert share > 0.0;
    assert Times(1.0 - share, total) == total - cap;
    PositiveFactor(1.0 - share, total);
    assert Times(x, 1.0 - share) >= 0.0;
  }

  /** Scaling shrinks exactly the members of classes over their cap, and brings each such class down to the cap. */
  lemma ScaleAccounts(w: Weights, classes: Classes, cap: real, tol: real)
    requires cap > 0.0 && tol >= 0.0 && NonNegative(w)
    ensures var v := ScaledDown(w, classes, cap, tol);
            && SameSupport(w, v, OverSet(w, classes, cap, tol))
            && (forall s :: s in w ==> v[s] <= w[s] && (!ClassOver(w, classes, s, cap, tol) ==> v[s] == w[s]))
            && Total(v) <= Total(w)
  {
    var v := ScaledDown(w, classes, cap, tol);
    forall s | s in w
      ensures 0.0 <= v[s] <= w[s] && (v[s] > 0.0 <==> w[s] > 0.0)
    {
      if ClassOver(w, classes, s, cap, tol) {
        ScaleShrinks(w[s], cap, ClassTotal(w, classes, classes[s]));
      }
    }
    TotalMonotone(v, w);
  }

  lemma ClassBroughtDown(w: Weights, classes: Classes, cap: real, tol: real, c: AssetClass)
    requires cap > 0.0 && tol >= 0.0 && NonNegative(w)
    ensures var after := ClassTotal(ScaledDown(w, classes, cap, tol), classes, c);
            after == if ClassTotal(w, classes, c) > cap + tol then cap else ClassTotal(w, classes, c)
  {
    var total := ClassTotal(w, classes, c);
    var v := ScaledDown(w, classes, cap, tol);
    if total > cap + tol {
      assert Members(v, classes, c) == Scaled(Members(w, classes, c), cap / total);
      TotalScale(Members(w, classes, c), cap / total);
      WholeShare(cap, total);
    } else {
      assert Members(v, classes, c) == Members(w, classes, c);
    }
  }

  // ---- A round, all rounds, and the final clamps ----

  lemma SupportChains(u: Weights, v: Weights, w: Weights, a: set<Symbol>, b: set<Symbol>, c: set<Symbol>)
    requires SameSupport(u, v, a) && SameSupport(v, w, b) && a <= c && b <= c
    ensures SameSupport(u, w, c)
  {
  }

  /** Taking an amount away from noted symbols and spreading it again. */
  lemma TakenAndSpread(w: Weights, less: Weights, noted: set<Symbol>, to: set<Symbol>)
    requires SameSupport(w, less, noted) && Total(less) <= Total(w)
    ensures var v := Spread(less, Total(w) - Total(less), to);
            SameSupport(w, v, noted) && Total(v) <= Total(w)
  {
    SpreadAccounts(less, Total(w) - Total(less), to);
    SupportChains(w, less, Spread(less, Total(w) - Total(less), to), noted, {}, noted);
  }

  /** Clipping, then spreading what was clipped off. */
  ghost function ClippedAndSpread(w: Weights, caps: Caps): Weights {
    var clipped := Clipped(w, caps.perEtf, LOOP_TOLERANCE);
    Spread(clipped, Total(ClippedOff(w, caps.perEtf, LOOP_TOLERANCE)), Room(clipped, caps.perEtf, {}))
  }

  lemma FirstHalfAccounts(w: Weights, caps: Caps)
    requires caps.Valid() && NonNegative(w)
    ensures var b := ClippedAndSpread(w, caps);
            SameSupport(w, b, ClipSet(w, caps.perEtf, LOOP_TOLERANCE)) && Total(b) <= Total(w)
  {
    var clipped := Clipped(w, caps.perEtf, LOOP_TOLERANCE);
    ClipAccounts(w, caps.perEtf, LOOP_TOLERANCE);
    TakenAndSpread(w, clipped, ClipSet(w, caps.perEtf, LOOP_TOLERANCE), Room(clipped, caps.perEtf, {}));
  }

  /** What was scaled away, spread where there is room outside the scaled classes. */
  ghost function SpreadBack(b: Weights, scaled: Weights, cap: real, over: set<Symbol>): Weights {
    Spread(scaled, Total(b) - Total(scaled), Room(scaled, cap, over))
  }

  /** Scaling down, then spreading what was scaled away. */
  ghost function ScaledAndSpread(b: Weights, classes: Classes, caps: Caps): Weights {
    SpreadBack(b, ScaledDown(b, classes, caps.perClass, LOOP_TOLERANCE), caps.perEtf,
               OverSet(b, classes, caps.perClass, LOOP_TOLERANCE))
  }

  lemma SecondHalfAccounts(b: Weights, classes: Classes, caps: Caps)
    requires caps.Valid() && NonNegative(b)
    ensures var d := ScaledAndSpread(b, classes, caps);
            SameSupport(b, d, OverSet(b, classes, caps.perClass, LOOP_TOLERANCE)) && Total(d) <= Total(b)
  {
    var c := ScaledDown(b, classes, caps.perClass, LOOP_TOLERANCE);
    ScaleAccounts(b, classes, caps.perClass, LOOP_TOLERANCE);
    var over := OverSet(b, classes, caps.perClass, LOOP_TOLERANCE);
    TakenAndSpread(b, c, over, Room(c, caps.perEtf, over));
  }

  lemma RoundAccounts(w: Weights, classes: Classes, caps: Caps)
    requires caps.Valid() && NonNegative(w)
    ensures var r := OneRound(w, classes, caps);
            SameSupport(w, r.weights, r.noted) && Total(r.weights) <= Total(w)
  {
    FirstHalfAccounts(w, caps);
    var b := ClippedAndSpread(w, caps);
    SecondHalfAccounts(b, classes, caps);
    var clipped := ClipSet(w, caps.perEtf, LOOP_TOLERANCE);
    var over := OverSet(b, classes, caps.perClass, LOOP_TOLERANCE);
    SupportChains(w, b, ScaledAndSpread(b, classes, caps), clipped, over, clipped + over);
  }

  /** No weight exceeds the per-ETF cap and no class its own, up to the tolerance. */
  ghost predicate Respects(w: Weights, classes: Classes, caps: Caps, tol: real) {
    && (forall s :: s in w ==> w[s] <= caps.perEtf + tol)
    && (forall s :: s in w && s in classes ==> ClassTotal(w, classes, classes[s]) <= caps.perClass + tol)
  }

  lemma NothingToMove(w: Weights, classes: Classes, caps: Caps, tol: real)
    requires Respects(w, classes, caps, tol) && caps.Valid() && tol >= 0.0
    ensures Clipped(w, caps.perEtf, tol) == w && ScaledDown(w, classes, caps.perClass, tol) == w
    ensures OverSet(w, classes, caps.perClass, tol) == {} && Total(ClippedOff(w, caps.perEtf, tol)) == 0.0
  {
    TotalOfZeros(ClippedOff(w, caps.perEtf, tol));
  }

  /** A round reports no change exactly when the weights already respect both caps, and then it moves nothing. */
  lemma RoundRestsIff(w: Weights, classes: Classes, caps: Caps)
    requires caps.Valid() && NonNegative(w)
    ensures !OneRound(w, classes, caps).changed <==> Respects(w, classes, caps, LOOP_TOLERANCE)
    ensures !OneRound(w, classes, caps).changed ==> OneRound(w, classes, caps).weights == w
  {
    var tol := LOOP_TOLERANCE;
    var clippedSet := ClipSet(w, caps.perEtf, tol);
    if Respects(w, classes, caps, tol) {
      NothingToMove(w, classes, caps, tol);
      assert clippedSet == {};
    } else if clippedSet == {} {
      forall s | s in w
        ensures w[s] <= caps.perEtf + tol
      {
        assert s !in clippedSet;
      }
      assert Clipped(w, caps.perEtf, tol) == w;
      TotalOfZeros(ClippedOff(w, caps.perEtf, tol));
      var s :| s in w && s in classes && ClassTotal(w, classes, classes[s]) > caps.perClass + tol;
      assert s in OverSet(w, classes, caps.perClass, tol);
    } else {
      var s :| s in clippedSet;
      assert s in OneRound(w, classes, caps).noted;
    }
  }

  /** What any number of rounds may have made of the weights. */
  ghost predicate RoundedFrom(w: Weights, noted: set<Symbol>, r: Round, classes: Classes, caps: Caps) {
    && noted <= r.noted && SameSupport(w, r.weights, r.noted) && Total(r.weights) <= Total(w)
    && (!r.changed ==> Respects(r.weights, classes, caps, LOOP_TOLERANCE))
  }

  lemma NotRounded(w: Weights, noted: set<Symbol>, changed: bool, classes: Classes, caps: Caps)
    requires NonNegative(w) && (!changed ==> Respects(w, classes, caps, LOOP_TOLERANCE))
    ensures RoundedFrom(w, noted, Round(w, noted, changed), classes, caps)
  {
  }

  lemma RoundedFurther(w: Weights, noted: set<Symbol>, r: Round, z: Round, classes: Classes, caps: Caps)
    requires SameSupport(w, r.weights, r.noted) && Total(r.weights) <= Total(w)
    requires RoundedFrom(r.weights, noted + r.noted, z, classes, caps)
    ensures RoundedFrom(w, noted, z, classes, caps)
  {
    SupportChains(w, r.weights, z.weights, r.noted, z.noted, z.noted);
  }

  lemma {:induction false} RoundsAccount(w: Weights, noted: set<Symbol>, classes: Classes, caps: Caps, n: nat)
    requires caps.Valid() && NonNegative(w)
    ensures RoundedFrom(w, noted, Rounds(w, noted, classes, caps, n), classes, caps)
    decreases n, 1
  {
    if n == 0 {
      NotRounded(w, noted, true, classes, caps);
    } else {
      RoundAccounts(w, classes, caps);
      RoundRestsIff(w, classes, caps);
      RoundsStep(w, noted, classes, caps, n);
      MoreRounds(w, noted, OneRound(w, classes, caps), classes, caps, n);
    }
  }

  lemma MoreRounds(w: Weights, noted: set<Symbol>, r: Round, classes: Classes, caps: Caps, n: nat)
    requires caps.Valid() && NonNegative(w) && n > 0
    requires Rounds(w, noted, classes, caps, n)
          == if r.changed then Rounds(r.weights, noted + r.noted, classes, caps, n - 1)
             else Round(r.weights, noted, false)
    requires SameSupport(w, r.weights, r.noted) && Total(r.weights) <= Total(w)
    requires !r.changed ==> Respects(w, classes, caps, LOOP_TOLERANCE) && r.weights == w
    ensures RoundedFrom(w, noted, Rounds(w, noted, classes, caps, n), classes, caps)
    decreases n, 0
  {
    if r.changed {
      RoundsAccount(r.weights, noted + r.noted, classes, caps, n - 1);
      RoundedFurther(w, noted, r, Rounds(r.weights, noted + r.noted, classes, caps, n - 1), classes, caps);
    } else {
      NotRounded(w, noted, false, classes, caps);
    }
  }

  lemma ClampAccounts(r: Round, classes: Classes, caps: Caps)
    requires caps.Valid() && NonNegative(r.weights)
    ensures var z := Clamped(r, classes, caps);
            && SameSupport(r.weights, z.weights, z.noted) && Total(z.weights) <= Total(r.weights)
            && Respects(z.weights, classes, caps, CLAMP_TOLERANCE)
  {
    var tol := CLAMP_TOLERANCE;
    var etf := Clipped(r.weights, caps.perEtf, tol);
    ClipAccounts(r.weights, caps.perEtf, tol);
    ScaleAccounts(etf, classes, caps.perClass, tol);
    var z := ScaledDown(etf, classes, caps.perClass, tol);
    var clippedSet := ClipSet(r.weights, caps.perEtf, tol);
    SupportChains(r.weights, etf, z, clippedSet, OverSet(etf, classes, caps.perClass, tol),
                  Clamped(r, classes, caps).noted);
    forall s | s in z && s in classes
      ensures ClassTotal(z, classes, classes[s]) <= caps.perClass + tol
    {
      ClassBroughtDown(etf, classes, caps.perClass, tol, classes[s]);
    }
  }

  /**
   * Converged or not, the result respects both caps, spends no more than the raw total, gives weight to exactly the
   * symbols that had some, and notes every symbol it reduced.
   */
  lemma HardCapsHold(raw: Weights, classes: Classes, caps: Caps)
    requires caps.Valid() && NonNegative(raw)
    ensures var z := Capped(raw, classes, caps);
            && Respects(z.weights, classes, caps, CLAMP_TOLERANCE)
            && Total(z.weights) <= Total(raw)
            && SameSupport(raw, z.weights, z.noted)
  {
    var r := Rounds(raw, {}, classes, caps, MaxRounds(raw));
    RoundsAccount(raw, {}, classes, caps, MaxRounds(raw));
    ClampAccounts(r, classes, caps);
    var z := Clamped(r, classes, caps);
    SupportChains(raw, r.weights, z.weights, r.noted, z.noted, z.noted);
  }

  /** When the loop converges the clamps do nothing, and capping the result again changes nothing and notes nothing. */
  lemma ConvergedIsFixed(raw: Weights, classes: Classes, caps: Caps)
    requires caps.Valid() && NonNegative(raw)
    requires !Rounds(raw, {}, classes, caps, MaxRounds(raw)).changed
    ensures var z := Capped(raw, classes, caps);
            && z == Rounds(raw, {}, classes, caps, MaxRounds(raw))
            && Capped(z.weights, classes, caps) == Round(z.weights, {}, false)
  {
    var r := Rounds(raw, {}, classes, caps, MaxRounds(raw));
    RoundsAccount(raw, {}, classes, caps, MaxRounds(raw));
    ClampsRest(r, classes, caps);
    UntouchedWhenWithin(r.weights, classes, caps);
  }

  lemma ClampsRest(r: Round, classes: Classes, caps: Caps)
    requires caps.Valid() && Respects(r.weights, classes, caps, LOOP_TOLERANCE)
    ensures Clamped(r, classes, caps) == r
  {
    NothingToMove(r.weights, classes, caps, CLAMP_TOLERANCE);
    assert ClipSet(r.weights, caps.perEtf, CLAMP_TOLERANCE) == {};
  }

  /** Weights that already respect both caps come back as they are. */
  lemma UntouchedWhenWithin(raw: Weights, classes: Classes, caps: Caps)
    requires caps.Valid() && NonNegative(raw) && Respects(raw, classes, caps, LOOP_TOLERANCE)
    ensures Capped(raw, classes, caps) == Round(raw, {}, false)
  {
    RoundRestsIff(raw, classes, caps);
    RoundsStep(raw, {}, classes, caps, MaxRounds(raw));
    ClampsRest(Round(raw, {}, false), classes, caps);
  }

  // ---- The cash reserve ----

  /** Weights too small to hold are dropped from the proposal. */
  function Held(w: Weights): Weights {
    map s | s in w && w[s] > LOOP_TOLERANCE :: w[s]
  }

  ghost function Reserve(w: Weights): real {
    var invested := Total(Held(w));
    if 1.0 - invested > 0.0 then 1.0 - invested else 0.0
  }

  lemma HeldIsLess(w: Weights)
    requires NonNegative(w)
    ensures 0.0 <= Total(Held(w)) <= Total(w)
  {
    var kept := map s | s in w :: if w[s] > LOOP_TOLERANCE then w[s] else 0.0;
    var keep := set s | s in w && w[s] > LOOP_TOLERANCE;
    TotalIgnoresZeros(kept, keep);
    assert Held(w) == map s | s in kept && s in keep :: kept[s];
    TotalMonotone(kept, w);
    TotalNonNegative(Held(w));
  }

  /** Raw weights of at most 1 in all leave a proposal whose investments and cash reserve make exactly 1. */
  lemma ReserveCompletes(raw: Weights, classes: Classes, caps: Caps)
    requires caps.Valid() && NonNegative(raw) && Total(raw) <= 1.0
    ensures var z := Capped(raw, classes, caps).weights;
            Total(Held(z)) + Reserve(z) == 1.0 && 0.0 <= Reserve(z)
  {
    HardCapsHold(raw, classes, caps);
    HeldIsLess(Capped(raw, classes, caps).weights);
  }

  /** The weights too small to hold are worth at most the tolerance each. */
  lemma HeldLosesLittle(w: Weights)
    requires NonNegative(w)
    ensures Total(w) - Total(Held(w)) <= Times(|w| as real, LOOP_TOLERANCE)
    ensures forall s :: s in w && w[s] > LOOP_TOLERANCE ==> s in Held(w) && Held(w)[s] == w[s]
  {
    var small := map s | s in w :: if s in Held(w) then 0.0 else w[s];
    var kept := map s | s in w :: if s in Held(w) then w[s] else 0.0;
    TotalAdd(kept, small, w);
    TotalIgnoresZeros(kept, Held(w).Keys);
    assert Held(w) == map s | s in kept && s in Held(w).Keys :: kept[s];
    TotalAtMost(small, LOOP_TOLERANCE);
    assert |small| == |small.Keys| && |w| == |w.Keys| && small.Keys == w.Keys;
  }

  lemma {:induction false} TotalAtMost(w: Weights, most: real)
    requires forall s :: s in w ==> w[s] <= most
    ensures Total(w) <= Times(|w| as real, most)
    decreases |w|
  {
    if s :| s in w {
      TotalSplit(w, s);
      TotalAtMost(w - {s}, most);
      assert |w| == |w - {s}| + 1;
    } else {
      TimesZero(most);
    }
  }
}
