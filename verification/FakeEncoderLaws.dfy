/** The byte debt over whole runs, and what capping the rates guarantees. */
module FakeEncoderLaws {
  import opened Timestamps
  import opened FakeEncoder

  // ---------------------------------------------------------------- debt

  function Sizes(layers: seq<SpatialLayer>): nat {
    if layers == [] then 0 else Sizes(layers[..|layers| - 1]) + layers[|layers| - 1].size
  }

  lemma {:induction false} LayersConserve(s: State, r: Request, n: nat)
    requires r.Valid() && n <= |Averages(s, r)| == |Next(s, r).last.layers|
    ensures Sizes(Next(s, r).last.layers[..n]) + s.debt
         == Sum(Averages(s, r)[..n]) + DebtAfter(IsKey(s, r), Averages(s, r)[..n], s.debt)
  {
    hide Next, Averages, IsKey, SizeOf, DebtAfter, Sizes, Sum, Request.Valid;
    if n == 0 {
      NothingPaidYet(IsKey(s, r), s.debt);
    } else {
      LayersConserve(s, r, n - 1);
      LayerSized(s, r, n - 1);
      var key, averages, layers := IsKey(s, r), Averages(s, r), Next(s, r).last.layers;
      LayerOn(key, averages, s.debt, n - 1);
      SumOn(averages, n - 1);
      SizesOn(layers, n - 1);
    }
  }

  lemma NothingPaidYet(key: bool, debt: nat)
    ensures Sizes([]) == 0 && Sum([]) == 0 && DebtAfter(key, [], debt) == debt
  {}

  lemma LayerSized(s: State, r: Request, i: nat)
    requires r.Valid() && i < |Averages(s, r)|
    ensures |Next(s, r).last.layers| == |Averages(s, r)|
    ensures Next(s, r).last.layers[i].size == SizeOf(IsKey(s, r), Averages(s, r), s.debt, i)
  {}

  lemma SumOn(xs: seq<nat>, i: nat)
    requires i < |xs|
    ensures Sum(xs[..i + 1]) == Sum(xs[..i]) + xs[i]
  {
    assert xs[..i + 1][..i] == xs[..i];
  }

  lemma SizesOn(layers: seq<SpatialLayer>, i: nat)
    requires i < |layers|
    ensures Sizes(layers[..i + 1]) == Sizes(layers[..i]) + layers[i].size
  {
    assert layers[..i + 1][..i] == layers[..i];
  }

  /** What the encoder goes through: frames, and InitEncode in between. */
  datatype Event = Init | Frame(r: Request)

  predicate Proper(es: seq<Event>) {
    forall e | e in es :: e.Frame? ==> e.r.Valid()
  }

  function Step(s: State, e: Event): State
    requires e.Frame? ==> e.r.Valid()
  {
    if e.Init? then State(FrameInfo(false, []), s.debt) else Next(s, e.r)
  }

  function Run(s: State, es: seq<Event>): State
    requires Proper(es)
    decreases |es|
  {
    if es == [] then s else Run(Step(s, es[0]), es[1..])
  }

  /** All bytes of all layers of a run, and all their averages. */
  function Bytes(s: State, es: seq<Event>): nat
    requires Proper(es)
    decreases |es|
  {
    if es == [] then 0
    else (if es[0].Frame? then Sizes(Next(s, es[0].r).last.layers) else 0) + Bytes(Step(s, es[0]), es[1..])
  }

  function Budget(s: State, es: seq<Event>): nat
    requires Proper(es)
    decreases |es|
  {
    if es == [] then 0
    else (if es[0].Frame? then Sum(Averages(s, es[0].r)) else 0) + Budget(Step(s, es[0]), es[1..])
  }

  lemma FrameConserves(s: State, r: Request)
    requires r.Valid()
    ensures Sizes(Next(s, r).last.layers) + s.debt == Sum(Averages(s, r)) + Next(s, r).debt
  {
    var n := |Averages(s, r)|;
    LayersConserve(s, r, n);
    assert Averages(s, r)[..n] == Averages(s, r);
    assert Next(s, r).last.layers[..n] == Next(s, r).last.layers;
    hide Averages, IsKey, DebtAfter, Sizes, Sum;
  }

  /** Over every run the bytes sent are the bytes of the average rate, plus the debt taken on and
      not yet repaid. */
  lemma {:induction false} DebtConserved(s: State, es: seq<Event>)
    requires Proper(es)
    ensures Bytes(s, es) + s.debt == Budget(s, es) + Run(s, es).debt
    decreases |es|
  {
    hide Next, Averages;
    if es != [] {
      if es[0].Frame? {
        FrameConserves(s, es[0].r);
      }
      DebtConserved(Step(s, es[0]), es[1..]);
    }
  }

  /** A layer that is not part of a key frame keeps at least half its average and never exceeds it;
      while debt remains it pays exactly its half, and without debt it pays nothing. */
  lemma DeltaKeepsHalf(s: State, r: Request, i: nat)
    requires r.Valid() && !IsKey(s, r) && i < |Averages(s, r)|
    ensures var size, average := Next(s, r).last.layers[i].size, Averages(s, r)[i];
            && average - average / 2 <= size <= average
            && (Next(s, r).debt > 0 ==> size == average - average / 2)
            && (s.debt == 0 ==> size == average)
  {
    var averages := Averages(s, r);
    PayableGrows(averages, i);
    assert Next(s, r).last.layers[i].size == SizeOf(false, averages, s.debt, i);
    assert Next(s, r).debt == Left(s.debt, Payable(averages));
    hide Next, Averages, IsKey, Payable;
  }

  lemma {:induction false} PayableGrows(averages: seq<nat>, i: nat)
    requires i < |averages|
    ensures Payable(averages[..i]) + averages[i] / 2 <= Payable(averages)
    decreases |averages|
  {
    var n := |averages| - 1;
    if i < n {
      PayableGrows(averages[..n], i);
      assert averages[..n][..i] == averages[..i];
    }
  }

  /** The layers of a run without key frames, each with an average of at least a. */
  predicate DeltaRun(s: State, es: seq<Event>, a: nat)
    requires Proper(es)
    decreases |es|
  {
    es != [] ==>
    && es[0].Frame? && !IsKey(s, es[0].r)
    && (forall i | 0 <= i < |Averages(s, es[0].r)| :: Averages(s, es[0].r)[i] >= a)
    && DeltaRun(Step(s, es[0]), es[1..], a)
  }

  function LayerCount(s: State, es: seq<Event>): nat
    requires Proper(es)
    decreases |es|
  {
    if es == [] then 0
    else (if es[0].Frame? then |Averages(s, es[0].r)| else 0) + LayerCount(Step(s, es[0]), es[1..])
  }

  function Times(count: nat, size: nat): nat {
    count * size
  }

  lemma {:induction false} PayableAtLeast(averages: seq<nat>, a: nat)
    requires forall i | 0 <= i < |averages| :: averages[i] >= a
    ensures Payable(averages) >= Times(|averages|, a / 2)
  {
    if averages != [] {
      PayableAtLeast(averages[..|averages| - 1], a);
    }
  }

  /** What the layers of a run can pay. */
  function Paid(s: State, es: seq<Event>): nat
    requires Proper(es)
    decreases |es|
  {
    if es == [] then 0
    else (if es[0].Frame? then Payable(Averages(s, es[0].r)) else 0) + Paid(Step(s, es[0]), es[1..])
  }

  /** Without key frames a debt goes down by exactly what the layers can pay, as long as it lasts. */
  lemma {:induction false} DebtShrinks(s: State, es: seq<Event>, a: nat)
    requires Proper(es) && DeltaRun(s, es, a)
    ensures Run(s, es).debt == Left(s.debt, Paid(s, es))
    decreases |es|
  {
    if es != [] {
      DebtShrinks(Step(s, es[0]), es[1..], a);
      assert Step(s, es[0]).debt == Left(s.debt, Payable(Averages(s, es[0].r)));
      hide Next, Averages, IsKey, Payable;
    }
  }

  lemma {:induction false} PaidAtLeast(s: State, es: seq<Event>, a: nat)
    requires Proper(es) && DeltaRun(s, es, a)
    ensures Paid(s, es) >= Times(LayerCount(s, es), a / 2)
    decreases |es|
  {
    hide *;
    if es == [] {
      NothingPaid(s, a / 2);
    } else {
      DeltaStep(s, es, a);
      var averages, t := Averages(s, es[0].r), Step(s, es[0]);
      PaidAtLeast(t, es[1..], a);
      AddPaid(Payable(averages), Paid(t, es[1..]), |averages|, LayerCount(t, es[1..]), a / 2);
    }
  }

  lemma NothingPaid(s: State, half: nat)
    ensures Paid(s, []) >= Times(LayerCount(s, []), half)
  {}

  lemma DeltaStep(s: State, es: seq<Event>, a: nat)
    requires Proper(es) && DeltaRun(s, es, a) && es != []
    ensures es[0].Frame? && es[0].r.Valid() && Proper(es[1..])
    ensures var averages, t := Averages(s, es[0].r), Step(s, es[0]);
            && DeltaRun(t, es[1..], a) && Payable(averages) >= Times(|averages|, a / 2)
            && Paid(s, es) == Payable(averages) + Paid(t, es[1..])
            && LayerCount(s, es) == |averages| + LayerCount(t, es[1..])
  {
    PayableAtLeast(Averages(s, es[0].r), a);
    hide Averages, Payable, Times;
  }

  lemma AddPaid(p: nat, q: nat, m: nat, n: nat, half: nat)
    requires p >= Times(m, half) && q >= Times(n, half)
    ensures p + q >= Times(m + n, half)
  {
    assert (m + n) * half == m * half + n * half;
  }

  lemma CeilingSuffices(debt: nat, half: nat, n: nat)
    requires half > 0 && n >= (debt + half - 1) / half
    ensures n * half >= debt
  {
    var q := (debt + half - 1) / half;
    assert half * q > debt - 1;
    assert n * half >= q * half;
  }

  /** A debt is gone after ceil(debt / floor(a / 2)) layers outside key frames. */
  lemma Repaid(s: State, es: seq<Event>, a: nat)
    requires Proper(es) && DeltaRun(s, es, a) && a >= 2
    requires LayerCount(s, es) >= (s.debt + a / 2 - 1) / (a / 2)
    ensures Run(s, es).debt == 0
  {
    hide Run, LayerCount, DeltaRun, Paid;
    DebtShrinks(s, es, a);
    PaidAtLeast(s, es, a);
    CeilingSuffices(s.debt, a / 2, LayerCount(s, es));
  }

  // ---------------------------------------------------------------- rates

  lemma ShareBounds(b: nat, max: nat, kbps: nat)
    requires kbps > 0
    ensures var share := Proportion(b, max, kbps);
            share * kbps <= b * max < (share + 1) * kbps
  {
  }

  lemma {:induction false} SumBounds(cells: seq<Option<nat>>, max: nat, kbps: nat)
    requires kbps > 0
    ensures var scaled := Scaled(cells, max, kbps);
            && SumBps(scaled) * kbps <= SumBps(cells) * max <= (SumBps(scaled) + |cells|) * kbps
  {
    if cells != [] {
      var n := |cells| - 1;
      var init := cells[..n];
      SumBounds(init, max, kbps);
      var scaled := Scaled(cells, max, kbps);
      assert scaled[..n] == Scaled(init, max, kbps);
      var b := if cells[n].Some? then cells[n].value else 0;
      var share := Proportion(b, max, kbps);
      ShareBounds(b, max, kbps);
      assert SumBps(scaled) == SumBps(scaled[..n]) + share;
      assert SumBps(cells) == SumBps(init) + b;
      AddBounds(SumBps(scaled[..n]), SumBps(init), share, b, max, kbps, n);
    }
  }

  lemma AddBounds(x: nat, y: nat, share: nat, b: nat, max: nat, kbps: nat, n: nat)
    requires x * kbps <= y * max <= (x + n) * kbps
    requires share * kbps <= b * max < (share + 1) * kbps
    ensures (x + share) * kbps <= (y + b) * max <= (x + share + n + 1) * kbps
  {
    assert (x + share) * kbps == x * kbps + share * kbps;
    assert (y + b) * max == y * max + b * max;
    assert (x + share + n + 1) * kbps == (x + n) * kbps + (share + 1) * kbps;
  }

  /** Although each share is taken in proportion to the rounded-down sum, the capped allocation
      never exceeds the maximum, and it falls short of it by less than two kbps. */
  lemma CapHolds(g: Grid, max: int)
    ensures max > 0 ==> SumKbps(Capped(g, max)) <= max
    ensures Capped(g, max) != g <==> 0 < max < SumKbps(g)
    ensures 0 < max < SumKbps(g) ==> max - 1 <= SumKbps(Capped(g, max))
  {
    if 0 < max < SumKbps(g) {
      var kbps := SumKbps(g);
      SumBounds(g, max, kbps);
      CapArithmetic(SumBps(g), SumBps(Scaled(g, max, kbps)), max, kbps);
    }
  }

  lemma TimesMonotone(x: nat, y: nat, k: nat)
    requires x <= y
    ensures x * k <= y * k
  {}

  lemma CapArithmetic(sum: nat, scaled: nat, max: nat, kbps: nat)
    requires kbps == sum / 1000 && 0 < max < kbps
    requires scaled * kbps <= sum * max <= (scaled + 20) * kbps
    ensures max - 1 <= scaled / 1000 <= max
  {
    var rest := sum - 1000 * kbps;
    var p := max * kbps;
    assert sum * max == 1000 * p + rest * max by {
      assert sum == 1000 * kbps + rest;
    }
    TimesMonotone(rest, 999, max);
    assert 1000 * (max + 1) * kbps == 1000 * p + 1000 * kbps;
    assert (1000 * max - 1) * kbps == 1000 * p - kbps;
    if scaled >= 1000 * (max + 1) {
      TimesMonotone(1000 * (max + 1), scaled, kbps);
    }
    if scaled + 20 < 1000 * max {
      TimesMonotone(scaled + 20, 1000 * max - 1, kbps);
    }
  }

  /** Every capped rate is its proportional share rounded down, within one bps. */
  lemma CellShare(g: Grid, max: int, i: nat)
    requires 0 < max < SumKbps(g) && i < |g|
    ensures Capped(g, max)[i].Some? <==> g[i].Some?
    ensures g[i].Some? ==>
              var b := Capped(g, max)[i].value;
              b * SumKbps(g) <= g[i].value * max < (b + 1) * SumKbps(g)
  {
    if g[i].Some? {
      ShareBounds(g[i].value, max, SumKbps(g));
    }
  }

  /** Capping an allocation again under the same maximum, a higher one or none leaves it as it is:
      raising the maximum never brings back a rate that was cut. */
  lemma CapSticks(g: Grid, max: int, later: int)
    requires 0 < max && (later >= max || later <= 0)
    ensures Capped(Capped(g, max), later) == Capped(g, max)
  {
    CapHolds(g, max);
  }
}
