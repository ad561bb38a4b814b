/** Measured usage, its exact price, and the hysteresis that measured cache reuse drives. */
module Economy {
  import opened Wrappers
  import opened Words
  import Rolling

  const U128_MAX: nat := 0xFFFF_FFFF_FFFF_FFFF_FFFF_FFFF_FFFF_FFFF

  type u128 = x: nat | x <= U128_MAX

  // ------------------------------------------------------------------- usage

  /** Provider-reported counters; an unknown one is never zero. */
  datatype Usage = Usage(
    input: Option<u64>, uncached: Option<u64>, cacheWrite: Option<u64>, cacheRead: Option<u64>,
    output: Option<u64>, reasoning: Option<u64>)

  function Known(count: Option<u64>): nat {
    if count.Some? then count.value else 0
  }

  function InputParts(u: Usage): seq<Option<u64>> {
    [u.uncached, u.cacheWrite, u.cacheRead]
  }

  /** `validate`'s fold: the known parts added up in 64 bits, or overflow. */
  function CheckedSum(parts: seq<Option<u64>>): Option<u64> {
    if |parts| == 0 then Some(0)
    else
      var before := CheckedSum(parts[..|parts| - 1]);
      if before.None? || parts[|parts| - 1].None? then before
      else if before.value + parts[|parts| - 1].value > U64_MAX then None
      else Some(before.value + parts[|parts| - 1].value)
  }

  lemma {:induction false} SumAppended(parts: seq<Option<u64>>, part: Option<u64>)
    ensures var before := CheckedSum(parts);
            CheckedSum(parts + [part])
            == if before.None? then None
               else if before.value + Known(part) > U64_MAX then None
               else Some(before.value + Known(part))
  {
  }

  predicate Validates(u: Usage) {
    var parts := InputParts(u);
    var sum := CheckedSum(parts);
    && (u.output.Some? && u.reasoning.Some? ==> u.reasoning.value <= u.output.value)
    && sum.Some?
    && (u.input.Some? ==>
          && sum.value <= u.input.value
          && (u.uncached.Some? && u.cacheWrite.Some? && u.cacheRead.Some? ==> sum.value == u.input.value))
  }

  /**
    What a valid usage means: its known input parts fit in 64 bits and in the total, and make up the total when
    all of them are known; reasoning is part of the output.
   */
  lemma {:induction false} ValidMeans(u: Usage)
    ensures var sum := Known(u.uncached) + Known(u.cacheWrite) + Known(u.cacheRead);
            Validates(u) <==>
              && (u.output.Some? && u.reasoning.Some? ==> u.reasoning.value <= u.output.value)
              && sum <= U64_MAX
              && (u.input.Some? ==> sum <= u.input.value)
              && (u.input.Some? && u.uncached.Some? && u.cacheWrite.Some? && u.cacheRead.Some? ==> sum == u.input.value)
  {
    var none: seq<Option<u64>> := [];
    SumAppended(none, u.uncached);
    SumAppended(none + [u.uncached], u.cacheWrite);
    SumAppended(none + [u.uncached] + [u.cacheWrite], u.cacheRead);
    assert InputParts(u) == none + [u.uncached] + [u.cacheWrite] + [u.cacheRead];
  }

  // -------------------------------------------------------------------- price

  /** `blank` when trimming leaves nothing; `bytes` is the encoded length. */
  datatype Currency = Currency(blank: bool, bytes: nat)

  datatype Tariff = Tariff(
    currency: Currency, request: u64, uncachedRate: u64, cacheWriteRate: u64, cacheReadRate: u64, outputRate: u64)

  const MILLION: nat := 1_000_000

  function CeilMillion(n: nat): (r: nat)
    ensures MILLION * r >= n && MILLION * r < n + MILLION
  {
    (n + MILLION - 1) / MILLION
  }

  predicate Priceable(t: Tariff, u: Usage) {
    && Validates(u)
    && !t.currency.blank && t.currency.bytes <= 32
    && u.uncached.Some? && u.cacheWrite.Some? && u.cacheRead.Some? && u.output.Some?
  }

  /** The variable charge, in millionths of a micro-unit, without any bound. */
  function Variable(t: Tariff, u: Usage): nat
    requires Priceable(t, u)
  {
    u.uncached.value * t.uncachedRate + u.cacheWrite.value * t.cacheWriteRate
    + u.cacheRead.value * t.cacheReadRate + u.output.value * t.outputRate
  }

  /** The exact price: the whole variable charge rounded up once, plus the request. */
  function Price(t: Tariff, u: Usage): nat
    requires Priceable(t, u)
  {
    CeilMillion(Variable(t, u)) + t.request
  }

  function Billed(t: Tariff, u: Usage): seq<(u64, u64)>
    requires Priceable(t, u)
  {
    [(u.uncached.value, t.uncachedRate), (u.cacheWrite.value, t.cacheWriteRate),
     (u.cacheRead.value, t.cacheReadRate), (u.output.value, t.outputRate)]
  }

  function Product(item: (u64, u64)): nat {
    var tokens: nat, rate: nat := item.0, item.1;
    tokens * rate
  }

  function SumOfProducts(items: seq<(u64, u64)>): nat {
    if |items| == 0 then 0 else SumOfProducts(items[..|items| - 1]) + Product(items[|items| - 1])
  }

  lemma {:induction false} ProductAppended(items: seq<(u64, u64)>, item: (u64, u64))
    ensures SumOfProducts(items + [item]) == SumOfProducts(items) + Product(item)
  {
  }

  lemma {:induction false} BilledIsVariable(t: Tariff, u: Usage)
    requires Priceable(t, u)
    ensures SumOfProducts(Billed(t, u)) == Variable(t, u)
  {
    var b := Billed(t, u);
    var none: seq<(u64, u64)> := [];
    ProductAppended(none, b[0]);
    ProductAppended(none + [b[0]], b[1]);
    ProductAppended(none + [b[0]] + [b[1]], b[2]);
    ProductAppended(none + [b[0]] + [b[1]] + [b[2]], b[3]);
    assert b == none + [b[0]] + [b[1]] + [b[2]] + [b[3]];
  }

  lemma {:induction false} PrefixBelow(items: seq<(u64, u64)>, n: nat)
    requires n <= |items|
    ensures SumOfProducts(items[..n]) <= SumOfProducts(items)
    decreases |items| - n
  {
    if n < |items| {
      PrefixBelow(items, n + 1);
      assert items[..n + 1][..n] == items[..n];
    } else {
      assert items[..n] == items;
    }
  }

  lemma {:induction false} ProductFits(a: u64, b: u64)
    ensures Product((a, b)) <= U128_MAX
  {
    ProductBelow(a, b, U64_MAX);
  }

  lemma {:induction false} ProductBelow(a: nat, b: nat, m: nat)
    requires a <= m && b <= m
    ensures a * b <= m * m
  {
  }

  /**
    `charge_micros`: each 128-bit and 64-bit check refuses only what the exact price could not represent, so
    there is a result exactly when the usage is priceable and the exact price fits in 64 bits, and it is the price.
   */
  method ChargeMicros(t: Tariff, u: Usage) returns (charge: Option<u64>)
    ensures charge.Some? <==> Priceable(t, u) && Price(t, u) <= U64_MAX
    ensures charge.Some? ==> charge.value == Price(t, u)
  {
    if !Priceable(t, u) {
      return None;
    }
    var items := Billed(t, u);
    BilledIsVariable(t, u);
    var numerator: u128 := 0;
    var i := 0;
    while i < |items|
      invariant 0 <= i <= |items| && numerator == SumOfProducts(items[..i])
    {
      assert items[..i + 1][..i] == items[..i];
      ProductFits(items[i].0, items[i].1);
      var product: u128 := Product(items[i]);
      if numerator + product > U128_MAX {
        PrefixBelow(items, i + 1);
        TooLarge(t, u);
        return None;
      }
      numerator := numerator + product;
      i := i + 1;
    }
    assert items[..i] == items;
    var rounded: u128 := CeilMillion(numerator);
    if rounded + t.request > U128_MAX || rounded + t.request > U64_MAX {
      return None;
    }
    charge := Some(rounded + t.request);
  }

  lemma {:induction false} TooLarge(t: Tariff, u: Usage)
    requires Priceable(t, u) && Variable(t, u) > U128_MAX
    ensures Price(t, u) > U64_MAX
  {
  }

  /** What rounding every category up by itself would charge. */
  function RoundedApart(t: Tariff, u: Usage): nat
    requires Priceable(t, u)
  {
    CeilMillion(u.uncached.value * t.uncachedRate) + CeilMillion(u.cacheWrite.value * t.cacheWriteRate)
    + CeilMillion(u.cacheRead.value * t.cacheReadRate) + CeilMillion(u.output.value * t.outputRate) + t.request
  }

  /** Rounding once never charges more than rounding apart, and at most three micro-units less. */
  lemma {:induction false} RoundingOnce(t: Tariff, u: Usage)
    requires Priceable(t, u)
    ensures Price(t, u) <= RoundedApart(t, u) <= Price(t, u) + 3
  {
  }

  // --------------------------------------------------------------- hysteresis

  datatype Adaptive = Adaptive(high: nat, enter: nat, leave: nat, minObservations: nat)

  predicate Adapts(a: Adaptive, base: Rolling.Policy, maxInput: nat) {
    && base.high < a.high < maxInput
    && a.leave < a.enter <= 10_000
    && 2 <= a.minObservations <= 4
  }

  datatype Reason = Fixed | Unmeasured | MeasuredReuse | MeasuredMiss

  datatype Selection = Selection(policy: Rolling.Policy, reason: Reason)

  datatype Refusal = InvalidPolicy

  datatype Sample = Sample(total: u64, read: u64)

  /** What one call contributes: a sample only when every category is known and the input is not empty. */
  function Measured(u: Usage): (r: Option<Sample>)
    ensures r.Some? ==> r.value.read <= r.value.total
  {
    if && Validates(u) && u.uncached.Some? && u.cacheWrite.Some? && u.cacheRead.Some?
       && u.input.Some? && u.input.value != 0
    then
      ValidMeans(u);
      Some(Sample(u.input.value, u.cacheRead.value))
    else None
  }

  /** What the controller has been asked, in order. */
  datatype Op = Observed(usage: Usage) | Selected(base: Rolling.Policy, adaptive: Option<Adaptive>, maxInput: nat)

  /** All samples since the last call that could not be measured. */
  function Samples(history: seq<Op>): seq<Sample> {
    if |history| == 0 then []
    else
      var before, op := Samples(history[..|history| - 1]), history[|history| - 1];
      if op.Selected? then before
      else if Measured(op.usage).None? then []
      else before + [Measured(op.usage).value]
  }

  function Window(history: seq<Op>): (w: seq<Sample>)
    ensures |w| <= 4
  {
    var all := Samples(history);
    if |all| > 4 then all[|all| - 4..] else all
  }

  function Total(w: seq<Sample>): nat {
    if |w| == 0 then 0 else Total(w[..|w| - 1]) + w[|w| - 1].total
  }

  function Reads(w: seq<Sample>): nat {
    if |w| == 0 then 0 else Reads(w[..|w| - 1]) + w[|w| - 1].read
  }

  /** The cache-read share of the window is at least `bps` basis points. */
  predicate Meets(w: seq<Sample>, bps: nat) {
    Reads(w) * 10_000 >= Total(w) * bps
  }

  /** A selection that reads the window. */
  predicate Decides(op: Op, w: seq<Sample>) {
    && op.Selected? && op.adaptive.Some?
    && Rolling.Validates(op.base, op.maxInput) && Adapts(op.adaptive.value, op.base, op.maxInput)
    && |w| >= op.adaptive.value.minObservations
  }

  /** An operation that drops the sticky mode by itself. */
  predicate Resets(op: Op) {
    || (op.Observed? && Measured(op.usage).None?)
    || (op.Selected? && op.adaptive.None? && Rolling.Validates(op.base, op.maxInput))
  }

  /** The operation at `i` entered the sticky mode if it was not already in it. */
  ghost predicate EntersAt(history: seq<Op>, i: nat) {
    && i < |history|
    && Decides(history[i], Window(history[..i]))
    && Meets(Window(history[..i]), history[i].adaptive.value.enter)
  }

  /** The operation at `j` does not leave it. */
  ghost predicate StaysAt(history: seq<Op>, j: nat) {
    j < |history| ==>
      && !Resets(history[j])
      && (Decides(history[j], Window(history[..j])) ==> Meets(Window(history[..j]), history[j].adaptive.value.leave))
  }

  ghost predicate LatchedSince(history: seq<Op>, i: nat) {
    EntersAt(history, i) && forall j: nat :: i < j < |history| ==> StaysAt(history, j)
  }

  /** The sticky mode over a whole history: some selection reached the enter mark and nothing since has left it. */
  ghost predicate Latched(history: seq<Op>) {
    exists i: nat :: LatchedSince(history, i)
  }

  lemma {:induction false} SameBefore(history: seq<Op>, op: Op, i: nat)
    requires i < |history|
    ensures EntersAt(history + [op], i) <==> EntersAt(history, i)
    ensures StaysAt(history + [op], i) <==> StaysAt(history, i)
  {
    assert (history + [op])[..i] == history[..i];
  }

  lemma {:induction false} LatchedBefore(history: seq<Op>, op: Op, i: nat)
    requires i < |history|
    ensures LatchedSince(history + [op], i) <==> LatchedSince(history, i) && StaysAt(history + [op], |history|)
  {
    hide EntersAt, StaysAt;
    forall j: nat | i <= j < |history|
      ensures EntersAt(history + [op], j) <==> EntersAt(history, j)
      ensures StaysAt(history + [op], j) <==> StaysAt(history, j)
    {
      SameBefore(history, op, j);
    }
  }

  lemma {:induction false} EnterMeetsLeave(w: seq<Sample>, a: Adaptive)
    requires a.leave < a.enter && Meets(w, a.enter)
    ensures Meets(w, a.leave)
  {
    assert Total(w) * a.leave <= Total(w) * a.enter;
  }

  /** The mode after one more operation. */
  ghost predicate Next(history: seq<Op>, op: Op) {
    && !Resets(op)
    && if Decides(op, Window(history)) then
         Meets(Window(history), if Latched(history) then op.adaptive.value.leave else op.adaptive.value.enter)
       else Latched(history)
  }

  /** Whole-history hysteresis, one operation at a time. */
  lemma {:induction false} LatchedGrows(history: seq<Op>, op: Op)
    ensures Latched(history + [op]) <==> Next(history, op)
  {
    hide Meets, Resets, Decides, Window;
    var h := history + [op];
    assert h[..|history|] == history;
    if Latched(h) {
      var i: nat :| LatchedSince(h, i);
      if i < |history| {
        LatchedBefore(history, op, i);
        assert Latched(history);
      } else {
        DecidesShape(op, Window(history));
        EnterMeetsLeave(Window(history), op.adaptive.value);
      }
    }
    if Next(history, op) {
      if Latched(history) {
        var i: nat :| LatchedSince(history, i);
        LatchedBefore(history, op, i);
        assert LatchedSince(h, i);
      } else {
        assert LatchedSince(h, |history|);
      }
    }
  }

  lemma {:induction false} DecidesShape(op: Op, w: seq<Sample>)
    requires Decides(op, w)
    ensures op.Selected? && op.adaptive.Some? && op.adaptive.value.leave < op.adaptive.value.enter && !Resets(op)
  {
  }

  /** A measured call slides the window; an unmeasured one empties it; a selection leaves it alone. */
  lemma {:induction false} WindowGrows(history: seq<Op>, op: Op)
    ensures op.Selected? ==> Window(history + [op]) == Window(history)
    ensures op.Observed? && Measured(op.usage).None? ==> Window(history + [op]) == []
    ensures op.Observed? && Measured(op.usage).Some? ==>
              var more := Window(history) + [Measured(op.usage).value];
              Window(history + [op]) == if |more| > 4 then more[1..] else more
  {
  }

  /** While latched the window never shrinks, so it still holds what the entering policy asked for. */
  lemma {:induction false} LatchedMeasured(history: seq<Op>, i: nat)
    requires LatchedSince(history, i)
    ensures history[i].Selected? && history[i].adaptive.Some?
    ensures |Window(history)| >= history[i].adaptive.value.minObservations >= 2
    decreases |history|
  {
    hide Meets, Window;
    var before, op := history[..|history| - 1], history[|history| - 1];
    assert history == before + [op];
    WindowGrows(before, op);
    if i < |before| {
      assert before[i] == history[i];
      LatchedBefore(before, op, i);
      LatchedMeasured(before, i);
    }
  }

  lemma {:induction false} TotalsFit(w: seq<Sample>)
    ensures Total(w) <= |w| * U64_MAX && Reads(w) <= |w| * U64_MAX
  {
    if |w| > 0 {
      TotalsFit(w[..|w| - 1]);
    }
  }

  /** The controller: its two fields are what the whole history says they are. */
  class CacheResidencyController {
    var samples: seq<Sample>
    var sticky: bool
    ghost var history: seq<Op>

    ghost predicate Valid()
      reads this
    {
      samples == Window(history) && (sticky <==> Latched(history))
    }

    constructor ()
      ensures Valid() && history == []
    {
      samples, sticky, history := [], false, [];
    }

    /** `observe`. */
    method Observe(u: Usage)
      requires Valid()
      modifies this
      ensures Valid() && history == old(history) + [Observed(u)]
      ensures Measured(u).None? ==> samples == [] && !sticky
      ensures Measured(u).Some? ==> sticky == old(sticky) && Measured(u).value in samples
    {
      hide Latched, Window;
      WindowGrows(history, Observed(u));
      LatchedGrows(history, Observed(u));
      var sample := Measured(u);
      if sample.Some? {
        samples := samples + [sample.value];
        if |samples| > 4 {
          samples := samples[1..];
        }
        assert samples[|samples| - 1] == sample.value;
      } else {
        samples, sticky := [], false;
      }
      history := history + [Observed(u)];
    }

    /** The window's totals, in 128 bits. */
    method Totals() returns (total: u128, hits: u128)
      requires |samples| <= 4
      ensures total == Total(samples) && hits == Reads(samples)
      ensures total <= 4 * U64_MAX && hits <= 4 * U64_MAX
    {
      total, hits := 0, 0;
      var i := 0;
      while i < |samples|
        invariant 0 <= i <= |samples| && total == Total(samples[..i]) && hits == Reads(samples[..i])
      {
        assert samples[..i + 1][..i] == samples[..i];
        TotalsFit(samples[..i + 1]);
        total, hits := total + samples[i].total, hits + samples[i].read;
        i := i + 1;
      }
      assert samples[..i] == samples;
      TotalsFit(samples);
    }

    /**
      `select`: refused exactly when a policy does not validate; otherwise the policy returned validates too and
      differs from the base in its high mark at most. Between the two marks the mode never changes.
     */
    method Select(base: Rolling.Policy, adaptive: Option<Adaptive>, maxInput: nat)
      returns (r: Result<Selection, Refusal>)
      requires Valid()
      modifies this
      ensures Valid() && history == old(history) + [Selected(base, adaptive, maxInput)]
      ensures samples == old(samples)
      ensures r.Err? <==> !(Rolling.Validates(base, maxInput)
                            && (adaptive.Some? ==> Adapts(adaptive.value, base, maxInput)))
      ensures r.Err? ==> sticky == old(sticky)
      ensures r.Ok? ==> Rolling.Validates(r.value.policy, maxInput)
      ensures r.Ok? ==> r.value.policy == base.(high := r.value.policy.high)
      ensures r.Ok? ==> r.value.reason == if adaptive.None? then Fixed
                                     else if |samples| < adaptive.value.minObservations then Unmeasured
                                     else if sticky then MeasuredReuse else MeasuredMiss
      ensures r.Ok? ==> r.value.policy.high == if r.value.reason.MeasuredReuse? then adaptive.value.high else base.high
      ensures r.Ok? && adaptive.Some? && |samples| >= adaptive.value.minObservations
              && Meets(samples, adaptive.value.leave) && !Meets(samples, adaptive.value.enter)
              ==> sticky == old(sticky)
    {
      hide Latched, Window;
      WindowGrows(history, Selected(base, adaptive, maxInput));
      LatchedGrows(history, Selected(base, adaptive, maxInput));
      history := history + [Selected(base, adaptive, maxInput)];
      if !Rolling.Validates(base, maxInput) {
        return Err(InvalidPolicy);
      }
      if adaptive.None? {
        sticky := false;
        return Ok(Selection(base, Fixed));
      }
      var policy := adaptive.value;
      if !Adapts(policy, base, maxInput) {
        return Err(InvalidPolicy);
      }
      if |samples| < policy.minObservations {
        return Ok(Selection(base, Unmeasured));
      }
      var total, hits := Totals();
      var threshold := if sticky then policy.leave else policy.enter;
      ProductBelow10000(total, threshold);
      var left: u128 := hits * 10_000;
      var right: u128 := total * threshold;
      sticky := left >= right;
      r := if sticky then Ok(Selection(base.(high := policy.high), MeasuredReuse))
        else Ok(Selection(base, MeasuredMiss));
    }
  }

  lemma {:induction false} ProductBelow10000(total: nat, bps: nat)
    requires total <= 4 * U64_MAX && bps <= 10_000
    ensures 0 <= total * bps <= total * 10_000 <= U128_MAX
  {
  }
}
