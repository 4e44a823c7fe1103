/** What one call can cost, and what one call did cost. Dollars are exact. */
module ModelProfiles {
  import opened Common

  const PER_MILLION: real := 1000000.0
  const QUANTA_PER_DOLLAR: real := 100000000.0

  datatype Ttl = FiveMinutes | OneHour

  /** Prices per million tokens. No price for a tier means it is not billed apart. */
  datatype ModelProfile = ModelProfile(
    inputMiss: real, inputHit: real, write5m: Option<real>, write1h: Option<real>, output: real)

  const KIMI_K3 := ModelProfile(3.00, 0.30, Some(3.00), Some(6.00), 15.00)
  const KIMI_K26 := ModelProfile(0.95, 0.16, None, None, 4.00)

  predicate Priced(p: ModelProfile) {
    && p.inputMiss >= 0.0 && p.inputHit >= 0.0 && p.output >= 0.0
    && (p.write5m.Some? ==> p.write5m.value >= 0.0) && (p.write1h.Some? ==> p.write1h.value >= 0.0)
  }

  /** Round up to the money quantum. */
  function Money(x: real): (r: real)
    ensures x <= r < x + 1.0 / QUANTA_PER_DOLLAR
  {
    -((-(x * QUANTA_PER_DOLLAR)).Floor as real) / QUANTA_PER_DOLLAR
  }

  /** ... to a whole number of quanta. */
  lemma MoneyIsWhole(x: real)
    ensures Money(x) * QUANTA_PER_DOLLAR == (Money(x) * QUANTA_PER_DOLLAR).Floor as real
    ensures QUANTA_PER_DOLLAR == 100000000.0
  {
    var quanta := -((-(x * QUANTA_PER_DOLLAR)).Floor);
    assert Money(x) * QUANTA_PER_DOLLAR == quanta as real;
  }

  lemma MoneyMonotone(x: real, y: real)
    requires x <= y
    ensures Money(x) <= Money(y)
  {
    FloorMonotone(-(y * QUANTA_PER_DOLLAR), -(x * QUANTA_PER_DOLLAR));
  }

  lemma FloorMonotone(a: real, b: real)
    requires a <= b
    ensures a.Floor <= b.Floor
  {
  }

  function CacheWritePrice(p: ModelProfile, ttl: Ttl): real {
    var tier := if ttl == FiveMinutes then p.write5m else p.write1h;
    if tier.None? then p.inputMiss else tier.value
  }

  function ReserveInputPrice(p: ModelProfile): real {
    if p.write5m.None? then p.inputMiss else Max(p.inputMiss, p.write5m.value)
  }

  datatype Usage = Usage(input: int, output: int, cached: Option<int>, written: Option<int>)

  function Count(tokens: Option<int>): nat {
    if tokens.None? then 0 else MaxInt(0, tokens.value)
  }

  function Times(tokens: int, price: real): real {
    tokens as real * price
  }

  /** Millionths of a dollar, before rounding. */
  function Billed(p: ModelProfile, u: Usage, ttl: Ttl): real {
    var prompt := MaxInt(0, u.input);
    var cached := MinInt(prompt, Count(u.cached));
    var written := MinInt(prompt - cached, Count(u.written));
    var missed := prompt - cached - written;
    Times(missed, p.inputMiss) + Times(cached, p.inputHit) + Times(written, CacheWritePrice(p, ttl))
    + Times(MaxInt(0, u.output), p.output)
  }

  function UsageCost(p: ModelProfile, u: Usage, ttl: Ttl): real {
    Money(Billed(p, u, ttl) / PER_MILLION)
  }

  function BilledAtWorst(p: ModelProfile, inputBound: int, maxOutput: int): real {
    Times(MaxInt(0, inputBound), ReserveInputPrice(p)) + Times(MaxInt(0, maxOutput), p.output)
  }

  function WorstCaseCost(p: ModelProfile, inputBound: int, maxOutput: int): real {
    Money(BilledAtWorst(p, inputBound, maxOutput) / PER_MILLION)
  }

  lemma MoreTokens(m: int, n: int, price: real)
    requires m <= n && price >= 0.0
    ensures Times(m, price) <= Times(n, price)
  {
  }

  lemma DearerTokens(n: int, a: real, b: real)
    requires n >= 0 && a <= b
    ensures Times(n, a) <= Times(n, b)
  {
  }

  lemma SumOfTokens(a: int, b: int, c: int, price: real)
    ensures Times(a + b + c, price) == Times(a, price) + Times(b, price) + Times(c, price)
  {
  }

  lemma NoTokens(price: real)
    ensures Times(0, price) == 0.0
  {
  }

  /** The price of a prompt token written to a cache: its tier's, where it has one. */
  function WritePrice(p: ModelProfile, ttl: Ttl): real {
    match ttl
    case FiveMinutes => if p.write5m.Some? then p.write5m.value else p.inputMiss
    case OneHour => if p.write1h.Some? then p.write1h.value else p.inputMiss
  }

  /** Every token is billed once: a prompt token at the hit, write or miss price,
      and every output token at the output price. */
  lemma EveryTokenIsBilled(p: ModelProfile, missed: nat, cached: nat, written: nat, output: nat, ttl: Ttl)
    ensures Billed(p, Usage(missed + cached + written, output, Some(cached), Some(written)), ttl)
            == missed as real * p.inputMiss + cached as real * p.inputHit + written as real * WritePrice(p, ttl)
               + output as real * p.output
  {
    var u := Usage(missed + cached + written, output, Some(cached), Some(written));
    assert Billed(p, u, ttl) == Times(missed, p.inputMiss) + Times(cached, p.inputHit)
                                + Times(written, WritePrice(p, ttl)) + Times(output, p.output) by {
      hide Times;
    }
  }

  /** A report that does not add up is read as one that does: nothing counts below
      nothing, and no more of a prompt is cached, or written, than there is. */
  lemma ReportsAreReadAs(p: ModelProfile, u: Usage, ttl: Ttl)
    returns (missed: nat, cached: nat, written: nat, output: nat)
    ensures Billed(p, u, ttl)
            == Billed(p, Usage(missed + cached + written, output, Some(cached), Some(written)), ttl)
    ensures missed + cached + written == (if u.input < 0 then 0 else u.input)
    ensures output == if u.output < 0 then 0 else u.output
    ensures var prompt := missed + cached + written;
            && cached == (if u.cached.None? || u.cached.value < 0 then 0
                          else if u.cached.value > prompt then prompt else u.cached.value)
            && written == (if u.written.None? || u.written.value < 0 then 0
                           else if u.written.value > prompt - cached then prompt - cached else u.written.value)
  {
    var prompt := MaxInt(0, u.input);
    cached := MinInt(prompt, Count(u.cached));
    written := MinInt(prompt - cached, Count(u.written));
    missed, output := prompt - cached - written, MaxInt(0, u.output);
  }

  /** The worst case is not only a bound: a prompt written wholly to the
      five-minute cache, or not cached at all, costs exactly that. */
  lemma TheWorstCaseIsReached(p: ModelProfile, input: nat, output: nat)
    ensures var dearerWrite := p.write5m.Some? && p.write5m.value > p.inputMiss;
            WorstCaseCost(p, input, output)
            == UsageCost(p, Usage(input, output, None, if dearerWrite then Some(input) else None), FiveMinutes)
    ensures forall a: int, b: int :: a <= 0 && b <= 0 ==> BilledAtWorst(p, a, b) == 0.0
  {
    NoTokens(p.inputMiss);
    NoTokens(p.inputHit);
    NoTokens(p.output);
    NoTokens(ReserveInputPrice(p));
    NoTokens(CacheWritePrice(p, FiveMinutes));
  }

  lemma WorstCaseBounds(p: ModelProfile, u: Usage, ttl: Ttl, inputBound: int, maxOutput: int)
    requires Priced(p) && u.input <= inputBound && u.output <= maxOutput
    requires p.inputHit <= ReserveInputPrice(p) && CacheWritePrice(p, ttl) <= ReserveInputPrice(p)
    ensures UsageCost(p, u, ttl) <= WorstCaseCost(p, inputBound, maxOutput)
  {
    hide Times, Money, CacheWritePrice;
    var reserve := ReserveInputPrice(p);
    var prompt := MaxInt(0, u.input);
    var cached := MinInt(prompt, Count(u.cached));
    var written := MinInt(prompt - cached, Count(u.written));
    var missed := prompt - cached - written;
    // However a prompt is split, it costs no more than its dearest token throughout.
    DearerTokens(missed, p.inputMiss, reserve);
    DearerTokens(cached, p.inputHit, reserve);
    DearerTokens(written, CacheWritePrice(p, ttl), reserve);
    SumOfTokens(missed, cached, written, reserve);
    MoreTokens(prompt, MaxInt(0, inputBound), reserve);
    MoreTokens(MaxInt(0, u.output), MaxInt(0, maxOutput), p.output);
    MoneyMonotone(Billed(p, u, ttl) / PER_MILLION, BilledAtWorst(p, inputBound, maxOutput) / PER_MILLION);
  }

  /** The reservation covers every breakdown a call within its bounds can report. */
  ghost predicate Covers(p: ModelProfile, ttl: Ttl) {
    forall u: Usage, inputBound: int, maxOutput: int ::
      u.input <= inputBound && u.output <= maxOutput ==>
        UsageCost(p, u, ttl) <= WorstCaseCost(p, inputBound, maxOutput)
  }

  /** Enough tokens make any price difference show through the rounding. */
  lemma Enough(price: real, reserve: real) returns (n: nat)
    requires price > reserve
    ensures Money(Times(n, price) / PER_MILLION) > Money(Times(n, reserve) / PER_MILLION)
  {
    var difference := price - reserve;
    n := (1.0 / difference).Floor + 1;
    assert n as real * difference >= 1.0 by {
      assert n as real >= 1.0 / difference;
      ScaleUp(1.0 / difference, n as real, difference);
    }
    assert Times(n, price) == Times(n, reserve) + n as real * difference;
  }

  lemma ScaleUp(m: real, n: real, factor: real)
    requires m <= n && factor >= 0.0
    ensures m * factor <= n * factor
  {
  }

  /**
    The worst-case reservation is a bound on every call exactly when no way of
    billing an input token is dearer than the reserve rate. Nothing in the
    profile type demands it: it is a fact about prices.
   */
  lemma ReservationCoversIff(p: ModelProfile, ttl: Ttl)
    requires Priced(p)
    ensures Covers(p, ttl) <==>
              p.inputHit <= ReserveInputPrice(p) && CacheWritePrice(p, ttl) <= ReserveInputPrice(p)
  {
    var reserve := ReserveInputPrice(p);
    if p.inputHit <= reserve && CacheWritePrice(p, ttl) <= reserve {
      forall u: Usage, inputBound: int, maxOutput: int | u.input <= inputBound && u.output <= maxOutput
        ensures UsageCost(p, u, ttl) <= WorstCaseCost(p, inputBound, maxOutput)
      {
        WorstCaseBounds(p, u, ttl, inputBound, maxOutput);
      }
    } else if p.inputHit > reserve {
      CachedPromptEscapes(p, ttl);
    } else {
      WrittenPromptEscapes(p, ttl);
    }
  }

  /** A prompt served wholly from a cache dearer than the reserve escapes it. */
  lemma CachedPromptEscapes(p: ModelProfile, ttl: Ttl)
    requires Priced(p) && p.inputHit > ReserveInputPrice(p)
    ensures !Covers(p, ttl)
  {
    hide Money, Times, ReserveInputPrice;
    var n := Enough(p.inputHit, ReserveInputPrice(p));
    NoTokens(p.inputMiss);
    NoTokens(CacheWritePrice(p, ttl));
    NoTokens(p.output);
    assert UsageCost(p, Usage(n, 0, Some(n), None), ttl) > WorstCaseCost(p, n, 0);
  }

  /** So does a prompt written wholly to a cache dearer than the reserve. */
  lemma WrittenPromptEscapes(p: ModelProfile, ttl: Ttl)
    requires Priced(p) && CacheWritePrice(p, ttl) > ReserveInputPrice(p)
    ensures !Covers(p, ttl)
  {
    hide Money, Times, ReserveInputPrice, CacheWritePrice;
    var n := Enough(CacheWritePrice(p, ttl), ReserveInputPrice(p));
    NoTokens(p.inputMiss);
    NoTokens(p.inputHit);
    NoTokens(p.output);
    assert UsageCost(p, Usage(n, 0, None, Some(n)), ttl) > WorstCaseCost(p, n, 0);
  }

  /** Every registered model is covered at the five-minute tier; one of them is
      not at the one-hour tier, which is why no call may ask for it. */
  lemma RegisteredProfiles()
    ensures Covers(KIMI_K3, FiveMinutes) && Covers(KIMI_K26, FiveMinutes)
    ensures !Covers(KIMI_K3, OneHour) && Covers(KIMI_K26, OneHour)
  {
    ReservationCoversIff(KIMI_K3, FiveMinutes);
    ReservationCoversIff(KIMI_K26, FiveMinutes);
    ReservationCoversIff(KIMI_K3, OneHour);
    ReservationCoversIff(KIMI_K26, OneHour);
  }
}
