/**
  What a text request is charged: the hold taken before it is sent and the price settled
  afterwards.  Ratios are real numbers.
 */
module Pricing {

  /** Conversion of a float to an integer, which cuts off towards zero. */
  function Truncate(x: real): int {
    if x >= 0.0 then x.Floor else -((-x).Floor)
  }

  function Ceil(x: real): int {
    -((-x).Floor)
  }

  /** The estimate of a hold; `preConsumedQuota` is the configured number of tokens. */
  function GetPreConsumedQuota(preConsumedQuota: int, promptTokens: int, maxTokens: int, ratio: real): int {
    var preConsumedTokens := preConsumedQuota + promptTokens + (if maxTokens != 0 then maxTokens else 0);
    Truncate(preConsumedTokens as real * ratio)
  }

  function Price(promptTokens: int, completionTokens: int, completionRatio: real, ratio: real): int {
    Charged(Used(promptTokens, completionTokens, completionRatio) * ratio, ratio != 0.0, promptTokens + completionTokens)
  }

  /** Tokens weighted by what they cost next to a prompt token. */
  function Used(promptTokens: int, completionTokens: int, completionRatio: real): real {
    promptTokens as real + completionTokens as real * completionRatio
  }

  /** What is charged for a cost: nothing without tokens, and at least one unit unless the ratio is zero. */
  function Charged(cost: real, priced: bool, totalTokens: int): int {
    var quota := Ceil(cost);
    var charged := if priced && quota <= 0 then 1 else quota;
    if totalTokens == 0 then 0 else charged
  }

  // ---- Products, one at a time ----

  lemma ProductMonotone(x: real, y: real, factor: real)
    requires x <= y && factor >= 0.0
    ensures x * factor <= y * factor
  {
  }

  lemma ProductNonNegative(x: real, factor: real)
    requires x >= 0.0 && factor >= 0.0
    ensures x * factor >= 0.0
  {
  }

  lemma ProductDistributes(x: real, y: real, factor: real)
    ensures (x + y) * factor == x * factor + y * factor
  {
  }

  lemma ProductZeroIff(x: real, factor: real)
    requires x >= 0.0 && factor >= 0.0
    ensures x * factor > 0.0 <==> x > 0.0 && factor > 0.0
  {
  }

  lemma UsedNonNegative(prompt: nat, completion: nat, completionRatio: real)
    requires completionRatio >= 0.0
    ensures Used(prompt, completion, completionRatio) >= prompt as real
  {
    ProductNonNegative(completion as real, completionRatio);
  }

  lemma UsedMonotone(prompt: nat, completion: nat, prompt': nat, completion': nat, completionRatio: real)
    requires completionRatio >= 0.0 && prompt <= prompt' && completion <= completion'
    ensures Used(prompt, completion, completionRatio) <= Used(prompt', completion', completionRatio)
  {
    ProductMonotone(completion as real, completion' as real, completionRatio);
  }

  // ---- The hold against the price ----

  /** All tokens that were counted or asked for. */
  function Asked(counted: nat, maxTokens: nat): (asked: real)
    ensures asked >= 0.0
  {
    (counted + maxTokens) as real
  }

  /** What the completions asked for can cost beyond the price of prompts. */
  function Surcharge(maxTokens: nat, completionRatio: real): real {
    (completionRatio - 1.0) * maxTokens as real
  }

  lemma HoldIsTruncated(configured: int, counted: nat, maxTokens: nat, ratio: real)
    ensures GetPreConsumedQuota(configured, counted, maxTokens, ratio)
            == Truncate((configured as real + Asked(counted, maxTokens)) * ratio)
  {
    assert (configured + counted + maxTokens) as real == configured as real + (counted + maxTokens) as real;
  }

  /** The price is a rounded cost, but for two cases in which it is at most 1. */
  lemma PriceIsRounded(prompt: nat, completion: nat, completionRatio: real, ratio: real)
    ensures var price := Price(prompt, completion, completionRatio, ratio);
            price <= 1 || price == Ceil(Used(prompt, completion, completionRatio) * ratio)
  {
    hide Used;
  }

  lemma UsedAtMostAsked(prompt: nat, completion: nat, counted: nat, maxTokens: nat, completionRatio: real)
    requires 0.0 <= completionRatio <= 1.0 && prompt <= counted && completion <= maxTokens
    ensures Used(prompt, completion, completionRatio) <= Asked(counted, maxTokens)
  {
    ProductMonotone(completionRatio, 1.0, completion as real);
  }

  lemma RoundsBelow(price: int, cost: real, worth: real)
    requires price <= 1 || price == Ceil(cost)
    requires worth >= 1.0 && worth >= cost + 1.0
    ensures price <= Truncate(worth)
  {
  }

  lemma Covered(used: real, asked: real, base: real, ratio: real, price: int, hold: int)
    requires ratio >= 0.0 && 0.0 <= asked && used <= asked && base * ratio >= 1.0
    requires price <= 1 || price == Ceil(used * ratio)
    requires hold == Truncate((base + asked) * ratio)
    ensures price <= hold
  {
    hide Truncate, Ceil;
    ProductMonotone(used, asked, ratio);
    ProductNonNegative(asked, ratio);
    ProductDistributes(base, asked, ratio);
    RoundsBelow(price, used * ratio, (base + asked) * ratio);
  }

  /**
    The hold covers the price whenever completions are no dearer than prompts, usage stays within
    what was counted and asked for, and the configured part of the hold is worth at least one unit.
   */
  lemma HoldCoversPrice(configured: int, counted: nat, maxTokens: nat, prompt: nat, completion: nat,
                        completionRatio: real, ratio: real)
    requires ratio >= 0.0 && 0.0 <= completionRatio <= 1.0
    requires prompt <= counted && completion <= maxTokens
    requires configured as real * ratio >= 1.0
    ensures Price(prompt, completion, completionRatio, ratio)
            <= GetPreConsumedQuota(configured, counted, maxTokens, ratio)
  {
    hide Price, GetPreConsumedQuota, Used;
    UsedAtMostAsked(prompt, completion, counted, maxTokens, completionRatio);
    PriceIsRounded(prompt, completion, completionRatio, ratio);
    HoldIsTruncated(configured, counted, maxTokens, ratio);
    Covered(Used(prompt, completion, completionRatio), Asked(counted, maxTokens), configured as real, ratio,
            Price(prompt, completion, completionRatio, ratio), GetPreConsumedQuota(configured, counted, maxTokens, ratio));
  }

  /** Completions that are dearer than prompts, in terms of what they cost beyond that. */
  lemma UsedBeyondAsked(prompt: nat, completion: nat, counted: nat, maxTokens: nat, completionRatio: real)
    requires completionRatio >= 1.0 && prompt <= counted && completion <= maxTokens
    ensures Used(prompt, completion, completionRatio) <= Asked(counted, maxTokens) + Surcharge(maxTokens, completionRatio)
    ensures Surcharge(maxTokens, completionRatio) >= 0.0
  {
    var surplus := completionRatio - 1.0;
    ProductDistributes(1.0, surplus, completion as real);
    ProductMonotone(completion as real, maxTokens as real, surplus);
    ProductNonNegative(completion as real, surplus);
  }

  /** Rounding adds less than one unit to a price and takes less than one from a hold. */
  lemma RoundingGap(cost: real, worth: real, slack: real, price: int, hold: int)
    requires cost <= worth + slack && 0.0 <= worth && 0.0 <= slack
    requires price <= 1 || price == Ceil(cost)
    requires hold == Truncate(worth)
    ensures (price - hold) as real < slack + 2.0
  {
    assert (price - hold) as real == price as real - hold as real;
    assert hold as real > worth - 1.0;
  }

  lemma Excess(used: real, held: real, slack: real, ratio: real, price: int, hold: int)
    requires ratio >= 0.0 && 0.0 <= held && 0.0 <= slack && used <= held + slack
    requires price <= 1 || price == Ceil(used * ratio)
    requires hold == Truncate(held * ratio)
    ensures (price - hold) as real < slack * ratio + 2.0
  {
    hide Truncate, Ceil;
    ProductMonotone(used, held + slack, ratio);
    ProductDistributes(held, slack, ratio);
    ProductNonNegative(held, ratio);
    ProductNonNegative(slack, ratio);
    RoundingGap(used * ratio, held * ratio, slack * ratio, price, hold);
  }

  /** With dearer completions the price can exceed the hold, but by less than this. */
  lemma ExcessBounded(configured: nat, counted: nat, maxTokens: nat, prompt: nat, completion: nat,
                      completionRatio: real, ratio: real)
    requires ratio >= 0.0 && completionRatio >= 1.0
    requires prompt <= counted && completion <= maxTokens
    ensures (Price(prompt, completion, completionRatio, ratio)
             - GetPreConsumedQuota(configured, counted, maxTokens, ratio)) as real
            < Surcharge(maxTokens, completionRatio) * ratio + 2.0
  {
    hide Price, GetPreConsumedQuota, Used, Surcharge;
    UsedBeyondAsked(prompt, completion, counted, maxTokens, completionRatio);
    PriceIsRounded(prompt, completion, completionRatio, ratio);
    HoldIsTruncated(configured, counted, maxTokens, ratio);
    Excess(Used(prompt, completion, completionRatio), configured as real + Asked(counted, maxTokens),
           Surcharge(maxTokens, completionRatio), ratio,
           Price(prompt, completion, completionRatio, ratio), GetPreConsumedQuota(configured, counted, maxTokens, ratio));
  }

  // ---- The price by itself ----

  lemma ChargedMonotone(cost: real, cost': real, priced: bool, tokens: nat, tokens': nat)
    requires 0.0 <= cost <= cost' && tokens <= tokens'
    ensures 0 <= Charged(cost, priced, tokens) <= Charged(cost', priced, tokens')
  {
    assert Ceil(cost) <= Ceil(cost');
  }

  lemma PriceMonotone(prompt: nat, completion: nat, prompt': nat, completion': nat, completionRatio: real, ratio: real)
    requires ratio >= 0.0 && completionRatio >= 0.0 && prompt <= prompt' && completion <= completion'
    ensures 0 <= Price(prompt, completion, completionRatio, ratio) <= Price(prompt', completion', completionRatio, ratio)
  {
    var (used, used') := (Used(prompt, completion, completionRatio), Used(prompt', completion', completionRatio));
    UsedNonNegative(prompt, completion, completionRatio);
    UsedMonotone(prompt, completion, prompt', completion', completionRatio);
    hide Used, Charged;
    ProductNonNegative(used, ratio);
    ProductMonotone(used, used', ratio);
    ChargedMonotone(used * ratio, used' * ratio, ratio != 0.0, prompt + completion, prompt' + completion');
  }

  lemma PriceZeroIff(prompt: nat, completion: nat, completionRatio: real, ratio: real)
    requires ratio >= 0.0 && completionRatio >= 0.0
    ensures Price(prompt, completion, completionRatio, ratio) == 0 <==> ratio == 0.0 || prompt + completion == 0
  {
    var used := Used(prompt, completion, completionRatio);
    UsedNonNegative(prompt, completion, completionRatio);
    hide Used;
    ProductNonNegative(used, ratio);
    ProductZeroIff(used, ratio);
  }

  /** A price is what was used, rounded up to a whole unit, and never less than one. */
  lemma PriceIsCostRoundedUp(prompt: nat, completion: nat, completionRatio: real, ratio: real)
    requires ratio > 0.0 && completionRatio >= 0.0 && prompt + completion > 0
    ensures var (price, exact) := (Price(prompt, completion, completionRatio, ratio),
                                   (prompt as real + completion as real * completionRatio) * ratio);
            exact <= price as real && price >= 1 && (price == 1 || price as real < exact + 1.0)
  {
    ProductNonNegative(completion as real, completionRatio);
  }

  /** A hold is the worth of the configured, counted and asked tokens, cut off to a whole unit. */
  lemma HoldIsWorthCutOff(configured: nat, counted: nat, maxTokens: nat, ratio: real)
    requires ratio >= 0.0
    ensures var (hold, worth) := (GetPreConsumedQuota(configured, counted, maxTokens, ratio),
                                  (configured + counted + maxTokens) as real * ratio);
            0 <= hold && hold as real <= worth < hold as real + 1.0
  {
    ProductNonNegative((configured + counted + maxTokens) as real, ratio);
  }
}
