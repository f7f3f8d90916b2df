/** Token and spend accounting across a run. */
module Cost {
  import opened Wire

  datatype Pricing = Pricing(prompt: real, completion: real)

  /** Decimal arithmetic is exact here. */
  function CostFor(p: Pricing, prompt: int, completion: int): real {
    (prompt as real) * p.prompt / 1000000.0 + (completion as real) * p.completion / 1000000.0
  }

  datatype Budget = Budget(maxCost: Option<real>, maxTokens: Option<int>)

  datatype CostEntry = CostEntry(model: Option<string>, prompt: int, completion: int, cost: real)

  datatype BudgetExceeded = BudgetExceeded(spent: real, limit: Option<real>, tokens: int, limitTokens: Option<int>)

  /** Usage as a provider reports it; each count may be missing. */
  datatype Usage = Usage(input: Option<int>, output: Option<int>, total: Option<int>)

  function OrZero(n: Option<int>): int { if n.Some? then n.value else 0 }

  /** A million prompt tokens cost the prompt price, a million completion tokens the completion price. */
  predicate PricedAt(p: Pricing, e: CostEntry) {
    e.cost * 1000000.0 == e.prompt as real * p.prompt + e.completion as real * p.completion
  }

  /** What is booked for a call: the counts it reported, and their price per million tokens of each kind. */
  function EntryOf(model: Option<string>, usage: Option<Usage>, pricing: Option<Pricing>): (e: CostEntry)
    ensures e.model == model
    ensures e.prompt == match usage case Some(Usage(Some(n), _, _)) => n case _ => 0
    ensures e.completion == match usage case Some(Usage(_, Some(n), _)) => n case _ => 0
    ensures match pricing case Some(p) => PricedAt(p, e) case None => e.cost == 0.0
  {
    var prompt := if usage.Some? then OrZero(usage.value.input) else 0;
    var completion := if usage.Some? then OrZero(usage.value.output) else 0;
    CostEntry(model, prompt, completion, if pricing.Some? then CostFor(pricing.value, prompt, completion) else 0.0)
  }

  function PromptSum(es: seq<CostEntry>): int {
    if es == [] then 0 else PromptSum(es[..|es| - 1]) + es[|es| - 1].prompt
  }

  function CompletionSum(es: seq<CostEntry>): int {
    if es == [] then 0 else CompletionSum(es[..|es| - 1]) + es[|es| - 1].completion
  }

  function CostSum(es: seq<CostEntry>): real {
    if es == [] then 0.0 else CostSum(es[..|es| - 1]) + es[|es| - 1].cost
  }

  /** The calls recorded so far are over the budget on either axis. */
  predicate Over(b: Budget, es: seq<CostEntry>) {
    || (b.maxCost.Some? && CostSum(es) > b.maxCost.value)
    || (b.maxTokens.Some? && PromptSum(es) + CompletionSum(es) > b.maxTokens.value)
  }

  lemma SumsAppend(es: seq<CostEntry>, e: CostEntry)
    ensures PromptSum(es + [e]) == PromptSum(es) + e.prompt
    ensures CompletionSum(es + [e]) == CompletionSum(es) + e.completion
    ensures CostSum(es + [e]) == CostSum(es) + e.cost
  {
    assert (es + [e])[..|es|] == es;
  }

  /** Under one price list a run costs what its total counts cost. */
  lemma {:induction false} OnePriceList(p: Pricing, es: seq<CostEntry>)
    requires forall i :: 0 <= i < |es| ==> PricedAt(p, es[i])
    ensures CostSum(es) * 1000000.0 == PromptSum(es) as real * p.prompt + CompletionSum(es) as real * p.completion
  {
    if es != [] {
      var e := es[|es| - 1];
      OnePriceList(p, es[..|es| - 1]);
      assert PricedAt(p, e);
    }
  }

  class CostTracker {
    var entries: seq<CostEntry>
    var totalPrompt: int
    var totalCompletion: int
    var totalCost: real

    ghost predicate Valid()
      reads this
    {
      totalPrompt == PromptSum(entries) && totalCompletion == CompletionSum(entries) && totalCost == CostSum(entries)
    }

    constructor ()
      ensures Valid() && entries == []
    {
      entries, totalPrompt, totalCompletion, totalCost := [], 0, 0, 0.0;
    }

    /** Books one entry. */
    method Add(e: CostEntry)
      requires Valid()
      modifies this
      ensures Valid() && entries == old(entries) + [e]
    {
      SumsAppend(entries, e);
      totalPrompt := totalPrompt + e.prompt;
      totalCompletion := totalCompletion + e.completion;
      totalCost := totalCost + e.cost;
      entries := entries + [e];
    }

    method Record(model: Option<string>, usage: Option<Usage>, pricing: Option<Pricing>)
      requires Valid()
      modifies this
      ensures Valid() && entries == old(entries) + [EntryOf(model, usage, pricing)]
    {
      Add(EntryOf(model, usage, pricing));
    }

    method ExceedsBudget(budget: Budget) returns (exceeded: Option<BudgetExceeded>)
      requires Valid()
      ensures exceeded.Some? <==> Over(budget, entries)
      ensures exceeded.Some? ==>
        exceeded.value == BudgetExceeded(CostSum(entries), budget.maxCost, PromptSum(entries) + CompletionSum(entries), budget.maxTokens)
    {
      if budget.maxCost.Some? && totalCost > budget.maxCost.value {
        return Some(BudgetExceeded(totalCost, budget.maxCost, totalPrompt + totalCompletion, budget.maxTokens));
      }
      if budget.maxTokens.Some? && totalPrompt + totalCompletion > budget.maxTokens.value {
        return Some(BudgetExceeded(totalCost, budget.maxCost, totalPrompt + totalCompletion, budget.maxTokens));
      }
      return None;
    }
  }
}
