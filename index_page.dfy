/**
 * The calculator page (src/pages/Index.tsx): the selection state, the handlers that rebuild
 * the model-usage list, the subscription total, and the gated recompute of the results.
 * Each React effect is an explicit method, run after the state change it depends on.
 */
module IndexPage {

  import opened Wrappers
  import opened Catalog
  import opened Sums
  import opened Calculation
  import opened ModelUsageInput
  import UsageAreaSelector

  /** handleAddModelUsage: the old list followed by the new usage. */
  function AppendUsage(usages: seq<ModelUsage>, usage: ModelUsage): (r: seq<ModelUsage>)
    ensures |r| == |usages| + 1 && r[..|usages|] == usages && r[|usages|] == usage
  {
    usages + [usage]
  }

  /** handleRemoveModelUsage: `filter(usage => usage.id !== id)`. */
  function RemoveUsage(usages: seq<ModelUsage>, id: string): (r: seq<ModelUsage>)
    ensures |r| <= |usages|
    ensures (forall i :: 0 <= i < |usages| ==> usages[i].id != id) ==> r == usages
  {
    if |usages| == 0 then []
    else if usages[0].id == id then RemoveUsage(usages[1..], id)
    else [usages[0]] + RemoveUsage(usages[1..], id)
  }

  /** Removal keeps exactly the usages whose id differs. */
  lemma {:induction false} RemoveUsageMembers(usages: seq<ModelUsage>, id: string)
    ensures forall u :: u in RemoveUsage(usages, id) <==> u in usages && u.id != id
    decreases |usages|
  {
    if |usages| > 0 {
      RemoveUsageMembers(usages[1..], id);
      assert usages == [usages[0]] + usages[1..];
    }
  }

  /** handleUpdatePromptsPerDay: only the count, and only on usages with this id, changes. */
  function UpdatePromptsPerDay(usages: seq<ModelUsage>, id: string, promptsPerDay: int): (r: seq<ModelUsage>)
    ensures |r| == |usages|
    ensures forall i :: 0 <= i < |r| ==>
              r[i].id == usages[i].id && r[i].model == usages[i].model && r[i].subscription == usages[i].subscription
    ensures forall i :: 0 <= i < |r| ==>
              r[i].promptsPerDay == if usages[i].id == id then promptsPerDay else usages[i].promptsPerDay
  {
    seq(|usages|, i requires 0 <= i < |usages| =>
      if usages[i].id == id then usages[i].(promptsPerDay := promptsPerDay) else usages[i])
  }

  /** handleUpdateSubscription: only the subscription, and only on usages with this id, changes. */
  function UpdateSubscription(usages: seq<ModelUsage>, id: string, subscription: Subscription): (r: seq<ModelUsage>)
    ensures |r| == |usages|
    ensures forall i :: 0 <= i < |r| ==>
              r[i].id == usages[i].id && r[i].model == usages[i].model && r[i].promptsPerDay == usages[i].promptsPerDay
    ensures forall i :: 0 <= i < |r| ==>
              r[i].subscription == if usages[i].id == id then Some(subscription) else usages[i].subscription
  {
    seq(|usages|, i requires 0 <= i < |usages| =>
      if usages[i].id == id then usages[i].(subscription := Some(subscription)) else usages[i])
  }

  /** `usage.subscription?.monthlyCost || 0`. */
  function SubscriptionCostOf(usage: ModelUsage): real
  {
    match usage.subscription
    case None => 0.0
    case Some(s) => s.monthlyCost
  }

  /** The subscription-total effect: monthly costs summed, a missing subscription counting 0. */
  function TotalSubscriptionCost(usages: seq<ModelUsage>): real
  {
    Sum(usages, SubscriptionCostOf)
  }

  /** The subscription total is nonnegative when every subscription cost is. */
  lemma TotalSubscriptionNonNegative(usages: seq<ModelUsage>)
    requires forall i :: 0 <= i < |usages| ==> SubscriptionCostOf(usages[i]) >= 0.0
    ensures TotalSubscriptionCost(usages) >= 0.0
  {
    SumNonNegative(usages, SubscriptionCostOf);
  }

  /** No usage carries a subscription: the state the form's new usages start in. */
  predicate NoSubscriptions(usages: seq<ModelUsage>)
  {
    forall u :: u in usages ==> u.subscription.None?
  }

  /**
   * Without subscriptions the total is 0, so the savings are minus the pay-as-you-go total
   * and the percentage is 0.
   */
  lemma {:induction false} NoSubscriptionsZeroTotal(usages: seq<ModelUsage>, payAsYouGo: real)
    requires NoSubscriptions(usages)
    ensures TotalSubscriptionCost(usages) == 0.0
    ensures MonthlySavings(TotalSubscriptionCost(usages), payAsYouGo) == -payAsYouGo
    ensures SavingsPercentage(TotalSubscriptionCost(usages), payAsYouGo) == 0.0
    decreases |usages|
  {
    if |usages| > 0 {
      assert usages[|usages| - 1] in usages;
      NoSubscriptionsZeroTotal(usages[..|usages| - 1], payAsYouGo);
    }
  }

  /**
   * Adding a usage the form built, removing one and changing a prompt count all keep the
   * usages free of subscriptions; only the subscription update sets one.
   */
  lemma NoSubscriptionsPreserved(usages: seq<ModelUsage>, models: seq<AIModel>, selectedModelId: string,
                                 promptsPerDay: int, stamp: string, id: string, newPromptsPerDay: int)
    requires NoSubscriptions(usages)
    ensures NewModelUsage(models, selectedModelId, promptsPerDay, stamp).Some? ==>
              NoSubscriptions(AppendUsage(usages, NewModelUsage(models, selectedModelId, promptsPerDay, stamp).value))
    ensures NoSubscriptions(RemoveUsage(usages, id))
    ensures NoSubscriptions(UpdatePromptsPerDay(usages, id, newPromptsPerDay))
  {
    RemoveUsageMembers(usages, id);
  }

  /** Removal keeps the survivors' relative order: it distributes over concatenation. */
  lemma {:induction false} RemoveUsageAppend(u: seq<ModelUsage>, v: seq<ModelUsage>, id: string)
    ensures RemoveUsage(u + v, id) == RemoveUsage(u, id) + RemoveUsage(v, id)
    decreases |u|
  {
    if |u| == 0 {
      assert u + v == v;
    } else {
      assert (u + v)[0] == u[0];
      assert (u + v)[1..] == u[1..] + v;
      RemoveUsageAppend(u[1..], v, id);
    }
  }

  /** Removing a freshly added usage by its (new) id restores the list. */
  lemma RemoveUndoesAppend(usages: seq<ModelUsage>, usage: ModelUsage)
    requires forall i :: 0 <= i < |usages| ==> usages[i].id != usage.id
    ensures RemoveUsage(AppendUsage(usages, usage), usage.id) == usages
  {
    RemoveUsageAppend(usages, [usage], usage.id);
    assert RemoveUsage([usage], usage.id) == [];
  }

  /** Adding a usage adds its subscription cost to the total. */
  lemma TotalAfterAppend(usages: seq<ModelUsage>, usage: ModelUsage)
    ensures TotalSubscriptionCost(AppendUsage(usages, usage)) == TotalSubscriptionCost(usages) + SubscriptionCostOf(usage)
  {
    assert AppendUsage(usages, usage)[..|usages|] == usages;
  }

  /** Removing the one usage with an id takes its subscription cost off the total. */
  lemma TotalAfterRemove(usages: seq<ModelUsage>, k: nat)
    requires k < |usages|
    requires forall i :: 0 <= i < |usages| && i != k ==> usages[i].id != usages[k].id
    ensures TotalSubscriptionCost(RemoveUsage(usages, usages[k].id))
            == TotalSubscriptionCost(usages) - SubscriptionCostOf(usages[k])
  {
    RemovedAt(usages, k);
    SumSplitAt(usages, k, SubscriptionCostOf);
    SumAppend(usages[..k], usages[k + 1..], SubscriptionCostOf);
  }

  /** Removing the one usage with an id cuts it out of the list. */
  lemma {:induction false} RemovedAt(usages: seq<ModelUsage>, k: nat)
    requires k < |usages|
    requires forall i :: 0 <= i < |usages| && i != k ==> usages[i].id != usages[k].id
    ensures RemoveUsage(usages, usages[k].id) == usages[..k] + usages[k + 1..]
    decreases k
  {
    var id := usages[k].id;
    var tail := usages[1..];
    if k == 0 {
      assert forall i :: 0 <= i < |tail| ==> tail[i].id != id by {
        forall i | 0 <= i < |tail| ensures tail[i].id != id { assert tail[i] == usages[i + 1]; }
      }
    } else {
      assert tail[k - 1] == usages[k];
      assert forall i :: 0 <= i < |tail| && i != k - 1 ==> tail[i].id != tail[k - 1].id by {
        forall i | 0 <= i < |tail| && i != k - 1 ensures tail[i].id != tail[k - 1].id {
          assert tail[i] == usages[i + 1];
        }
      }
      RemovedAt(tail, k - 1);
      assert usages[..k] == [usages[0]] + tail[..k - 1];
      assert usages[k + 1..] == tail[k..];
    }
  }

  /** Changing a prompt count leaves the subscription total as it was. */
  lemma TotalAfterPromptsUpdate(usages: seq<ModelUsage>, id: string, promptsPerDay: int)
    ensures TotalSubscriptionCost(UpdatePromptsPerDay(usages, id, promptsPerDay)) == TotalSubscriptionCost(usages)
  {
    SumPointwise(UpdatePromptsPerDay(usages, id, promptsPerDay), usages, SubscriptionCostOf);
  }

  /** Replacing the subscription of the one usage with an id swaps its cost in the total. */
  lemma TotalAfterSubscriptionUpdate(usages: seq<ModelUsage>, k: nat, subscription: Subscription)
    requires k < |usages|
    requires forall i :: 0 <= i < |usages| && i != k ==> usages[i].id != usages[k].id
    ensures TotalSubscriptionCost(UpdateSubscription(usages, usages[k].id, subscription))
            == TotalSubscriptionCost(usages) - SubscriptionCostOf(usages[k]) + subscription.monthlyCost
  {
    var r := UpdateSubscription(usages, usages[k].id, subscription);
    assert r[..k] == usages[..k];
    assert r[k + 1..] == usages[k + 1..];
    SumSplitAt(r, k, SubscriptionCostOf);
    SumSplitAt(usages, k, SubscriptionCostOf);
  }

  /** A list with one usage per model: so is its tail, which avoids the head's model. */
  lemma UniqueTail(usages: seq<ModelUsage>)
    requires |usages| > 0 && UniqueModels(usages)
    ensures UniqueModels(usages[1..])
    ensures forall u :: u in usages[1..] ==> u.model.id != usages[0].model.id
  {
    var tail := usages[1..];
    forall i, j | 0 <= i < j < |tail| ensures tail[i].model.id != tail[j].model.id {
      assert tail[i] == usages[i + 1] && tail[j] == usages[j + 1];
    }
    forall u | u in tail ensures u.model.id != usages[0].model.id {
      var k :| 0 <= k < |tail| && tail[k] == u;
      assert usages[k + 1] == u;
    }
  }

  /** A usage of a new model, put in front of a list with one usage per model, keeps it so. */
  lemma UniqueCons(usage: ModelUsage, rest: seq<ModelUsage>)
    requires UniqueModels(rest)
    requires forall u :: u in rest ==> u.model.id != usage.model.id
    ensures UniqueModels([usage] + rest)
  {
    var r := [usage] + rest;
    forall i, j | 0 <= i < j < |r| ensures r[i].model.id != r[j].model.id {
      assert r[j] == rest[j - 1];
      if i > 0 {
        assert r[i] == rest[i - 1];
      }
    }
  }

  /** Removal keeps at most one usage per model. */
  lemma {:induction false} RemoveKeepsUnique(usages: seq<ModelUsage>, id: string)
    requires UniqueModels(usages)
    ensures UniqueModels(RemoveUsage(usages, id))
    decreases |usages|
  {
    if |usages| > 0 {
      var tail := usages[1..];
      UniqueTail(usages);
      RemoveKeepsUnique(tail, id);
      if usages[0].id != id {
        RemoveUsageMembers(tail, id);
        UniqueCons(usages[0], RemoveUsage(tail, id));
      }
    }
  }

  /** Updates never rebind a usage to another model, so they keep at most one usage per model. */
  lemma UpdatesKeepUnique(usages: seq<ModelUsage>, id: string, promptsPerDay: int, subscription: Subscription)
    requires UniqueModels(usages)
    ensures UniqueModels(UpdatePromptsPerDay(usages, id, promptsPerDay))
    ensures UniqueModels(UpdateSubscription(usages, id, subscription))
  {
  }

  /**
   * Reconstruction, not the page's code: the page's own call to the token calculator is
   * ill-typed, so this is the pay-as-you-go total the explanation page describes, each
   * usage's tokens priced at its model's rates and summed over the usages.
   */
  function UsageCost(areas: seq<UsageArea>, usage: ModelUsage): real
  {
    var tokens := MonthlyTokensOf(areas, usage.promptsPerDay as real);
    PayAsYouGoCost(tokens.totalInputTokens, tokens.totalOutputTokens, usage.model)
  }

  /** Reconstruction: UsageCost summed over the usages. */
  function ReconstructedPayAsYouGo(areas: seq<UsageArea>, usages: seq<ModelUsage>): (r: real)
    ensures usages == [] ==> r == 0.0
  {
    Sum(usages, u => UsageCost(areas, u))
  }

  /** Reconstruction: scaling one usage's daily prompts by k scales its cost by k. */
  lemma UsageCostLinear(areas: seq<UsageArea>, usage: ModelUsage, k: int)
    ensures UsageCost(areas, usage.(promptsPerDay := k * usage.promptsPerDay)) == (k as real) * UsageCost(areas, usage)
  {
    var p := usage.promptsPerDay as real;
    var kr := k as real;
    assert (k * usage.promptsPerDay) as real == kr * p;
    MonthlyTokensLinear(areas, p, kr);
    var t := MonthlyTokensOf(areas, p);
    assert PayAsYouGoCost(kr * t.totalInputTokens, kr * t.totalOutputTokens, usage.model)
           == kr * PayAsYouGoCost(t.totalInputTokens, t.totalOutputTokens, usage.model);
  }

  /** Reconstruction: with no area selected, every usage costs 0. */
  lemma {:induction false} NoAreasNoCost(usages: seq<ModelUsage>)
    ensures ReconstructedPayAsYouGo([], usages) == 0.0
    decreases |usages|
  {
    if |usages| > 0 {
      NoAreasNoCost(usages[..|usages| - 1]);
    }
  }

  /** Reconstruction: nonnegative averages, counts and prices give a nonnegative bill. */
  lemma ReconstructedNonNegative(areas: seq<UsageArea>, usages: seq<ModelUsage>)
    requires forall i :: 0 <= i < |areas| ==> areas[i].avgInputTokens >= 0.0 && areas[i].avgOutputTokens >= 0.0
    requires forall i :: 0 <= i < |usages| ==>
               usages[i].promptsPerDay >= 0 && usages[i].model.inputCost >= 0.0 && usages[i].model.outputCost >= 0.0
    ensures ReconstructedPayAsYouGo(areas, usages) >= 0.0
  {
    forall i | 0 <= i < |usages|
      ensures UsageCost(areas, usages[i]) >= 0.0
    {
      MonthlyTokensNonNegative(areas, usages[i].promptsPerDay as real);
    }
    SumNonNegative(usages, u => UsageCost(areas, u));
  }

  /** The page component's state. */
  class Index {
    var selectedAreas: seq<UsageArea>
    var selectedModelUsages: seq<ModelUsage>
    var payAsYouGoCost: real
    var totalSubscriptionCost: real
    var monthlySavings: real
    var savingsPercentage: real
    var showResults: bool

    constructor()
      ensures selectedAreas == [] && selectedModelUsages == []
      ensures payAsYouGoCost == 0.0 && totalSubscriptionCost == 0.0
      ensures monthlySavings == 0.0 && savingsPercentage == 0.0
      ensures !showResults
    {
      selectedAreas := [];
      selectedModelUsages := [];
      payAsYouGoCost := 0.0;
      totalSubscriptionCost := 0.0;
      monthlySavings := 0.0;
      savingsPercentage := 0.0;
      showResults := false;
    }

    /** isFormComplete: at least one area and at least one model usage. */
    predicate IsFormComplete()
      reads this
    {
      |selectedAreas| > 0 && |selectedModelUsages| > 0
    }

    /** What the two effects establish once they have both run on the current selection. */
    ghost predicate Settled()
      reads this
    {
      && totalSubscriptionCost == TotalSubscriptionCost(selectedModelUsages)
      && (IsFormComplete() ==>
            && monthlySavings + payAsYouGoCost == totalSubscriptionCost
            && savingsPercentage == SavingsPercentage(totalSubscriptionCost, payAsYouGoCost))
    }

    /** The area selector's onChange, fed with the toggled list. */
    method ToggleSelectedArea(area: UsageArea)
      modifies this`selectedAreas
      ensures selectedAreas == UsageAreaSelector.ToggleArea(old(selectedAreas), area)
    {
      selectedAreas := UsageAreaSelector.ToggleArea(selectedAreas, area);
    }

    method HandleAddModelUsage(usage: ModelUsage)
      modifies this`selectedModelUsages
      ensures selectedModelUsages == AppendUsage(old(selectedModelUsages), usage)
    {
      selectedModelUsages := AppendUsage(selectedModelUsages, usage);
    }

    method HandleRemoveModelUsage(id: string)
      modifies this`selectedModelUsages
      ensures selectedModelUsages == RemoveUsage(old(selectedModelUsages), id)
    {
      selectedModelUsages := RemoveUsage(selectedModelUsages, id);
    }

    method HandleUpdatePromptsPerDay(id: string, promptsPerDay: int)
      modifies this`selectedModelUsages
      ensures selectedModelUsages == UpdatePromptsPerDay(old(selectedModelUsages), id, promptsPerDay)
    {
      selectedModelUsages := UpdatePromptsPerDay(selectedModelUsages, id, promptsPerDay);
    }

    method HandleUpdateSubscription(id: string, subscription: Subscription)
      modifies this`selectedModelUsages
      ensures selectedModelUsages == UpdateSubscription(old(selectedModelUsages), id, subscription)
    {
      selectedModelUsages := UpdateSubscription(selectedModelUsages, id, subscription);
    }

    /** The first effect: the subscription total follows the usage list. */
    method SyncSubscriptionTotal()
      modifies this`totalSubscriptionCost
      ensures totalSubscriptionCost == TotalSubscriptionCost(selectedModelUsages)
    {
      totalSubscriptionCost := TotalSubscriptionCost(selectedModelUsages);
    }

    /**
     * The second effect, given the pay-as-you-go total: when the form is complete the three
     * results are recomputed from it and the subscription total; otherwise the previous
     * results stay as they were.
     */
    method RecomputeResults(payAsYouGo: real)
      modifies this`payAsYouGoCost, this`monthlySavings, this`savingsPercentage
      ensures IsFormComplete() ==>
                && payAsYouGoCost == payAsYouGo
                && monthlySavings == totalSubscriptionCost - payAsYouGo
                && savingsPercentage == SavingsPercentage(totalSubscriptionCost, payAsYouGo)
      ensures !IsFormComplete() ==>
                && payAsYouGoCost == old(payAsYouGoCost)
                && monthlySavings == old(monthlySavings)
                && savingsPercentage == old(savingsPercentage)
    {
      if IsFormComplete() {
        payAsYouGoCost := payAsYouGo;
        monthlySavings := MonthlySavings(totalSubscriptionCost, payAsYouGo);
        savingsPercentage := SavingsPercentage(totalSubscriptionCost, payAsYouGo);
      }
    }

    /** Both effects in order, as they stand once React has re-run them after a change. */
    method Settle(payAsYouGo: real)
      modifies this`totalSubscriptionCost, this`payAsYouGoCost, this`monthlySavings, this`savingsPercentage
      ensures Settled()
      ensures IsFormComplete() ==> payAsYouGoCost == payAsYouGo
      ensures !IsFormComplete() ==>
                && payAsYouGoCost == old(payAsYouGoCost)
                && monthlySavings == old(monthlySavings)
                && savingsPercentage == old(savingsPercentage)
    {
      SyncSubscriptionTotal();
      RecomputeResults(payAsYouGo);
    }

    /** The calculate button: reveals the results (shown only while the form is complete). */
    method HandleCalculate()
      modifies this`showResults
      ensures showResults
    {
      showResults := true;
    }
  }
}
