/**
 * The model-usage form (src/components/ModelUsageInput.tsx): the list of models still on
 * offer, the guard on typed prompt counts, and the "add model" step that emits a new usage
 * and resets the form. The usage id's time stamp (a clock reading) is a parameter.
 */
module ModelUsageInput {

  import opened Wrappers
  import opened Catalog

  /**
   * One model in the user's comparison. The subscription is optional: the page reads and
   * writes it although the form's own type does not declare it.
   */
  datatype ModelUsage = ModelUsage(
    id: string,
    model: AIModel,
    promptsPerDay: int,
    subscription: Option<Subscription>)

  /** The form's initial and post-reset daily prompt count. */
  const DefaultPromptsPerDay: int := 10

  /** Some usage is bound to a model with this id. */
  predicate ModelInUse(usages: seq<ModelUsage>, modelId: string)
  {
    exists i :: 0 <= i < |usages| && usages[i].model.id == modelId
  }

  /** At most one usage per model id. */
  ghost predicate UniqueModels(usages: seq<ModelUsage>)
  {
    forall i, j :: 0 <= i < j < |usages| ==> usages[i].model.id != usages[j].model.id
  }

  /** `models.find(m => m.id === id)`: the first model with this id, if any. */
  function FindModel(models: seq<AIModel>, id: string): (r: Option<AIModel>)
    ensures r.None? <==> forall i :: 0 <= i < |models| ==> models[i].id != id
    ensures r.Some? ==> exists i :: 0 <= i < |models| && models[i] == r.value && r.value.id == id
                                    && forall j :: 0 <= j < i ==> models[j].id != id
  {
    if |models| == 0 then None
    else if models[0].id == id then Some(models[0])
    else
      var r := FindModel(models[1..], id);
      assert r.Some? ==> exists i :: 0 < i < |models| && models[i] == r.value && r.value.id == id
                                     && forall j :: 0 <= j < i ==> models[j].id != id by {
        if r.Some? {
          var k :| 0 <= k < |models[1..]| && models[1..][k] == r.value && r.value.id == id
                   && forall j :: 0 <= j < k ==> models[1..][j].id != id;
          assert forall j :: 0 <= j < k + 1 ==> models[j].id != id by {
            forall j | 0 <= j < k + 1 ensures models[j].id != id {
              if j > 0 { assert models[j] == models[1..][j - 1]; }
            }
          }
        }
      }
      r
  }

  /**
   * The usage handleAddModel emits, or None when it returns early: nothing is selected, or
   * the selected id matches no model of the catalog.
   */
  function NewModelUsage(models: seq<AIModel>, selectedModelId: string, promptsPerDay: int, stamp: string)
    : (r: Option<ModelUsage>)
    ensures r.None? <==> selectedModelId == "" || forall i :: 0 <= i < |models| ==> models[i].id != selectedModelId
    ensures r.Some? ==> r.value.model in models && r.value.model.id == selectedModelId
    ensures r.Some? ==> r.value.promptsPerDay == promptsPerDay && r.value.subscription.None?
    ensures r.Some? ==> r.value.id == selectedModelId + "-" + stamp
  {
    if selectedModelId == "" then None
    else
      match FindModel(models, selectedModelId)
      case None => None
      case Some(model) => Some(ModelUsage(selectedModelId + "-" + stamp, model, promptsPerDay, None))
  }

  /** handlePromptsChange: the count passed on for a listed usage; only parsed values above 0. */
  function HandlePromptsChange(parsed: Option<int>): (forwarded: Option<int>)
    ensures forwarded.Some? <==> parsed.Some? && parsed.value > 0
    ensures forwarded.Some? ==> forwarded.value == parsed.value
  {
    match parsed
    case Some(v) => if v > 0 then Some(v) else None
    case None => None
  }

  /** `availableModels`: the catalog models no usage is bound to, in catalog order. */
  function AvailableModels(models: seq<AIModel>, usages: seq<ModelUsage>): (r: seq<AIModel>)
    ensures forall m: AIModel :: m in r <==> m in models && !ModelInUse(usages, m.id)
    ensures |r| <= |models|
    ensures usages == [] ==> r == models
  {
    if |models| == 0 then []
    else if ModelInUse(usages, models[0].id) then AvailableModels(models[1..], usages)
    else [models[0]] + AvailableModels(models[1..], usages)
  }

  /** The offer keeps catalog order: it distributes over concatenation of the catalog. */
  lemma {:induction false} AvailableModelsAppend(m1: seq<AIModel>, m2: seq<AIModel>, usages: seq<ModelUsage>)
    ensures AvailableModels(m1 + m2, usages) == AvailableModels(m1, usages) + AvailableModels(m2, usages)
    decreases |m1|
  {
    if |m1| == 0 {
      assert m1 + m2 == m2;
    } else {
      assert (m1 + m2)[0] == m1[0];
      assert (m1 + m2)[1..] == m1[1..] + m2;
      AvailableModelsAppend(m1[1..], m2, usages);
    }
  }

  /** Nothing is on offer exactly when every catalog model is in use. */
  lemma AvailableModelsEmpty(models: seq<AIModel>, usages: seq<ModelUsage>)
    ensures AvailableModels(models, usages) == [] <==> forall i :: 0 <= i < |models| ==> ModelInUse(usages, models[i].id)
  {
    var r := AvailableModels(models, usages);
    if r != [] {
      assert r[0] in r;
    } else {
      forall i | 0 <= i < |models| ensures ModelInUse(usages, models[i].id) {
        assert models[i] !in r;
      }
    }
  }

  /** Adding a model taken from the offer keeps at most one usage per model. */
  lemma AddOfferedKeepsUnique(models: seq<AIModel>, usages: seq<ModelUsage>, selectedModelId: string,
                              promptsPerDay: int, stamp: string)
    requires UniqueModels(usages)
    requires selectedModelId != ""
    requires exists m :: m in AvailableModels(models, usages) && m.id == selectedModelId
    ensures NewModelUsage(models, selectedModelId, promptsPerDay, stamp).Some?
    ensures UniqueModels(usages + [NewModelUsage(models, selectedModelId, promptsPerDay, stamp).value])
  {
    var m :| m in AvailableModels(models, usages) && m.id == selectedModelId;
    assert m in models;
    var u := NewModelUsage(models, selectedModelId, promptsPerDay, stamp).value;
    var r := usages + [u];
    forall i, j | 0 <= i < j < |r| ensures r[i].model.id != r[j].model.id {
      if j == |usages| {
        assert r[i] == usages[i];
        assert !ModelInUse(usages, selectedModelId);
      }
    }
  }

  /** The form's own state: the chosen model id and the daily prompt count of the next usage. */
  class ModelUsageForm {
    var selectedModelId: string
    var promptsPerDay: int

    /** The count field only ever holds values above 0. */
    ghost predicate Valid()
      reads this
    {
      promptsPerDay > 0
    }

    constructor()
      ensures Valid()
      ensures selectedModelId == "" && promptsPerDay == DefaultPromptsPerDay
    {
      selectedModelId := "";
      promptsPerDay := DefaultPromptsPerDay;
    }

    /** The model picker's onValueChange. */
    method SelectModel(id: string)
      modifies this`selectedModelId
      ensures selectedModelId == id
    {
      selectedModelId := id;
    }

    /** The new usage's count field: only parsed values above 0 are taken. */
    method HandleNewPromptsChange(parsed: Option<int>)
      requires Valid()
      modifies this`promptsPerDay
      ensures Valid()
      ensures promptsPerDay == if parsed.Some? && parsed.value > 0 then parsed.value else old(promptsPerDay)
    {
      match parsed {
        case Some(v) =>
          if v > 0 {
            promptsPerDay := v;
          }
        case None =>
      }
    }

    /**
     * handleAddModel: returns the usage passed to onAddModelUsage (None if it returns early)
     * and, having emitted one, resets the form.
     */
    method HandleAddModel(models: seq<AIModel>, stamp: string) returns (added: Option<ModelUsage>)
      requires Valid()
      modifies this
      ensures Valid()
      ensures added == NewModelUsage(models, old(selectedModelId), old(promptsPerDay), stamp)
      ensures added.Some? ==> selectedModelId == "" && promptsPerDay == DefaultPromptsPerDay
      ensures added.None? ==> selectedModelId == old(selectedModelId) && promptsPerDay == old(promptsPerDay)
    {
      if selectedModelId == "" {
        return None;
      }
      var selectedModel := FindModel(models, selectedModelId);
      if selectedModel.None? {
        return None;
      }
      added := Some(ModelUsage(selectedModelId + "-" + stamp, selectedModel.value, promptsPerDay, None));
      selectedModelId := "";
      promptsPerDay := DefaultPromptsPerDay;
    }
  }
}
