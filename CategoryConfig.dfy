/** `getCategoryConfig`: a constant table from FreshRSS category labels to
    the owner and the summarization config of the category. */
module CategoryConfig {
  import opened Results
  import Summarization

  datatype CategoryConfig = CategoryConfig(owner: string, summarizeConfigId: string)

  const Owner: string := "a_takamin"

  /** The five labels of the table, in the order it lists them. */
  const Labels: seq<string> := [
    "user/-/label/AWS",
    "user/-/label/技術イベント",
    "user/-/label/企業技術ブログ",
    "user/-/label/技術トレンド",
    "user/-/label/公式ブログ"]

  const CategoryConfigMap: map<string, CategoryConfig> := map[
    "user/-/label/AWS" := CategoryConfig(Owner, "aws"),
    "user/-/label/技術イベント" := CategoryConfig(Owner, "tech-event"),
    "user/-/label/企業技術ブログ" := CategoryConfig(Owner, "tech-company-blog"),
    "user/-/label/技術トレンド" := CategoryConfig(Owner, "tech-trend"),
    "user/-/label/公式ブログ" := CategoryConfig(Owner, "official-blog")]

  /** `getCategoryConfig(categoryId)`: the entry, or `null` (here `None`)
      for any other id; it never throws. */
  function GetCategoryConfig(categoryId: string): (r: Option<CategoryConfig>)
    ensures r.Some? <==> categoryId in CategoryConfigMap
    ensures r.Some? ==> r.value == CategoryConfigMap[categoryId]
  {
    if categoryId in CategoryConfigMap then Some(CategoryConfigMap[categoryId]) else None
  }

  /** Label `k` of the table maps to summarization config `k`, and only
      the five labels have an entry. */
  lemma TableLists(k: nat)
    requires k < 5
    ensures GetCategoryConfig(Labels[k]) == Some(CategoryConfig(Owner, Summarization.ConfigIds[k]))
  {
  }

  lemma OnlyListedLabels(categoryId: string)
    ensures GetCategoryConfig(categoryId).Some? <==> categoryId in Labels
  {
    if categoryId in Labels {
      var k :| 0 <= k < |Labels| && Labels[k] == categoryId;
      assert k == 0 || k == 1 || k == 2 || k == 3 || k == 4;
    }
  }

  /** Every category belongs to the same owner. */
  lemma EveryOwnerIsOwner(categoryId: string)
    requires GetCategoryConfig(categoryId).Some?
    ensures GetCategoryConfig(categoryId).value.owner == "a_takamin"
  {
  }

  /** The table pairs the five labels one-to-one with the five
      summarization config ids: different labels name different configs,
      and every config id is named by some label. */
  lemma TableIsBijection(a: string, b: string, id: string)
    requires a in CategoryConfigMap && b in CategoryConfigMap && a != b
    ensures CategoryConfigMap[a].summarizeConfigId != CategoryConfigMap[b].summarizeConfigId
    ensures id in Summarization.ConfigIds <==>
      exists k :: 0 <= k < |Labels| && CategoryConfigMap[Labels[k]].summarizeConfigId == id
  {
    if id in Summarization.ConfigIds {
      var k :| 0 <= k < 5 && Summarization.ConfigIds[k] == id;
      TableLists(k);
    }
  }

  /** Every config id the table names resolves in the summarization table. */
  lemma EveryCategoryResolves(categoryId: string)
    requires GetCategoryConfig(categoryId).Some?
    ensures Summarization.Get(GetCategoryConfig(categoryId).value.summarizeConfigId).Ok?
  {
    Summarization.KeysAreConfigIds(GetCategoryConfig(categoryId).value.summarizeConfigId);
  }
}
