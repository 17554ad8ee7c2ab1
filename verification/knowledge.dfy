/**
 * The ingredient knowledge graph the routine builder and the advisor consult.
 * Its implementation is not part of this model: every query the modelled code
 * makes of it is a field of `KnowledgeGraph`, an uninterpreted function of its
 * arguments, so nothing is assumed about symmetry, alias handling or fuzzy search.
 */
module Knowledge {
  import opened Wrappers

  datatype TimeOfDay = AmOnly | PmOnly | Either | Both

  /** The concern tags the advisor names; any other tag of the catalog is `OtherConcern`. */
  datatype Concern =
    | Acne | Aging | Hyperpigmentation | Dryness | Oiliness
    | Sensitivity | Redness | Dullness | Texture | Pores
    | OtherConcern(tag: string)

  /** The skin types the modelled code tests for; any other type is `OtherSkinType`. */
  datatype SkinType = Dry | Sensitive | OtherSkinType(tag: string)

  datatype SkinProfile = SkinProfile(skinType: SkinType, concerns: seq<Concern>)

  /** An ingredient frame; `category` is the value of its category enumeration. */
  datatype Ingredient = Ingredient(
    id: string,
    name: string,
    category: string,
    applicationOrder: int,
    timeOfDay: TimeOfDay,
    aliases: seq<string>,
    addressesConcerns: seq<Concern>,
    cautionSkinTypes: seq<SkinType>,
    description: string,
    usageTips: seq<string>)

  /** An edge of the graph, directed as the graph reports it. */
  datatype Interaction = Interaction(ingredientA: string, ingredientB: string, waitMinutes: Option<int>)

  /** One conflict, caution or synergy entry of a compatibility report. */
  datatype Finding = Finding(ingredientA: string, ingredientB: string, recommendation: string)

  datatype WaitPair = WaitPair(ingredientA: string, ingredientB: string, waitMinutes: int)

  /** The result of `check_compatibility`, taken as given. */
  datatype CompatibilityReport = CompatibilityReport(
    isCompatible: bool,
    conflicts: seq<Finding>,
    cautions: seq<Finding>,
    synergies: seq<Finding>,
    waitTimes: seq<WaitPair>)

  datatype KnowledgeGraph = KnowledgeGraph(
    /** `ingredients.items()` in dictionary order. */
    catalog: seq<Ingredient>,
    /** `get_ingredient(key)`. */
    getIngredient: string -> Option<Ingredient>,
    /** `find_ingredient(text)`, the fuzzy search; its first hit is used. */
    findIngredient: string -> seq<Ingredient>,
    /** `get_interaction(a, b)`. */
    getInteraction: (string, string) -> Option<Interaction>,
    /** `get_all_interactions(id)`. */
    getAllInteractions: string -> seq<Interaction>,
    /** `explain_interaction(a, b)`. */
    explainInteraction: (string, string) -> string,
    /** `check_compatibility(ids)`. */
    checkCompatibility: seq<string> -> CompatibilityReport,
    /** `get_recommended_ingredients(profile)`. */
    getRecommendedIngredients: SkinProfile -> seq<Ingredient>,
    /** `get_ingredients_by_concern(concern)`. */
    getIngredientsByConcern: Concern -> seq<Ingredient>,
    /** `concern.value`. */
    concernValue: Concern -> string)

  predicate Recognised(kg: KnowledgeGraph, id: string) {
    kg.getIngredient(id).Some?
  }

  /** True when `id` names an ingredient whose category is one of `cats`. */
  predicate InCategory(kg: KnowledgeGraph, id: string, cats: set<string>) {
    match kg.getIngredient(id)
    case Some(ing) => ing.category in cats
    case None => false
  }

  /** Python's `any(get_ingredient(i) and get_ingredient(i).category.value in cats for i in ids)`. */
  predicate HasCategory(kg: KnowledgeGraph, ids: seq<string>, cats: set<string>) {
    exists k | 0 <= k < |ids| :: InCategory(kg, ids[k], cats)
  }
}
