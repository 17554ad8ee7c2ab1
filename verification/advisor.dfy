/**
 * The rule-based skincare advisor. A question is lower-cased and stripped,
 * classified by the first group of patterns it matches (compatibility, then
 * ingredient information, then concern advice, then routine order), and
 * answered by that group's handler from the knowledge graph. Answers are
 * modelled by what they say, not by their Markdown wording; sources and
 * follow-up questions are kept word for word.
 */
module Advisor {
  import opened Wrappers
  import opened Text
  import opened Patterns
  import opened Knowledge

  datatype QueryType = Compatibility | IngredientInfo | RoutineHelp | ConcernAdvice | General

  /** What an answer tells the user. */
  datatype Answer =
    | AskForTwoIngredients
    | UnknownIngredient(name: string)
    | InteractionExplained(explanation: string, worksWell: bool)
    | AskForIngredient
    | NoIngredientDetails(name: string)
    | IngredientProfile(ingredient: Ingredient)
    | AskForConcern
    | UnknownConcern(text: string)
    | NoRecommendations(concern: Concern)
    | Recommendations(concern: Concern, shown: seq<Ingredient>, gentlerFor: Option<SkinType>)
    | StandardRoutineOrder
    | Capabilities

  /** The answer asks the user what they meant instead of answering. */
  predicate Asks(a: Answer) {
    a.AskForTwoIngredients? || a.AskForIngredient? || a.AskForConcern?
  }

  /** A suggested follow-up question; `FollowUpText` gives its exact wording. */
  datatype FollowUp =
    | Blank
    | CanIUseWith(a: string, b: string)
    | CanIUseTogether(a: string, b: string)
    | WhatIs(name: string)
    | TellMeAbout(name: string)
    | InsteadOf(name: string)
    | OrderToApply(subject: string)
    | OrderFor(a: string, b: string)
    | IngredientsHelpWith(concern: string)
    | UseFor(concern: string)
    | HelpWith(concern: string)
    | BestFor(concern: string)
    | BestIngredientsFor(concern: string)
    | BuildMeARoutine

  /** The wording of a follow-up; only `Blank`, the placeholder the concern handler filters out, is empty. */
  function FollowUpText(f: FollowUp): (t: string)
    ensures t == "" <==> f == Blank
  {
    match f
    case Blank => ""
    case CanIUseWith(a, b) => "Can I use " + a + " with " + b + "?"
    case CanIUseTogether(a, b) => "Can I use " + a + " and " + b + " together?"
    case WhatIs(name) => "What is " + name + "?"
    case TellMeAbout(name) => "Tell me about " + name
    case InsteadOf(name) => "What can I use instead of " + name + "?"
    case OrderToApply(subject) => "What order should I apply " + subject + "?"
    case OrderFor(a, b) => "What order for " + a + " and " + b + "?"
    case IngredientsHelpWith(concern) => "What ingredients help with " + concern + "?"
    case UseFor(concern) => "What should I use for " + concern + "?"
    case HelpWith(concern) => "Help with " + concern
    case BestFor(concern) => "Best for " + concern
    case BestIngredientsFor(concern) => "Best ingredients for " + concern + "?"
    case BuildMeARoutine => "Build me a routine"
  }

  /** What knowledge an answer cites; `SourceText` gives its exact wording. */
  datatype Source =
    | IngredientSource(name: string)
    | DatabaseSource(name: string)
    | ConcernSource(value: string)
    | Guidelines

  function SourceText(s: Source): string {
    match s
    case IngredientSource(name) => "Ingredient: " + name
    case DatabaseSource(name) => "Ingredient database: " + name
    case ConcernSource(value) => "Concern: " + value
    case Guidelines => "General skincare guidelines"
  }

  datatype QueryResult = QueryResult(
    queryType: QueryType,
    answer: Answer,
    confidence: real,
    sources: seq<Source>,
    followUps: seq<FollowUp>)

  /** The query type and the groups the winning pattern captured. */
  datatype Classification = Classification(queryType: QueryType, extracted: seq<string>)

  const CompatibilityPatterns: seq<Pattern> := [
    Pair("can i use ", " with "),
    Pair("can i mix ", " and "),
    Pair("is ", " compatible with "),
    PairThen(" and ", " together"),
    Pair("combine ", " and "),
    Pair("layer ", " with ")]

  const IngredientPatterns: seq<Pattern> := [
    Rest("what is "),
    Rest("tell me about "),
    Enclosed("how does ", " work"),
    Rest("benefits of "),
    Enclosed("what does ", " do")]

  const ConcernPatterns: seq<Pattern> := [
    Rest("what should i use for "),
    Rest("help with "),
    Rest("how to treat "),
    Rest("best for "),
    Skip("recommend", " for ")]

  /** The routine-order patterns contain no special characters: each is a substring test. */
  const OrderPhrases: seq<string> := ["what order", "how to layer", "which first", "sequence", "routine order"]

  /** Common words for each concern, in the order the mapping is scanned. */
  const ConcernTerms: seq<(string, Concern)> := [
    ("acne", Acne), ("pimples", Acne), ("breakouts", Acne),
    ("aging", Aging), ("anti-aging", Aging), ("wrinkles", Aging), ("fine lines", Aging),
    ("dark spots", Hyperpigmentation), ("hyperpigmentation", Hyperpigmentation),
    ("pigmentation", Hyperpigmentation), ("uneven skin tone", Hyperpigmentation),
    ("dry skin", Dryness), ("dryness", Dryness), ("dehydration", Dryness),
    ("oily skin", Oiliness), ("oiliness", Oiliness), ("shine", Oiliness),
    ("sensitivity", Sensitivity), ("sensitive skin", Sensitivity),
    ("redness", Redness),
    ("dull skin", Dullness), ("dullness", Dullness),
    ("texture", Texture), ("rough skin", Texture),
    ("pores", Pores), ("large pores", Pores)]

  /** `question.lower().strip()`. */
  function Normalize(question: string): string {
    Strip(Lower(question))
  }

  predicate MentionsOrder(q: string) {
    exists k | 0 <= k < |OrderPhrases| :: Contains(q, OrderPhrases[k])
  }

  /** No pattern of the three capturing groups matches. */
  predicate NoGroupMatches(q: string) {
    && FirstMatch(CompatibilityPatterns, q).None?
    && FirstMatch(IngredientPatterns, q).None?
    && FirstMatch(ConcernPatterns, q).None?
  }

  lemma TableGroupCounts()
    ensures forall k :: 0 <= k < |CompatibilityPatterns| ==> GroupCount(CompatibilityPatterns[k]) == 2
    ensures forall k :: 0 <= k < |IngredientPatterns| ==> GroupCount(IngredientPatterns[k]) == 1
    ensures forall k :: 0 <= k < |ConcernPatterns| ==> GroupCount(ConcernPatterns[k]) == 1
  {
  }

  /** `_classify_query`: the first group with a matching pattern decides, then the order phrases, then GENERAL. */
  function Classify(q: string): (c: Classification)
    ensures c.queryType == Compatibility <==> FirstMatch(CompatibilityPatterns, q).Some?
    ensures c.queryType == IngredientInfo <==> (
      && FirstMatch(CompatibilityPatterns, q).None?
      && FirstMatch(IngredientPatterns, q).Some?)
    ensures c.queryType == ConcernAdvice <==> (
      && FirstMatch(CompatibilityPatterns, q).None?
      && FirstMatch(IngredientPatterns, q).None?
      && FirstMatch(ConcernPatterns, q).Some?)
    ensures c.queryType == RoutineHelp <==> NoGroupMatches(q) && MentionsOrder(q)
    ensures c.queryType == General <==> NoGroupMatches(q) && !MentionsOrder(q)
    ensures c.queryType == Compatibility ==> c.extracted == FirstMatch(CompatibilityPatterns, q).value
    ensures c.queryType == IngredientInfo ==> c.extracted == FirstMatch(IngredientPatterns, q).value
    ensures c.queryType == ConcernAdvice ==> c.extracted == FirstMatch(ConcernPatterns, q).value
    ensures c.queryType == Compatibility ==> |c.extracted| == 2
    ensures c.queryType == IngredientInfo || c.queryType == ConcernAdvice ==> |c.extracted| == 1
    ensures c.queryType == RoutineHelp || c.queryType == General ==> c.extracted == []
    ensures forall k :: 0 <= k < |c.extracted| ==> |c.extracted[k]| > 0 && SingleLine(c.extracted[k])
  {
    TableGroupCounts();
    match FirstMatch(CompatibilityPatterns, q)
    case Some(gs) => Classification(Compatibility, gs)
    case None =>
      match FirstMatch(IngredientPatterns, q)
      case Some(gs) => Classification(IngredientInfo, gs)
      case None =>
        match FirstMatch(ConcernPatterns, q)
        case Some(gs) => Classification(ConcernAdvice, gs)
        case None =>
          if MentionsOrder(q) then Classification(RoutineHelp, []) else Classification(General, [])
  }

  /** `get_ingredient(name)`, falling back on the first hit of `find_ingredient(name)`. */
  function Resolve(kg: KnowledgeGraph, name: string): (r: Option<Ingredient>)
    ensures r.None? <==> kg.getIngredient(name).None? && kg.findIngredient(name) == []
    ensures kg.getIngredient(name).Some? ==> r == kg.getIngredient(name)
    ensures kg.getIngredient(name).None? && r.Some? ==> r.value == kg.findIngredient(name)[0]
  {
    match kg.getIngredient(name)
    case Some(ing) => Some(ing)
    case None => if kg.findIngredient(name) == [] then None else Some(kg.findIngredient(name)[0])
  }

  const Punctuation: set<char> := {'?', '.', ',', '!'}

  /** `token.strip().rstrip('?.,!')`: the stripped token without its trailing run of punctuation. */
  function CleanToken(token: string): (r: string)
    ensures |r| <= |Strip(token)| && r == Strip(token)[..|r|]
    ensures forall i :: |r| <= i < |Strip(token)| ==> Strip(token)[i] in Punctuation
    ensures |r| == 0 || (!IsSpace(r[0]) && r[|r| - 1] !in Punctuation)
  {
    TrimEnd(Strip(token), Punctuation)
  }

  /** `token.strip().rstrip('?')`: only question marks are dropped. */
  function CleanName(token: string): (r: string)
    ensures |r| <= |Strip(token)| && r == Strip(token)[..|r|]
    ensures forall i :: |r| <= i < |Strip(token)| ==> Strip(token)[i] == '?'
    ensures |r| == 0 || (!IsSpace(r[0]) && r[|r| - 1] != '?')
  {
    TrimEnd(Strip(token), {'?'})
  }

  /** The compatibility answer once both ingredients are known. */
  function Explain(kg: KnowledgeGraph, a: Ingredient, b: Ingredient): (r: QueryResult)
    ensures r.queryType == Compatibility && r.confidence == 0.9
    ensures r.answer == InteractionExplained(
      kg.explainInteraction(a.id, b.id), kg.checkCompatibility([a.id, b.id]).synergies != [])
    ensures r.sources == [IngredientSource(a.name), IngredientSource(b.name)]
    ensures var report := kg.checkCompatibility([a.id, b.id]);
      |r.followUps| == if report.conflicts != [] || report.cautions != [] then 2 else 1
    ensures r.followUps[|r.followUps| - 1] == OrderToApply(a.name + " and " + b.name)
    ensures |r.followUps| == 2 ==> r.followUps[0] == InsteadOf(a.name)
  {
    var report := kg.checkCompatibility([a.id, b.id]);
    var insteadOf := if report.conflicts != [] || report.cautions != [] then [InsteadOf(a.name)] else [];
    QueryResult(
      Compatibility,
      InteractionExplained(kg.explainInteraction(a.id, b.id), report.synergies != []),
      0.9,
      [IngredientSource(a.name), IngredientSource(b.name)],
      insteadOf + [OrderToApply(a.name + " and " + b.name)])
  }

  /** The compatibility answer for two cleaned names. */
  function Compare(kg: KnowledgeGraph, aName: string, bName: string): (r: QueryResult)
    ensures r.queryType == Compatibility && 0.0 <= r.confidence <= 1.0 && !Asks(r.answer)
    ensures var a, b := Resolve(kg, aName), Resolve(kg, bName);
      if a.None? || b.None? then
        && r.answer == UnknownIngredient(if a.None? then aName else bName)
        && r.confidence == 0.3 && r.sources == []
        && r.followUps == [WhatIs(r.answer.name)]
      else
        r == Explain(kg, a.value, b.value)
  {
    match (Resolve(kg, aName), Resolve(kg, bName))
    case (Some(a), Some(b)) => Explain(kg, a, b)
    case (a, _) =>
      var missing := if a.None? then aName else bName;
      QueryResult(Compatibility, UnknownIngredient(missing), 0.3, [], [WhatIs(missing)])
  }

  /** `_handle_compatibility`. */
  function HandleCompatibility(kg: KnowledgeGraph, extracted: seq<string>): (r: QueryResult)
    ensures r.queryType == Compatibility && 0.0 <= r.confidence <= 1.0
    ensures Asks(r.answer) <==> |extracted| < 2
    ensures Asks(r.answer) ==> (
      && r.answer == AskForTwoIngredients && r.confidence == 0.5 && r.sources == []
      && r.followUps == [CanIUseWith("retinol", "niacinamide")])
    ensures |extracted| >= 2 ==> r == Compare(kg, CleanToken(extracted[0]), CleanToken(extracted[1]))
  {
    if |extracted| < 2 then
      QueryResult(Compatibility, AskForTwoIngredients, 0.5, [], [CanIUseWith("retinol", "niacinamide")])
    else
      Compare(kg, CleanToken(extracted[0]), CleanToken(extracted[1]))
  }

  /** The ingredient on the other end of an interaction. */
  function Partner(ing: Ingredient, it: Interaction): string {
    if it.ingredientA == ing.id then it.ingredientB else it.ingredientA
  }

  predicate PartnerKnown(kg: KnowledgeGraph, ing: Ingredient, it: Interaction) {
    kg.getIngredient(Partner(ing, it)).Some?
  }

  function PartnerQuestion(kg: KnowledgeGraph, ing: Ingredient, it: Interaction): FollowUp
    requires PartnerKnown(kg, ing, it)
  {
    CanIUseWith(ing.name, kg.getIngredient(Partner(ing, it)).value.name)
  }

  /** One follow-up per interaction whose partner the graph knows, in order. */
  function PartnerFollowUps(kg: KnowledgeGraph, ing: Ingredient, its: seq<Interaction>): (r: seq<FollowUp>)
    ensures |r| <= |its|
  {
    if its == [] then []
    else
      var rest := PartnerFollowUps(kg, ing, its[1..]);
      match kg.getIngredient(Partner(ing, its[0]))
      case Some(other) => [CanIUseWith(ing.name, other.name)] + rest
      case None => rest
  }

  /** The questions keep the order of the interactions. */
  lemma {:induction false} PartnerFollowUpsAppend(kg: KnowledgeGraph, ing: Ingredient, a: seq<Interaction>, b: seq<Interaction>)
    ensures PartnerFollowUps(kg, ing, a + b) == PartnerFollowUps(kg, ing, a) + PartnerFollowUps(kg, ing, b)
    decreases |a|
  {
    if a == [] {
      assert a + b == b;
    } else {
      assert (a + b)[0] == a[0];
      assert (a + b)[1..] == a[1..] + b;
      PartnerFollowUpsAppend(kg, ing, a[1..], b);
    }
  }

  /** Every interaction whose partner the graph knows contributes its question. */
  lemma {:induction false} PartnerFollowUpsComplete(kg: KnowledgeGraph, ing: Ingredient, its: seq<Interaction>)
    ensures forall j :: 0 <= j < |its| && PartnerKnown(kg, ing, its[j]) ==>
      PartnerQuestion(kg, ing, its[j]) in PartnerFollowUps(kg, ing, its)
    decreases |its|
  {
    if its != [] {
      var rest := PartnerFollowUps(kg, ing, its[1..]);
      PartnerFollowUpsComplete(kg, ing, its[1..]);
      forall j | 1 <= j < |its| && PartnerKnown(kg, ing, its[j])
        ensures PartnerQuestion(kg, ing, its[j]) in rest
      {
        assert its[j] == its[1..][j - 1];
      }
    }
  }

  /** Every follow-up is the question about some interaction's known partner. */
  lemma {:induction false} PartnerFollowUpsSound(kg: KnowledgeGraph, ing: Ingredient, its: seq<Interaction>)
    ensures forall q :: q in PartnerFollowUps(kg, ing, its) ==>
      exists j :: 0 <= j < |its| && PartnerKnown(kg, ing, its[j]) && q == PartnerQuestion(kg, ing, its[j])
    decreases |its|
  {
    if its != [] {
      var rest := PartnerFollowUps(kg, ing, its[1..]);
      PartnerFollowUpsSound(kg, ing, its[1..]);
      forall q | q in rest
        ensures exists j :: 0 <= j < |its| && PartnerKnown(kg, ing, its[j]) && q == PartnerQuestion(kg, ing, its[j])
      {
        var j :| 0 <= j < |its[1..]| && PartnerKnown(kg, ing, its[1..][j]) && q == PartnerQuestion(kg, ing, its[1..][j]);
        assert its[j + 1] == its[1..][j];
      }
    }
  }

  /** The ingredient answer for a cleaned name. */
  function Describe(kg: KnowledgeGraph, name: string): (r: QueryResult)
    ensures r.queryType == IngredientInfo && 0.0 <= r.confidence <= 1.0 && !Asks(r.answer)
    ensures match Resolve(kg, name)
      case None =>
        && r.answer == NoIngredientDetails(name) && r.confidence == 0.3 && r.sources == []
        && r.followUps == [IngredientsHelpWith("acne")]
      case Some(ing) =>
        && r.answer == IngredientProfile(ing) && r.confidence == 0.95
        && r.sources == [DatabaseSource(ing.name)]
        && 1 <= |r.followUps| <= 3 && r.followUps[0] == CanIUseWith(ing.name, "retinol")
        && var its := kg.getAllInteractions(ing.id);
        r.followUps[1..] == PartnerFollowUps(kg, ing, its[..Min(2, |its|)])
  {
    match Resolve(kg, name)
    case None =>
      QueryResult(IngredientInfo, NoIngredientDetails(name), 0.3, [], [IngredientsHelpWith("acne")])
    case Some(ing) =>
      var its := kg.getAllInteractions(ing.id);
      var followUps := [CanIUseWith(ing.name, "retinol")] + PartnerFollowUps(kg, ing, its[..Min(2, |its|)]);
      QueryResult(IngredientInfo, IngredientProfile(ing), 0.95, [DatabaseSource(ing.name)], followUps[..Min(3, |followUps|)])
  }

  /** `_handle_ingredient_info`. */
  function HandleIngredientInfo(kg: KnowledgeGraph, extracted: seq<string>): (r: QueryResult)
    ensures r.queryType == IngredientInfo && 0.0 <= r.confidence <= 1.0
    ensures Asks(r.answer) <==> extracted == []
    ensures extracted == [] ==> (
      && r.answer == AskForIngredient && r.confidence == 0.5 && r.sources == []
      && r.followUps == [WhatIs("retinol"), TellMeAbout("niacinamide")])
    ensures extracted != [] ==> r == Describe(kg, CleanName(extracted[0]))
  {
    if extracted == [] then
      QueryResult(IngredientInfo, AskForIngredient, 0.5, [], [WhatIs("retinol"), TellMeAbout("niacinamide")])
    else
      Describe(kg, CleanName(extracted[0]))
  }

  /** The index of the first concern term at or after `n` that `text` contains, or `|ConcernTerms|`. */
  function FirstTerm(text: string, n: nat): (k: nat)
    requires n <= |ConcernTerms|
    ensures n <= k <= |ConcernTerms|
    ensures k < |ConcernTerms| ==> Contains(text, ConcernTerms[k].0)
    ensures forall j :: n <= j < k ==> !Contains(text, ConcernTerms[j].0)
    decreases |ConcernTerms| - n
  {
    if n == |ConcernTerms| || Contains(text, ConcernTerms[n].0) then n
    else
      var k := FirstTerm(text, n + 1);
      assert !Contains(text, ConcernTerms[n].0);
      k
  }

  /** The concern of the first term, in mapping order, that the lower-cased text contains. */
  function FindConcern(text: string): (r: Option<Concern>)
    ensures r.None? <==> forall k :: 0 <= k < |ConcernTerms| ==> !Contains(Lower(text), ConcernTerms[k].0)
    ensures r.Some? ==> exists k :: (
      && 0 <= k < |ConcernTerms| && Contains(Lower(text), ConcernTerms[k].0) && r.value == ConcernTerms[k].1
      && forall j :: 0 <= j < k ==> !Contains(Lower(text), ConcernTerms[j].0))
  {
    var k := FirstTerm(Lower(text), 0);
    if k < |ConcernTerms| then Some(ConcernTerms[k].1) else None
  }

  /** `[q for q in qs if q]`: by `FollowUpText`, the empty questions are exactly the `Blank` ones. */
  function DropEmpty(qs: seq<FollowUp>): (r: seq<FollowUp>)
    ensures forall k :: 0 <= k < |r| ==> FollowUpText(r[k]) != ""
    ensures forall q :: q in r <==> q in qs && FollowUpText(q) != ""
    ensures |r| <= |qs|
  {
    if qs == [] then []
    else if qs[0] == Blank then DropEmpty(qs[1..])
    else [qs[0]] + DropEmpty(qs[1..])
  }

  /** The filter keeps the order of the questions. */
  lemma {:induction false} DropEmptyAppend(a: seq<FollowUp>, b: seq<FollowUp>)
    ensures DropEmpty(a + b) == DropEmpty(a) + DropEmpty(b)
    decreases |a|
  {
    if a == [] {
      assert a + b == b;
    } else {
      assert (a + b)[0] == a[0];
      assert (a + b)[1..] == a[1..] + b;
      DropEmptyAppend(a[1..], b);
    }
  }

  /** The concern answer once the concern and its ingredients are known. */
  function Recommend(kg: KnowledgeGraph, c: Concern, ings: seq<Ingredient>, profile: Option<SkinProfile>): (r: QueryResult)
    requires ings != []
    ensures r.queryType == ConcernAdvice && r.confidence == 0.85
    ensures r.answer.Recommendations? && r.answer.concern == c
    ensures r.answer.shown == ings[..Min(5, |ings|)] && |r.answer.shown| <= 5
    ensures r.answer.gentlerFor.Some? <==> profile.Some? && profile.value.skinType in {Dry, Sensitive}
    ensures r.answer.gentlerFor.Some? ==> r.answer.gentlerFor.value == profile.value.skinType
    ensures r.sources == [ConcernSource(kg.concernValue(c))]
    ensures r.followUps == (if |ings| > 1 then [CanIUseWith(ings[0].name, ings[1].name)] else [])
      + [WhatIs(ings[0].name), BuildMeARoutine]
  {
    var gentler := if profile.Some? && profile.value.skinType in {Sensitive, Dry} then Some(profile.value.skinType) else None;
    var pairQuestion := if |ings| > 1 then CanIUseWith(ings[0].name, ings[1].name) else Blank;
    var rest := [WhatIs(ings[0].name), BuildMeARoutine];
    assert DropEmpty(rest[1..]) == rest[1..];
    assert DropEmpty(rest) == rest;
    assert ([pairQuestion] + rest)[1..] == rest;
    var followUps := DropEmpty([pairQuestion] + rest);
    QueryResult(ConcernAdvice, Recommendations(c, ings[..Min(5, |ings|)], gentler), 0.85,
      [ConcernSource(kg.concernValue(c))], followUps)
  }

  /** The concern answer for the cleaned concern text. */
  function Advise(kg: KnowledgeGraph, text: string, profile: Option<SkinProfile>): (r: QueryResult)
    ensures r.queryType == ConcernAdvice && 0.0 <= r.confidence <= 1.0 && !Asks(r.answer)
    ensures match FindConcern(text)
      case None =>
        && r.answer == UnknownConcern(text) && r.confidence == 0.4 && r.sources == []
        && r.followUps == [UseFor("acne"), BestIngredientsFor("aging")]
      case Some(c) =>
        var ings := kg.getIngredientsByConcern(c);
        if ings == [] then
          r.answer == NoRecommendations(c) && r.confidence == 0.3 && r.sources == [] && r.followUps == []
        else
          r == Recommend(kg, c, ings, profile)
  {
    match FindConcern(text)
    case None =>
      QueryResult(ConcernAdvice, UnknownConcern(text), 0.4, [], [UseFor("acne"), BestIngredientsFor("aging")])
    case Some(c) =>
      var ings := kg.getIngredientsByConcern(c);
      if ings == [] then QueryResult(ConcernAdvice, NoRecommendations(c), 0.3, [], [])
      else Recommend(kg, c, ings, profile)
  }

  /** `_handle_concern_advice`. */
  function HandleConcernAdvice(kg: KnowledgeGraph, extracted: seq<string>, profile: Option<SkinProfile>): (r: QueryResult)
    ensures r.queryType == ConcernAdvice && 0.0 <= r.confidence <= 1.0
    ensures Asks(r.answer) <==> extracted == []
    ensures extracted == [] ==> (
      && r.answer == AskForConcern && r.confidence == 0.5 && r.sources == []
      && r.followUps == [UseFor("acne"), HelpWith("anti-aging"), BestFor("hyperpigmentation")])
    ensures extracted != [] ==> r == Advise(kg, CleanName(extracted[0]), profile)
  {
    if extracted == [] then
      QueryResult(ConcernAdvice, AskForConcern, 0.5, [],
        [UseFor("acne"), HelpWith("anti-aging"), BestFor("hyperpigmentation")])
    else
      Advise(kg, CleanName(extracted[0]), profile)
  }

  /** `_handle_routine_help`: the standard routine order, whatever was asked. */
  function HandleRoutineHelp(): (r: QueryResult)
    ensures r.queryType == RoutineHelp && r.answer == StandardRoutineOrder
    ensures r.confidence == 0.95 && r.sources == [Guidelines]
    ensures r.followUps == [CanIUseTogether("vitamin C", "niacinamide"),
      OrderFor("retinol", "hyaluronic acid"), UseFor("my skin concerns")]
    ensures forall k :: 0 <= k < |r.followUps| ==> FollowUpText(r.followUps[k]) != ""
  {
    QueryResult(RoutineHelp, StandardRoutineOrder, 0.95, [Guidelines],
      [CanIUseTogether("vitamin C", "niacinamide"),
       OrderFor("retinol", "hyaluronic acid"),
       UseFor("my skin concerns")])
  }

  /** The ingredient's name or one of its aliases, lower-cased, occurs in the lower-cased question `lq`. */
  predicate MentionedIn(ing: Ingredient, lq: string) {
    || Contains(lq, Lower(ing.name))
    || exists k | 0 <= k < |ing.aliases| :: Contains(lq, Lower(ing.aliases[k]))
  }

  /** The catalog ingredients the question mentions, in catalog order, each at most once. */
  function Mentioned(catalog: seq<Ingredient>, lq: string): (r: seq<Ingredient>)
    ensures forall x :: x in r <==> x in catalog && MentionedIn(x, lq)
    ensures multiset(r) <= multiset(catalog)
  {
    if catalog == [] then []
    else
      var rest := Mentioned(catalog[1..], lq);
      assert catalog == [catalog[0]] + catalog[1..];
      if MentionedIn(catalog[0], lq) then [catalog[0]] + rest else rest
  }

  /** The mentioned ingredients keep catalog order, which decides the first two the general handler uses. */
  lemma {:induction false} MentionedAppend(a: seq<Ingredient>, b: seq<Ingredient>, lq: string)
    ensures Mentioned(a + b, lq) == Mentioned(a, lq) + Mentioned(b, lq)
    decreases |a|
  {
    if a == [] {
      assert a + b == b;
    } else {
      assert (a + b)[0] == a[0];
      assert (a + b)[1..] == a[1..] + b;
      MentionedAppend(a[1..], b, lq);
    }
  }

  /** `_handle_general`: answer about the ingredients the question mentions, or list what can be asked. */
  function HandleGeneral(kg: KnowledgeGraph, question: string): (r: QueryResult)
    ensures 0.0 <= r.confidence <= 1.0
    ensures var found := Mentioned(kg.catalog, Lower(question));
      && (r.queryType == General <==> found == [])
      && (r.queryType == IngredientInfo <==> |found| == 1)
      && (r.queryType == Compatibility <==> |found| >= 2)
      && (|found| == 1 ==> r == HandleIngredientInfo(kg, [found[0].name]))
      && (|found| >= 2 ==> r == HandleCompatibility(kg, [found[0].name, found[1].name]))
    ensures r.queryType == General <==> forall x :: x in kg.catalog ==> !MentionedIn(x, Lower(question))
    ensures r.queryType == General ==> (
      && r.answer == Capabilities && r.confidence == 0.3 && r.sources == []
      && r.followUps == [CanIUseWith("vitamin C", "niacinamide"), UseFor("aging"), OrderToApply("my products")])
    ensures !Asks(r.answer)
  {
    var found := Mentioned(kg.catalog, Lower(question));
    assert found != [] ==> found[0] in found;
    if |found| == 1 then HandleIngredientInfo(kg, [found[0].name])
    else if |found| >= 2 then HandleCompatibility(kg, [found[0].name, found[1].name])
    else
      assert found == [];
      QueryResult(General, Capabilities, 0.3, [],
        [CanIUseWith("vitamin C", "niacinamide"), UseFor("aging"), OrderToApply("my products")])
  }

  /** The extraction the classifier hands each query type. */
  predicate WellExtracted(c: Classification) {
    && (c.queryType == Compatibility ==> |c.extracted| == 2)
    && (c.queryType == IngredientInfo || c.queryType == ConcernAdvice ==> |c.extracted| == 1)
  }

  /** The routing step of `ask`. */
  function Dispatch(kg: KnowledgeGraph, c: Classification, question: string, profile: Option<SkinProfile>): (r: QueryResult)
    requires WellExtracted(c)
    ensures 0.0 <= r.confidence <= 1.0
    ensures c.queryType != General ==> r.queryType == c.queryType
    ensures !Asks(r.answer)
  {
    match c.queryType
    case Compatibility => HandleCompatibility(kg, c.extracted)
    case IngredientInfo => HandleIngredientInfo(kg, c.extracted)
    case ConcernAdvice => HandleConcernAdvice(kg, c.extracted, profile)
    case RoutineHelp => HandleRoutineHelp()
    case General => HandleGeneral(kg, question)
  }

  /** `ask`: classify the normalised question and hand it to the handler of its type. */
  function Ask(kg: KnowledgeGraph, question: string, profile: Option<SkinProfile>): (r: QueryResult)
    ensures 0.0 <= r.confidence <= 1.0
    ensures var c := Classify(Normalize(question));
      c.queryType != General ==> r.queryType == c.queryType
    ensures !Asks(r.answer)
  {
    Dispatch(kg, Classify(Normalize(question)), question, profile)
  }

  /** The routing step reads the question only through the general handler, which lower-cases it. */
  lemma DispatchSeesQuestionThroughGeneral(kg: KnowledgeGraph, c: Classification, q1: string, q2: string, profile: Option<SkinProfile>)
    requires WellExtracted(c) && Lower(q1) == Lower(q2)
    ensures Dispatch(kg, c, q1, profile) == Dispatch(kg, c, q2, profile)
  {
    assert HandleGeneral(kg, q1) == HandleGeneral(kg, q2);
  }

  /** Lower-casing the question never changes the answer. */
  lemma AskIgnoresCase(kg: KnowledgeGraph, question: string, profile: Option<SkinProfile>)
    ensures Ask(kg, Lower(question), profile) == Ask(kg, question, profile)
  {
    LowerIdempotent(question);
    assert Normalize(Lower(question)) == Normalize(question);
    DispatchSeesQuestionThroughGeneral(kg, Classify(Normalize(question)), Lower(question), question, profile);
  }

  /** Whitespace around the question never changes its normal form, so never its classification. */
  lemma NormalizeIgnoresPadding(ws1: string, question: string, ws2: string)
    requires AllSpace(ws1) && AllSpace(ws2)
    ensures Normalize(ws1 + question + ws2) == Normalize(question)
  {
    LowerAppend(ws1, question);
    LowerAppend(ws1 + question, ws2);
    LowerSpace(ws1);
    LowerSpace(ws2);
    StripIgnoresPadding(ws1, Lower(question), ws2);
  }

  /**
   * Padding changes nothing unless the question falls through to the general
   * handler, which searches the raw question for ingredient names.
   */
  lemma AskIgnoresPadding(kg: KnowledgeGraph, ws1: string, question: string, ws2: string, profile: Option<SkinProfile>)
    requires AllSpace(ws1) && AllSpace(ws2)
    requires Classify(Normalize(question)).queryType != General
    ensures Ask(kg, ws1 + question + ws2, profile) == Ask(kg, question, profile)
  {
    NormalizeIgnoresPadding(ws1, question, ws2);
  }

  /** A question that matches no capturing pattern but names an order phrase gets the routine order. */
  lemma RoutineHelpByPhrase(kg: KnowledgeGraph, question: string, profile: Option<SkinProfile>, k: nat)
    requires k < |OrderPhrases| && Contains(Normalize(question), OrderPhrases[k])
    requires NoGroupMatches(Normalize(question))
    ensures Ask(kg, question, profile) == HandleRoutineHelp()
    ensures Ask(kg, question, profile).confidence == 0.95
  {
    assert MentionsOrder(Normalize(question));
  }

  /**
   * "can i use A with B" is a compatibility question about `A` and `B`, whenever
   * " with " occurs in the text after `A` only where it was written.
   */
  lemma ClassifyCanIUse(a: string, b: string)
    requires |a| > 0 && |b| > 0 && SingleLine(a + " with " + b)
    requires forall k :: 0 < k ==> !IsAt(" with " + b, k, " with ")
    ensures Classify("can i use " + a + " with " + b) == Classification(Compatibility, [a, b])
  {
    var q := "can i use " + a + " with " + b;
    MatchPairExact("can i use ", " with ", a, b);
    assert MatchAt(CompatibilityPatterns[0], q, 0) == Some([a, b]);
    SearchAtStart(CompatibilityPatterns[0], q);
    FirstMatchHead(CompatibilityPatterns, q);
  }

  /** Such a question is answered by comparing the two cleaned names. */
  lemma AskCanIUse(kg: KnowledgeGraph, question: string, a: string, b: string, profile: Option<SkinProfile>)
    requires Normalize(question) == "can i use " + a + " with " + b
    requires |a| > 0 && |b| > 0 && SingleLine(a + " with " + b)
    requires forall k :: 0 < k ==> !IsAt(" with " + b, k, " with ")
    ensures Ask(kg, question, profile) == Compare(kg, CleanToken(a), CleanToken(b))
  {
    ClassifyCanIUse(a, b);
  }

  /** A term that contains an earlier term of the mapping can never be the first one found. */
  lemma EarlierTermWins(text: string, j: nat, k: nat, off: nat)
    requires j < k < |ConcernTerms|
    requires IsAt(ConcernTerms[k].0, off, ConcernTerms[j].0)
    ensures FirstTerm(text, 0) != k
  {
    if FirstTerm(text, 0) == k {
      ContainsWithin(text, ConcernTerms[k].0, ConcernTerms[j].0, off);
      assert false;
    }
  }

  /**
   * "anti-aging" and "large pores" never decide the concern: each contains an
   * earlier term ("aging", "pores") that maps to the same concern.
   */
  lemma ShadowedTerms(text: string)
    ensures ConcernTerms[4].0 == "anti-aging" && FirstTerm(text, 0) != 4
    ensures ConcernTerms[25].0 == "large pores" && FirstTerm(text, 0) != 25
    ensures ConcernTerms[3].1 == ConcernTerms[4].1 && ConcernTerms[24].1 == ConcernTerms[25].1
  {
    IsAtEnd("anti-", "aging");
    assert ConcernTerms[4].0 == "anti-" + "aging";
    EarlierTermWins(text, 3, 4, 5);
    IsAtEnd("large ", "pores");
    assert ConcernTerms[25].0 == "large " + "pores";
    EarlierTermWins(text, 24, 25, 6);
  }
}
