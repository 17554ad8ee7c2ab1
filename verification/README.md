# Skincare advisor core, modelled in Dafny

This project models two parts of the skincare advisor.

- **The routine builder.** It sorts a user's products by the application order of their ingredients. It annotates each step with a wait time and a time-of-day note. It analyses a routine for conflicts, ordering inversions, missing essentials and suggestions. It suggests a routine for a skin profile.
- **The question answerer.** It lower-cases and strips a question and classifies it with ordered tables of regular expressions. It routes the question to one of five handlers: compatibility, ingredient information, concern advice, routine help, and the general fallback.

Both consult an ingredient knowledge graph. The graph's implementation is outside the model. Each of the eight queries the modelled code makes of the graph is an uninterpreted function field of `Knowledge.KnowledgeGraph`: `get_ingredient`, `find_ingredient`, `get_interaction`, `get_all_interactions`, `explain_interaction`, `check_compatibility`, `get_recommended_ingredients` and `get_ingredients_by_concern`. A ninth field, `concernValue`, stands for the `.value` string of a `SkinConcern` member, which the concern answer cites as its source. The catalog's iteration order is a sequence. Nothing is assumed about these functions beyond their types.

Files, one module each:

| file | module | contents |
|---|---|---|
| `wrappers.dfy` | `Wrappers` | `Option`, `Min`, `Max` |
| `text.dfy` | `Text` | `str.lower`, `str.strip`, `str.rstrip(chars)`, substring tests |
| `knowledge.dfy` | `Knowledge` | ingredients, interactions, compatibility reports, the graph interface |
| `patterns.dfy` | `Patterns` | the five shapes of regular expression the advisor uses, with `re.search` semantics |
| `routine_builder.dfy` | `RoutineBuilder` | `Routine` and `RoutineBuilder` |
| `routine_analyzer.dfy` | `RoutineAnalyzer` | `RoutineAnalyzer` |
| `advisor.dfy` | `Advisor` | `SkincareAdvisor` |

Prose is modelled by its structure. Messages, suggestions, summary lines and answers are datatypes that carry the values the source interpolates. Follow-up questions and answer sources are small datatypes. `Advisor.FollowUpText` and `Advisor.SourceText` give their exact wording.

Regular expressions are modelled by shape, not interpreted:

- `prefix(.+)` is `Rest`;
- `prefix(.+)suffix` is `Enclosed`;
- `prefix(.+)sep(.+)` is `Pair`;
- `prefix.*sep(.+)` is `Skip`;
- `(.+)sep(.+)suffix` is `PairThen`.

Three facts about Python's matcher carry over:

- `.` never crosses a line break;
- greedy groups take the last usable occurrence of what follows them;
- `re.search` reports the leftmost start position.

## Model

| member | source | states |
|---|---|---|
| RoutineBuilder.AllIngredientsMembers | src/routines/builder.py:62-67 | an id is in the flattened ingredient list exactly when some step lists it |
| RoutineBuilder.AllIngredientsAppend | src/routines/builder.py:62-67 | flattening keeps step order: the list for two step sequences is the first's list followed by the second's |
| RoutineBuilder.MinRecognisedSpec | src/routines/builder.py:274-280 | the minimum over recognised ingredients is absent exactly when none is recognised; otherwise it is the application order of some recognised ingredient and no larger than any of them |
| RoutineBuilder.ProductOrderSpec | src/routines/builder.py:269-280 | a product's order key is 5 when no ingredient is recognised, including the empty list; otherwise it is the least application order of its recognised ingredients |
| RoutineBuilder.StepOrder | src/routines/builder.py:147-158 | the loop that scans a step's ingredients returns the same key as the product order of those ingredients |
| RoutineBuilder.SortKeyedSorted | src/routines/builder.py:236-239 | the insertion sort over decorated products yields keys in non-decreasing order |
| RoutineBuilder.SortKeyedMultiset | src/routines/builder.py:236-239 | the sort is a permutation of its input |
| RoutineBuilder.SortKeyedStable | src/routines/builder.py:236-239 | the sort is stable: for every key, the entries with that key keep their input order |
| RoutineBuilder.SortByOrderSpec | src/routines/builder.py:235-239 | `sorted(products, key=...)` has the input's length, is a permutation of it, is ordered by product key, and keeps products with equal keys in input order |
| RoutineBuilder.FirstWrongTime | src/routines/builder.py:288-298 | the first ingredient, in list order, that is recognised and restricted to the other time of day; absent exactly when there is none |
| RoutineBuilder.CheckTimeAppropriateness | src/routines/builder.py:282-300 | the check succeeds with an empty note exactly when no recognised ingredient is restricted to the other time; otherwise the note warns about the first such ingredient |
| RoutineBuilder.RowWait | src/routines/builder.py:311-314 | the largest wait between one current ingredient and any next ingredient, never below 0, and attained unless 0 |
| RoutineBuilder.WaitTime | src/routines/builder.py:302-316 | the maximum of 0 and the wait of every (current, next) pair; it is one of those waits unless 0, and it is 0 when there is no next product |
| RoutineBuilder.LaterIssues | src/routines/builder.py:134-143 | the issues reported for step i are exactly the later steps whose key is smaller than step i's, in the order of the later steps |
| RoutineBuilder.IssuesFrom | src/routines/builder.py:133-143 | the issues for steps after i are exactly the inversions whose first step is after i, ordered by first step and then by later step, as the nested loops emit them |
| RoutineBuilder.CheckOrdering | src/routines/builder.py:129-145 | every issue is an inverted pair of steps, numbered from 1, and every inverted pair is reported once, ordered by first step and then by later step; no issues exactly when the step keys are non-decreasing |
| RoutineBuilder.CheckMissingEssentials | src/routines/builder.py:160-184 | sunscreen is missing exactly for a morning routine with no sunscreen-category ingredient; a moisturizer is missing exactly when no ingredient is of the moisturizer or ceramide category; sunscreen is listed first |
| RoutineBuilder.GenerateSuggestions | src/routines/builder.py:186-223 | one wait suggestion per wait pair, then one removal suggestion per conflict, in report order, and nothing else except a retinoid suggestion, which comes last, exactly for an evening routine of a profile with the aging concern that has no retinoid |
| RoutineBuilder.FilterTimeAppropriate | src/routines/builder.py:342-346 | an ingredient is kept exactly when it is not restricted to the other time of day; the result is no longer than the input; order and multiplicity are stated by `FilterTimeAppropriateAppend` |
| RoutineBuilder.FilterTimeAppropriateAppend | src/routines/builder.py:342-346 | filtering keeps input order and multiplicity: a concatenation filters to the concatenation of the filtered parts |
| RoutineBuilder.OnePerCategory | src/routines/builder.py:349-362 | the kept treatments come from the input, are no more than the input, have pairwise distinct categories, and none of them has a category already added; which ingredients are kept, and in what order, is stated by `OnePerCategoryKeepsFirst`, `OnePerCategoryOnlyFirst` and `OnePerCategoryAppend` |
| RoutineBuilder.OnePerCategoryAppend | src/routines/builder.py:349-362 | the loop keeps input order: the second part of a concatenation is filtered against the categories the first part added |
| RoutineBuilder.OnePerCategoryKeepsFirst | src/routines/builder.py:349-362 | the first ingredient of each category not already added is kept |
| RoutineBuilder.OnePerCategoryOnlyFirst | src/routines/builder.py:349-362 | every kept ingredient is the first of its category in the input, and its category was not already added |
| RoutineBuilder.OnePerCategoryCovers | src/routines/builder.py:349-362 | every category among the candidates not already added is represented among the kept treatments |
| RoutineBuilder.ConcernsAddressed | src/routines/builder.py:352-355 | a concern is listed exactly when the ingredient addresses it and the profile has it; no more concerns than the ingredient lists; order and multiplicity are stated by `ConcernsAddressedAppend` |
| RoutineBuilder.ConcernsAddressedAppend | src/routines/builder.py:352-355 | the concerns keep the order and multiplicity the ingredient lists them in |
| RoutineBuilder.TreatmentsSpec | src/routines/builder.py:339-362 | the treatments of a suggested routine: at most five; each is recommended for the profile and usable at that time of day, and no two share a category |
| RoutineBuilder.SuggestRoutine | src/routines/builder.py:318-381 | cleanser first, then one treatment step per treatment, in order, each naming the profile concerns its ingredient addresses, then moisturizer; sunscreen is last exactly in the morning; treatments have distinct categories |
| RoutineBuilder.SuggestRoutineCovers | src/routines/builder.py:339-362 | every category among the first five usable recommendations has a treatment step in the suggested routine |
| RoutineBuilder.AnalyzeRoutine | src/routines/builder.py:100-127 | conflicts, cautions and synergies are those of the compatibility report on all the routine's ingredients, and the suggestions are generated from that report; the routine is valid exactly when there are no conflicts and the steps are in non-decreasing key order; the ordering issues and missing essentials are those of the checks |
| RoutineBuilder.BuildRoutine | src/routines/builder.py:225-267 | the routine has the requested time, steps numbered from 1 that carry the sorted products, and the analysis of that routine |
| RoutineBuilder.OrderedProducts | src/routines/builder.py:147-158 | steps whose products are ordered by product key are ordered by step key, because the two keys agree |
| RoutineBuilder.BuildRoutineSteps | src/routines/builder.py:235-262 | a built routine has one step per product, holds the same products, is in non-decreasing key order, and keeps products with equal keys in input order |
| RoutineBuilder.BuildRoutineValid | src/routines/builder.py:225-267 | a built routine has no ordering issues, so its analysis is valid exactly when the report has no conflicts |
| RoutineBuilder.MakeStepWait | src/routines/builder.py:249-253 | a step's wait is the maximal wait toward the next sorted product, and 0 for the last product |
| RoutineBuilder.BuildRoutineWaits | src/routines/builder.py:249-259 | in a built routine, each step waits the maximal pair wait toward the following step, and the last step waits 0 |
| RoutineBuilder.MakeStepNote | src/routines/builder.py:244-260 | a step's note is empty exactly when its product suits the time of day; otherwise it warns about the first ingredient that does not |
| RoutineBuilder.BuildRoutineNotes | src/routines/builder.py:244-260 | every step of a built routine carries that note |
| RoutineAnalyzer.Partition | src/routines/builder.py:402-413 | the two lists together have one entry per name; a name is unrecognised exactly when the graph does not know it; the records are those of the recognised names; order is stated by `PartitionAppend` |
| RoutineAnalyzer.PartitionAppend | src/routines/builder.py:402-413 | both lists keep input order and multiplicity: partitioning a concatenation concatenates the partitions |
| RoutineAnalyzer.AnalyzeIngredientList | src/routines/builder.py:394-424 | the partition of the names, the compatibility report on the identified ids, and the summary of both |
| RoutineAnalyzer.ConcernsOfMembers | src/routines/builder.py:436-438 | the loop's union holds exactly the concerns some identified ingredient addresses |
| RoutineAnalyzer.GenerateSummary | src/routines/builder.py:426-443 | a conflict line exactly when there are conflicts, then a synergy line exactly when there are synergies, then the union of addressed concerns exactly when it is not empty, each with the right count or set |
| RoutineAnalyzer.CombinationAdvice | src/routines/builder.py:458-469 | "do not combine" exactly when there are conflicts; otherwise caution exactly when there are cautions; otherwise "great combination" exactly when there are synergies; otherwise no known interactions |
| RoutineAnalyzer.CompareProducts | src/routines/builder.py:445-456 | compatibility, conflicts, cautions and synergies are those of the report on both lists together; the recommendation is the combination advice for that report, so it forbids combining exactly when there are conflicts |
| Text.Lower | backend/app/api/v1/advisor.py:104 | lower-casing keeps the length; each upper-case letter becomes the lower-case letter 32 code points above it, and every other character is kept |
| Text.TrimEnd | backend/app/api/v1/advisor.py:161-162 | `rstrip(chars)` keeps the longest prefix that does not end in a stripped character, and only stripped characters are removed |
| Text.TrimStart | backend/app/api/v1/advisor.py:104 | the leading half of `strip()`: the longest suffix that does not start with whitespace |
| Text.Strip | backend/app/api/v1/advisor.py:104 | `strip()` neither starts nor ends with whitespace and is no longer than its input; `Text.StripMiddle` and `Text.StripEmpty` state what is removed |
| Text.StripMiddle | backend/app/api/v1/advisor.py:104 | `strip()` is a contiguous middle of its input with only whitespace before it and after it |
| Text.StripEmpty | backend/app/api/v1/advisor.py:104 | `strip()` is empty exactly when the input is all whitespace |
| Text.LowerIdempotent | backend/app/api/v1/advisor.py:104 | lower-casing twice is lower-casing once |
| Text.StripIgnoresPadding | backend/app/api/v1/advisor.py:104 | whitespace around a string never changes its `strip()` |
| Patterns.LineEnd | backend/app/api/v1/advisor.py:67 | the end of the line from a position: no line break before it, and a line break or the end of the text at it |
| Patterns.LastAt | backend/app/api/v1/advisor.py:67 | the last occurrence of a string within bounds, absent exactly when it does not occur there; this is where a greedy group stops |
| Patterns.MatchRest | backend/app/api/v1/advisor.py:76-77 | `prefix(.+)` at a position succeeds exactly when the prefix is there and a non-line-break character follows it; the group is the rest of the line |
| Patterns.MatchEnclosed | backend/app/api/v1/advisor.py:78-80 | `prefix(.+)suffix` succeeds exactly when the suffix occurs later on the line; the group ends at the last such suffix |
| Patterns.SplitBefore | backend/app/api/v1/advisor.py:67 | two non-empty groups split by a separator before a fixed end exist exactly when the separator occurs there; the split is at the last such separator |
| Patterns.MatchPair | backend/app/api/v1/advisor.py:67-72 | `prefix(.+)sep(.+)` succeeds exactly when the separator occurs after the prefix on the line with text on both sides; the first group runs to the last such separator and the second to the end of the line |
| Patterns.SkipFrom | backend/app/api/v1/advisor.py:88 | the text after the last usable separator on the line, present exactly when a separator leaves a non-empty rest |
| Patterns.MatchSkip | backend/app/api/v1/advisor.py:88 | `recommend.* for (.+)` succeeds exactly when " for " follows "recommend" on the line with text after it; the group is the text after the last usable " for " |
| Patterns.PairThenMissing | backend/app/api/v1/advisor.py:70 | when no separator precedes the last suffix of the line, none precedes any earlier suffix |
| Patterns.MatchPairThen | backend/app/api/v1/advisor.py:70 | `(.+) and (.+) together` succeeds exactly when " and " occurs before some " together" on the line; the last " together" ends the second group and the last " and " before it splits the groups |
| Patterns.MatchAt | backend/app/api/v1/advisor.py:66-89 | a successful match yields one non-empty single-line group per capture group of the pattern |
| Patterns.FirstStart | backend/app/api/v1/advisor.py:126 | the leftmost position at which the pattern matches, or none |
| Patterns.Search | backend/app/api/v1/advisor.py:126 | `re.search` fails exactly when the pattern matches nowhere; otherwise it returns the groups of the leftmost match |
| Patterns.FirstSome | backend/app/api/v1/advisor.py:125-128 | the index of the first successful result, or the table length when all fail |
| Patterns.FirstMatch | backend/app/api/v1/advisor.py:125-128 | a table fails exactly when every pattern fails; otherwise the earliest pattern that matches decides the groups |
| Patterns.SearchAtStart | backend/app/api/v1/advisor.py:126 | a pattern that matches at the very start is what `re.search` reports |
| Patterns.FirstMatchHead | backend/app/api/v1/advisor.py:125-128 | the first pattern of a table decides whenever it matches |
| Patterns.MatchPairExact | backend/app/api/v1/advisor.py:67 | `prefix(.+)sep(.+)` on prefix, a, separator, b splits at the written separator whenever no later separator starts inside the separator and b |
| Advisor.TableGroupCounts | backend/app/api/v1/advisor.py:66-89 | every compatibility pattern captures two groups; every ingredient and concern pattern captures one |
| Advisor.Classify | backend/app/api/v1/advisor.py:121-147 | the tables are tried in order (compatibility, ingredient, concern, order phrases) and the first match decides the type; the extracted groups are those of the first matching pattern of the deciding table: two for compatibility, one for ingredient and concern questions, none otherwise; every group is non-empty and on one line |
| Advisor.NormalizeIgnoresPadding | backend/app/api/v1/advisor.py:104 | surrounding whitespace never changes the normalised question |
| Advisor.Resolve | backend/app/api/v1/advisor.py:164-177 | exact lookup first, then the first fuzzy hit; absent exactly when both find nothing |
| Advisor.CleanToken | backend/app/api/v1/advisor.py:161-162 | the stripped token with trailing '?', '.', ',' and '!' removed, and nothing else removed |
| Advisor.CleanName | backend/app/api/v1/advisor.py:227 | the stripped token with trailing '?' removed, and nothing else removed |
| Advisor.FollowUpText | backend/app/api/v1/advisor.py:385-396 | the wording of a follow-up is empty only for the blank placeholder of the concern answer |
| Advisor.Explain | backend/app/api/v1/advisor.py:189-214 | confidence 0.9; the graph's explanation, flagged when the pair has synergies; both ingredients as sources; an "instead of" question exactly when there are conflicts or cautions, then the order question |
| Advisor.Compare | backend/app/api/v1/advisor.py:164-214 | an unknown-ingredient answer at confidence 0.3 naming the first name that resolves to nothing; otherwise the explanation of the resolved pair |
| Advisor.HandleCompatibility | backend/app/api/v1/advisor.py:149-214 | asks for two ingredients, at confidence 0.5 with no sources and the "Can I use retinol with niacinamide?" follow-up, exactly when fewer than two were extracted; otherwise compares the two cleaned names |
| Advisor.PartnerFollowUps | backend/app/api/v1/advisor.py:275-280 | at most one question per interaction; which questions, and in what order, is stated by `PartnerFollowUpsComplete`, `PartnerFollowUpsSound` and `PartnerFollowUpsAppend` |
| Advisor.PartnerFollowUpsAppend | backend/app/api/v1/advisor.py:275-280 | the questions keep interaction order: a concatenation of interactions gives the concatenation of their questions |
| Advisor.PartnerFollowUpsComplete | backend/app/api/v1/advisor.py:276-280 | every interaction whose partner the graph knows contributes its "Can I use ... with ..." question |
| Advisor.PartnerFollowUpsSound | backend/app/api/v1/advisor.py:276-280 | every partner question comes from an interaction whose partner the graph knows |
| Advisor.Describe | backend/app/api/v1/advisor.py:227-288 | no details at confidence 0.3 when the name does not resolve; otherwise the profile at 0.95, sourced from the database, with the retinol question followed by the partner questions of the first two interactions, at most three in all |
| Advisor.HandleIngredientInfo | backend/app/api/v1/advisor.py:216-288 | asks which ingredient, at confidence 0.5 with the "What is retinol?" and "Tell me about niacinamide" follow-ups, exactly when nothing was extracted; otherwise describes the cleaned name |
| Advisor.FirstTerm | backend/app/api/v1/advisor.py:342-346 | the index of the first concern term the text contains, scanning the mapping in order |
| Advisor.FindConcern | backend/app/api/v1/advisor.py:342-346 | no concern exactly when the lower-cased text contains no term; otherwise the concern of the first term it contains |
| Advisor.EarlierTermWins | backend/app/api/v1/advisor.py:313-346 | a term that contains an earlier term can never be the first one found |
| Advisor.ShadowedTerms | backend/app/api/v1/advisor.py:317-339 | "anti-aging" and "large pores" never decide the concern; "aging" and "pores", which map to the same concerns, always come first |
| Advisor.DropEmpty | backend/app/api/v1/advisor.py:396 | the filtered follow-ups are exactly the non-empty ones, and there are no more of them than in the input; order is stated by `DropEmptyAppend` |
| Advisor.DropEmptyAppend | backend/app/api/v1/advisor.py:396 | filtering keeps order and multiplicity: a concatenation filters to the concatenation of the filtered parts |
| Advisor.Recommend | backend/app/api/v1/advisor.py:372-397 | confidence 0.85; the first five ingredients; a gentler-options note exactly for dry or sensitive skin, naming that skin type; the concern's value as source; the pair question only when there are two ingredients, then "What is ..." and "Build me a routine" |
| Advisor.Advise | backend/app/api/v1/advisor.py:310-397 | an unknown-concern answer naming the text at 0.4, with the acne and aging follow-ups, when no term matches; no recommendations at 0.3, with no follow-ups, when the graph has no ingredients for the concern; otherwise the recommendation for the concern found |
| Advisor.HandleConcernAdvice | backend/app/api/v1/advisor.py:290-397 | asks which concern, at confidence 0.5 with the acne, anti-aging and hyperpigmentation follow-ups, exactly when nothing was extracted; otherwise advises on the cleaned text |
| Advisor.HandleRoutineHelp | backend/app/api/v1/advisor.py:399-444 | the standard routine order at confidence 0.95, whatever was asked, sourced from the general guidelines, with the three fixed follow-ups, none of them blank |
| Advisor.Mentioned | backend/app/api/v1/advisor.py:449-457 | an ingredient is found exactly when it is in the catalog and the question mentions its name or an alias; no ingredient appears more often than in the catalog; catalog order is stated by `MentionedAppend` |
| Advisor.MentionedAppend | backend/app/api/v1/advisor.py:449-457 | the scan keeps catalog order: a concatenated catalog gives the concatenation of the findings |
| Advisor.HandleGeneral | backend/app/api/v1/advisor.py:446-487 | one mentioned ingredient gives its profile; two or more give the compatibility of the first two; none gives the capabilities answer at confidence 0.3; it never asks for more input |
| Advisor.Dispatch | backend/app/api/v1/advisor.py:109-119 | a question classified by a pattern or phrase is answered with its own type; confidence stays within [0, 1]; a classified question never gets a request for more input |
| Advisor.Ask | backend/app/api/v1/advisor.py:99-119 | the answer's type is the classification of the normalised question unless that is general; confidence within [0, 1]; never a request for more input |
| Advisor.DispatchSeesQuestionThroughGeneral | backend/app/api/v1/advisor.py:109-119 | routing reads the original question only through the general handler, which lower-cases it |
| Advisor.AskIgnoresCase | backend/app/api/v1/advisor.py:99-119 | lower-casing a question never changes its answer |
| Advisor.AskIgnoresPadding | backend/app/api/v1/advisor.py:99-119 | whitespace around a question that a pattern or phrase classifies never changes its answer |
| Advisor.RoutineHelpByPhrase | backend/app/api/v1/advisor.py:142-145 | a question containing an order phrase and matching no capturing pattern gets the routine-help answer at confidence 0.95 |
| Advisor.ClassifyCanIUse | backend/app/api/v1/advisor.py:66-67 | "can i use A with B" is a compatibility question whose groups are A and B, when " with " occurs after A only where it was written |
| Advisor.AskCanIUse | backend/app/api/v1/advisor.py:99-119 | a question that normalises to "can i use A with B" is answered by comparing the cleaned names of A and B |

## Left out

- The knowledge graph's implementation: the graph module and its data are not part of this model. Its queries are uninterpreted functions, so alias resolution, fuzzy search and compatibility checking are taken as given.
- Answer prose, Markdown layout and emoji. The ingredient profile, the concern list and the routine-order text become datatype values that carry what the text interpolates. The title-casing and `replace('_', ' ')` of category and concern names are not modelled.
- `SkincareAdvisor.__init__`'s `llm_handler` is stored but never called by the modelled code. The `original_question` arguments of the handlers are never read. Both are omitted.
- `Text.Lower`: lower-cases ASCII letters only. `Text.IsSpace` covers ASCII whitespace, the separators U+001C to U+001F, U+0085 and U+00A0. Python's full Unicode tables are not modelled.
- Regular expressions are modelled only in the five shapes the tables use, not as a general engine.
- `RoutineAnalyzer.GenerateSummary`: the concerns are a set, not the alphabetically sorted, comma-joined list the source prints.
- `RoutineBuilder.CheckMissingEssentials`: takes no profile. The source accepts one and never reads it.
- `suggest_routine`'s `budget` argument is never read, so it is omitted.
- Application orders, product keys and wait times are integers. The source's `float` return type only ever holds integers here.
- The API layer (`backend/app/main.py`) and the command-line entry points are not part of this model.
- Validation and not-found errors: `build_routine` raises none. It accepts an empty product list, and it skips ingredient ids the graph does not know.
- Essentials other than sunscreen and moisturizer: `_check_missing_essentials` checks only for sunscreen (mornings) and for a moisturizer or ceramide.
- Waits between steps that are not adjacent: `build_routine` computes wait times only toward the next step.
- `Advisor.AskIgnoresPadding`: requires that the question is classified by a pattern or phrase. A general question is answered from the raw question, not the stripped one. The general handler then only lower-cases, so padding could only matter through an ingredient name or alias that itself contains the padding characters.
