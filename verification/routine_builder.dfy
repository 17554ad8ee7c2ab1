/**
 * The routine builder: orders a user's products by the application order of
 * their ingredients, annotates each step with a wait time and a time-of-day
 * note, and analyses a routine for conflicts, ordering inversions, missing
 * essentials and suggestions.
 */
module RoutineBuilder {
  import opened Wrappers
  import opened Knowledge

  datatype RoutineTime = AM | PM

  /** A product as the caller lists it: a name and ingredient ids. */
  datatype Product = Product(name: string, ingredients: seq<string>)

  datatype RoutineStep = RoutineStep(
    order: int,
    productName: string,
    ingredients: seq<string>,
    waitAfter: int,
    notes: string)

  datatype Routine = Routine(time: RoutineTime, steps: seq<RoutineStep>)

  /** "'product' (step i) should come after 'laterProduct' (step j)". */
  datatype OrderingIssue = OrderingIssue(product: string, step: int, laterProduct: string, laterStep: int)

  datatype Essential = Sunscreen | Moisturizer {
    function Message(): string {
      match this
      case Sunscreen => "Sunscreen (SPF) - essential for morning routine"
      case Moisturizer => "Moisturizer - needed to maintain skin barrier"
    }
  }

  /** The three templates of the suggestion list. */
  datatype Suggestion =
    | WaitBetween(ingredientA: string, ingredientB: string)
    | RemoveOneOf(ingredientA: string, ingredientB: string, recommendation: string)
    | AddRetinoid

  datatype RoutineAnalysis = RoutineAnalysis(
    isValid: bool,
    conflicts: seq<Finding>,
    cautions: seq<Finding>,
    synergies: seq<Finding>,
    orderingIssues: seq<OrderingIssue>,
    missingEssentials: seq<Essential>,
    suggestions: seq<Suggestion>)

  /** An entry of a suggested routine. */
  datatype SuggestedStep =
    | CleanserStep
    | TreatmentStep(ingredient: Ingredient, concernsAddressed: seq<Concern>)
    | MoisturizerStep
    | SunscreenStep

  /** The order given to a product none of whose ingredients is recognised. */
  const DefaultOrder := 5

  // ---------------------------------------------------------------------------
  // Routine.get_all_ingredients

  /** The ingredient ids of all steps, step after step. */
  function AllIngredients(steps: seq<RoutineStep>): (r: seq<string>)
    ensures |steps| == 0 ==> r == []
    decreases |steps|
  {
    if steps == [] then [] else steps[0].ingredients + AllIngredients(steps[1..])
  }

  /** Flattening distributes over concatenation of step lists. */
  lemma {:induction false} AllIngredientsAppend(a: seq<RoutineStep>, b: seq<RoutineStep>)
    ensures AllIngredients(a + b) == AllIngredients(a) + AllIngredients(b)
    decreases |a|
  {
    if a == [] {
      assert a + b == b;
    } else {
      assert (a + b)[1..] == a[1..] + b;
      AllIngredientsAppend(a[1..], b);
    }
  }

  /** An id is in the flattened list exactly when some step lists it; the length is the sum of the steps' lengths. */
  lemma {:induction false} AllIngredientsMembers(steps: seq<RoutineStep>, x: string)
    ensures x in AllIngredients(steps) <==> exists i :: 0 <= i < |steps| && x in steps[i].ingredients
    decreases |steps|
  {
    if steps != [] {
      AllIngredientsMembers(steps[1..], x);
      assert forall i :: 1 <= i < |steps| ==> steps[i] == steps[1..][i - 1];
      if x in steps[0].ingredients {
      } else if x in AllIngredients(steps[1..]) {
        var i :| 0 <= i < |steps[1..]| && x in steps[1..][i].ingredients;
        assert x in steps[i + 1].ingredients;
      }
    }
  }

  // ---------------------------------------------------------------------------
  // _get_product_order and _get_step_order

  function OrderOf(kg: KnowledgeGraph, id: string): int
    requires Recognised(kg, id)
  {
    kg.getIngredient(id).value.applicationOrder
  }

  /** The smallest application order among the recognised ids, if any is recognised. */
  function MinRecognised(kg: KnowledgeGraph, ids: seq<string>): (r: Option<int>)
    decreases |ids|
  {
    if ids == [] then None
    else
      var rest := MinRecognised(kg, ids[..|ids| - 1]);
      match kg.getIngredient(ids[|ids| - 1])
      case None => rest
      case Some(ing) =>
        match rest
        case None => Some(ing.applicationOrder)
        case Some(m) => Some(Min(m, ing.applicationOrder))
  }

  lemma {:induction false} MinRecognisedSpec(kg: KnowledgeGraph, ids: seq<string>)
    ensures var r := MinRecognised(kg, ids);
      && (r.None? <==> forall k :: 0 <= k < |ids| ==> !Recognised(kg, ids[k]))
      && (r.Some? ==> exists k :: 0 <= k < |ids| && Recognised(kg, ids[k]) && OrderOf(kg, ids[k]) == r.value)
      && (r.Some? ==> forall k :: 0 <= k < |ids| && Recognised(kg, ids[k]) ==> r.value <= OrderOf(kg, ids[k]))
    decreases |ids|
  {
    if ids != [] {
      var init := ids[..|ids| - 1];
      MinRecognisedSpec(kg, init);
      assert forall k :: 0 <= k < |init| ==> init[k] == ids[k];
      var rest := MinRecognised(kg, init);
      if rest.Some? {
        var k :| 0 <= k < |init| && Recognised(kg, init[k]) && OrderOf(kg, init[k]) == rest.value;
        assert Recognised(kg, ids[k]) && OrderOf(kg, ids[k]) == rest.value;
      }
    }
  }

  /** `_get_product_order`: the minimum application order of the recognised ingredients, 5 when there is none. */
  function ProductOrder(kg: KnowledgeGraph, ids: seq<string>): int {
    if |ids| == 0 then DefaultOrder
    else
      match MinRecognised(kg, ids)
      case None => DefaultOrder
      case Some(m) => m
  }

  /** The product order is the least application order of a recognised ingredient, and 5 when none is recognised. */
  lemma ProductOrderSpec(kg: KnowledgeGraph, ids: seq<string>)
    ensures (forall k :: 0 <= k < |ids| ==> !Recognised(kg, ids[k])) ==> ProductOrder(kg, ids) == DefaultOrder
    ensures (exists k :: 0 <= k < |ids| && Recognised(kg, ids[k])) ==>
      exists k :: 0 <= k < |ids| && Recognised(kg, ids[k]) && OrderOf(kg, ids[k]) == ProductOrder(kg, ids)
    ensures forall k :: 0 <= k < |ids| && Recognised(kg, ids[k]) ==> ProductOrder(kg, ids) <= OrderOf(kg, ids[k])
  {
    MinRecognisedSpec(kg, ids);
  }

  /**
   * `_get_step_order`, the builder's second copy of the same loop over a step's
   * ingredients: it agrees with `ProductOrder` on the step's ingredient list.
   */
  method StepOrder(kg: KnowledgeGraph, step: RoutineStep) returns (r: int)
    ensures r == ProductOrder(kg, step.ingredients)
  {
    var ids := step.ingredients;
    if |ids| == 0 {
      return DefaultOrder;
    }
    var orders: Option<int> := None;
    for i := 0 to |ids|
      invariant orders == MinRecognised(kg, ids[..i])
    {
      assert ids[..i + 1][..i] == ids[..i];
      match kg.getIngredient(ids[i])
      case None =>
      case Some(ing) =>
        orders := match orders
          case None => Some(ing.applicationOrder)
          case Some(m) => Some(Min(m, ing.applicationOrder));
    }
    assert ids[..|ids|] == ids;
    r := match orders
      case None => DefaultOrder
      case Some(m) => m;
  }

  // ---------------------------------------------------------------------------
  // The stable sort of build_routine

  /**
   * A product with its sort key computed once, as Python's `sorted` does
   * with a `key=` function before it compares anything.
   */
  datatype Keyed = Keyed(key: int, product: Product)

  function Decorate(kg: KnowledgeGraph, ps: seq<Product>): (r: seq<Keyed>)
    ensures |r| == |ps|
    ensures forall i :: 0 <= i < |ps| ==> r[i] == Keyed(ProductOrder(kg, ps[i].ingredients), ps[i])
  {
    seq(|ps|, i requires 0 <= i < |ps| => Keyed(ProductOrder(kg, ps[i].ingredients), ps[i]))
  }

  function Undecorate(ks: seq<Keyed>): (r: seq<Product>)
    ensures |r| == |ks|
    ensures forall i :: 0 <= i < |ks| ==> r[i] == ks[i].product
  {
    seq(|ks|, i requires 0 <= i < |ks| => ks[i].product)
  }

  ghost predicate SortedByKey(ks: seq<Keyed>) {
    forall i, j :: 0 <= i < j < |ks| ==> ks[i].key <= ks[j].key
  }

  /** The entries with key `k`, in their order in `ks`. */
  function WithKey(ks: seq<Keyed>, k: int): seq<Keyed>
    decreases |ks|
  {
    if ks == [] then []
    else (if ks[0].key == k then [ks[0]] else []) + WithKey(ks[1..], k)
  }

  /** Inserts `x` after every entry whose key is not larger than its own. */
  function Insert(ks: seq<Keyed>, x: Keyed): (r: seq<Keyed>)
    ensures |r| == |ks| + 1
    decreases |ks|
  {
    if ks == [] then [x]
    else if ks[|ks| - 1].key <= x.key then ks + [x]
    else Insert(ks[..|ks| - 1], x) + [ks[|ks| - 1]]
  }

  lemma {:induction false} InsertMultiset(ks: seq<Keyed>, x: Keyed)
    ensures multiset(Insert(ks, x)) == multiset(ks) + multiset{x}
    decreases |ks|
  {
    if ks != [] && ks[|ks| - 1].key > x.key {
      var init, last := ks[..|ks| - 1], ks[|ks| - 1];
      assert ks == init + [last];
      InsertMultiset(init, x);
    }
  }

  lemma {:induction false} InsertSorted(ks: seq<Keyed>, x: Keyed)
    requires SortedByKey(ks)
    ensures SortedByKey(Insert(ks, x))
    decreases |ks|
  {
    if ks != [] && ks[|ks| - 1].key > x.key {
      var init, last := ks[..|ks| - 1], ks[|ks| - 1];
      assert SortedByKey(init) by {
        forall i, j | 0 <= i < j < |init| ensures init[i].key <= init[j].key {
          assert init[i] == ks[i] && init[j] == ks[j];
        }
      }
      InsertSorted(init, x);
      InsertMultiset(init, x);
      var ins := Insert(init, x);
      forall i | 0 <= i < |ins| ensures ins[i].key <= last.key {
        var y := ins[i];
        assert y in multiset(ins);
        if y != x {
          assert y in multiset(init);
          var m :| 0 <= m < |init| && init[m] == y;
          assert ks[m] == y;
        }
      }
      assert Insert(ks, x) == ins + [last];
      forall i, j | 0 <= i < j < |ins| + 1 ensures (ins + [last])[i].key <= (ins + [last])[j].key {
        assert (ins + [last])[i] == ins[i];
        if j < |ins| {
          assert (ins + [last])[j] == ins[j];
        }
      }
    }
  }

  /** Python's stable `sorted`, as an insertion sort over the decorated products. */
  function SortKeyed(ks: seq<Keyed>): (r: seq<Keyed>)
    ensures |r| == |ks|
    decreases |ks|
  {
    if ks == [] then [] else Insert(SortKeyed(ks[..|ks| - 1]), ks[|ks| - 1])
  }

  lemma {:induction false} SortKeyedSorted(ks: seq<Keyed>)
    ensures SortedByKey(SortKeyed(ks))
    decreases |ks|
  {
    if ks != [] {
      SortKeyedSorted(ks[..|ks| - 1]);
      InsertSorted(SortKeyed(ks[..|ks| - 1]), ks[|ks| - 1]);
    }
  }

  lemma {:induction false} SortKeyedMultiset(ks: seq<Keyed>)
    ensures multiset(SortKeyed(ks)) == multiset(ks)
    decreases |ks|
  {
    if ks != [] {
      var init, last := ks[..|ks| - 1], ks[|ks| - 1];
      assert ks == init + [last];
      SortKeyedMultiset(init);
      InsertMultiset(SortKeyed(init), last);
    }
  }

  lemma {:induction false} WithKeyAppend(a: seq<Keyed>, b: seq<Keyed>, k: int)
    ensures WithKey(a + b, k) == WithKey(a, k) + WithKey(b, k)
    decreases |a|
  {
    if a == [] {
      assert a + b == b;
    } else {
      assert (a + b)[0] == a[0];
      assert (a + b)[1..] == a[1..] + b;
      WithKeyAppend(a[1..], b, k);
      var head := if a[0].key == k then [a[0]] else [];
      assert WithKey(a + b, k) == head + WithKey(a[1..] + b, k);
      assert WithKey(a, k) == head + WithKey(a[1..], k);
    }
  }

  lemma WithKeySingle(x: Keyed, k: int)
    ensures WithKey([x], k) == if x.key == k then [x] else []
  {
    assert [x][1..] == [];
  }

  /** Entries with different keys never both have key `k`, so their order does not matter to `WithKey`. */
  lemma SinglesCommute(x: Keyed, y: Keyed, k: int)
    requires x.key != y.key
    ensures WithKey([x], k) + WithKey([y], k) == WithKey([y], k) + WithKey([x], k)
  {
    WithKeySingle(x, k);
    WithKeySingle(y, k);
  }

  lemma {:induction false} InsertStable(ks: seq<Keyed>, x: Keyed, k: int)
    ensures WithKey(Insert(ks, x), k) == WithKey(ks, k) + WithKey([x], k)
    decreases |ks|
  {
    if ks == [] {
      assert [x] == ks + [x];
    } else if ks[|ks| - 1].key <= x.key {
      WithKeyAppend(ks, [x], k);
    } else {
      var init, last := ks[..|ks| - 1], ks[|ks| - 1];
      assert ks == init + [last];
      var ins := Insert(init, x);
      assert Insert(ks, x) == ins + [last];
      InsertStable(init, x, k);
      WithKeyAppend(ins, [last], k);
      WithKeyAppend(init, [last], k);
      SinglesCommute(x, last, k);
      calc {
        WithKey(Insert(ks, x), k);
        WithKey(ins, k) + WithKey([last], k);
        WithKey(init, k) + (WithKey([x], k) + WithKey([last], k));
        WithKey(init, k) + (WithKey([last], k) + WithKey([x], k));
        WithKey(ks, k) + WithKey([x], k);
      }
    }
  }

  /** The sort is stable: entries with equal keys keep their input order. */
  lemma {:induction false} SortKeyedStable(ks: seq<Keyed>, k: int)
    ensures WithKey(SortKeyed(ks), k) == WithKey(ks, k)
    decreases |ks|
  {
    if ks != [] {
      var init, last := ks[..|ks| - 1], ks[|ks| - 1];
      assert ks == init + [last];
      SortKeyedStable(init, k);
      InsertStable(SortKeyed(init), last, k);
      WithKeyAppend(init, [last], k);
    }
  }

  /** `sorted(products, key=lambda p: _get_product_order(p['ingredients']))`. */
  function SortByOrder(kg: KnowledgeGraph, ps: seq<Product>): seq<Product> {
    Undecorate(SortKeyed(Decorate(kg, ps)))
  }

  /** The products whose order key is `k`, in their order in `ps`. */
  function ProductsWithOrder(kg: KnowledgeGraph, ps: seq<Product>, k: int): seq<Product>
    decreases |ps|
  {
    if ps == [] then []
    else (if ProductOrder(kg, ps[0].ingredients) == k then [ps[0]] else []) + ProductsWithOrder(kg, ps[1..], k)
  }

  /** Every entry carries the key of its own product. */
  ghost predicate WellKeyed(kg: KnowledgeGraph, ks: seq<Keyed>) {
    forall i :: 0 <= i < |ks| ==> ks[i].key == ProductOrder(kg, ks[i].product.ingredients)
  }

  lemma {:induction false} UndecorateWithKey(kg: KnowledgeGraph, ks: seq<Keyed>, k: int)
    requires WellKeyed(kg, ks)
    ensures Undecorate(WithKey(ks, k)) == ProductsWithOrder(kg, Undecorate(ks), k)
    decreases |ks|
  {
    if ks != [] {
      UndecorateWithKey(kg, ks[1..], k);
      assert Undecorate(ks)[1..] == Undecorate(ks[1..]);
      var head := if ks[0].key == k then [ks[0]] else [];
      assert Undecorate(head + WithKey(ks[1..], k)) == Undecorate(head) + Undecorate(WithKey(ks[1..], k));
    }
  }

  lemma UndecorateAppend(a: seq<Keyed>, b: seq<Keyed>)
    ensures Undecorate(a + b) == Undecorate(a) + Undecorate(b)
  {
  }

  lemma {:induction false} InsertProducts(ks: seq<Keyed>, x: Keyed)
    ensures multiset(Undecorate(Insert(ks, x))) == multiset(Undecorate(ks)) + multiset{x.product}
    decreases |ks|
  {
    if ks == [] {
    } else if ks[|ks| - 1].key <= x.key {
      UndecorateAppend(ks, [x]);
    } else {
      var init, last := ks[..|ks| - 1], ks[|ks| - 1];
      assert ks == init + [last];
      InsertProducts(init, x);
      UndecorateAppend(Insert(init, x), [last]);
      UndecorateAppend(init, [last]);
    }
  }

  lemma UndecorateSnoc(init: seq<Keyed>, last: Keyed)
    ensures multiset(Undecorate(init + [last])) == multiset(Undecorate(init)) + multiset{last.product}
  {
    UndecorateAppend(init, [last]);
    assert Undecorate([last]) == [last.product];
  }

  lemma {:induction false} SortKeyedProducts(ks: seq<Keyed>)
    ensures multiset(Undecorate(SortKeyed(ks))) == multiset(Undecorate(ks))
    decreases |ks|
  {
    if ks != [] {
      var init, last := ks[..|ks| - 1], ks[|ks| - 1];
      var si := SortKeyed(init);
      assert SortKeyed(ks) == Insert(si, last);
      SortKeyedProducts(init);
      InsertProducts(si, last);
      assert ks == init + [last];
      UndecorateSnoc(init, last);
    }
  }

  /**
   * The sorted products are a permutation of the input, in non-decreasing
   * order of their keys, and products with equal keys keep their input order.
   */
  lemma SortByOrderSpec(kg: KnowledgeGraph, ps: seq<Product>)
    ensures |SortByOrder(kg, ps)| == |ps|
    ensures multiset(SortByOrder(kg, ps)) == multiset(ps)
    ensures forall i, j :: 0 <= i < j < |ps| ==>
      ProductOrder(kg, SortByOrder(kg, ps)[i].ingredients) <= ProductOrder(kg, SortByOrder(kg, ps)[j].ingredients)
    ensures forall k :: ProductsWithOrder(kg, SortByOrder(kg, ps), k) == ProductsWithOrder(kg, ps, k)
  {
    var d := Decorate(kg, ps);
    var sorted := SortKeyed(d);
    assert Undecorate(d) == ps;
    SortKeyedProducts(d);
    SortKeyedSorted(d);
    SortKeyedMultiset(d);
    assert WellKeyed(kg, sorted) by {
      forall i | 0 <= i < |sorted|
        ensures sorted[i].key == ProductOrder(kg, sorted[i].product.ingredients)
      {
        assert sorted[i] in multiset(sorted);
        var m :| 0 <= m < |d| && d[m] == sorted[i];
      }
    }
    forall i, j | 0 <= i < j < |ps|
      ensures ProductOrder(kg, SortByOrder(kg, ps)[i].ingredients) <= ProductOrder(kg, SortByOrder(kg, ps)[j].ingredients)
    {
      assert SortByOrder(kg, ps)[i] == sorted[i].product && SortByOrder(kg, ps)[j] == sorted[j].product;
    }
    forall k
      ensures ProductsWithOrder(kg, SortByOrder(kg, ps), k) == ProductsWithOrder(kg, ps, k)
    {
      SortKeyedStable(d, k);
      UndecorateWithKey(kg, sorted, k);
      UndecorateWithKey(kg, d, k);
    }
  }

  // ---------------------------------------------------------------------------
  // _check_time_appropriateness

  /** A recognised ingredient restricted to the other time of day. */
  predicate WrongTime(kg: KnowledgeGraph, id: string, time: RoutineTime) {
    match kg.getIngredient(id)
    case None => false
    case Some(ing) => if time == AM then ing.timeOfDay == PmOnly else ing.timeOfDay == AmOnly
  }

  /** The first ingredient, in list order, that is used at the wrong time. */
  function FirstWrongTime(kg: KnowledgeGraph, ids: seq<string>, time: RoutineTime): (r: Option<Ingredient>)
    ensures r.None? <==> forall k :: 0 <= k < |ids| ==> !WrongTime(kg, ids[k], time)
    ensures r.Some? ==> exists k :: (0 <= k < |ids| && WrongTime(kg, ids[k], time) && kg.getIngredient(ids[k]) == r
      && forall j :: 0 <= j < k ==> !WrongTime(kg, ids[j], time))
    decreases |ids|
  {
    if ids == [] then None
    else if WrongTime(kg, ids[0], time) then kg.getIngredient(ids[0])
    else
      var r := FirstWrongTime(kg, ids[1..], time);
      assert forall k :: 1 <= k < |ids| ==> ids[k] == ids[1..][k - 1];
      r
  }

  function TimeWarning(ing: Ingredient, time: RoutineTime): (w: string)
    ensures w != ""
  {
    ing.name + if time == AM then " should only be used at night" else " should only be used in the morning"
  }

  /** Whether every ingredient suits `time`, and otherwise the warning naming the first that does not. */
  function CheckTimeAppropriateness(kg: KnowledgeGraph, ids: seq<string>, time: RoutineTime): (r: (bool, string))
    ensures r.0 <==> forall k :: 0 <= k < |ids| ==> !WrongTime(kg, ids[k], time)
    ensures r.0 ==> r.1 == ""
    ensures !r.0 ==> exists k :: (0 <= k < |ids| && WrongTime(kg, ids[k], time)
      && r.1 == TimeWarning(kg.getIngredient(ids[k]).value, time)
      && forall j :: 0 <= j < k ==> !WrongTime(kg, ids[j], time))
  {
    match FirstWrongTime(kg, ids, time)
    case None => (true, "")
    case Some(ing) => (false, TimeWarning(ing, time))
  }

  // ---------------------------------------------------------------------------
  // _calculate_wait_time

  /** The wait the graph asks for between `a` and a following `b`; 0 when it asks for none. */
  function PairWait(kg: KnowledgeGraph, a: string, b: string): int {
    match kg.getInteraction(a, b)
    case Some(Interaction(_, _, Some(w))) => w
    case _ => 0
  }

  /** The largest wait between `a` and any of `next`, never below 0. */
  function RowWait(kg: KnowledgeGraph, a: string, next: seq<string>): (r: int)
    ensures r >= 0
    ensures forall j :: 0 <= j < |next| ==> PairWait(kg, a, next[j]) <= r
    ensures r == 0 || exists j :: 0 <= j < |next| && PairWait(kg, a, next[j]) == r
    decreases |next|
  {
    if next == [] then 0
    else
      var rest := RowWait(kg, a, next[1..]);
      assert forall j :: 1 <= j < |next| ==> next[j] == next[1..][j - 1];
      Max(PairWait(kg, a, next[0]), rest)
  }

  /** `_calculate_wait_time`: the largest wait over all (current, next) ingredient pairs, or 0. */
  function WaitTime(kg: KnowledgeGraph, current: seq<string>, next: seq<string>): (r: int)
    ensures r >= 0
    ensures forall i, j :: 0 <= i < |current| && 0 <= j < |next| ==> PairWait(kg, current[i], next[j]) <= r
    ensures r == 0 || exists i, j :: 0 <= i < |current| && 0 <= j < |next| && PairWait(kg, current[i], next[j]) == r
    ensures next == [] ==> r == 0
    decreases |current|
  {
    if current == [] then 0
    else
      var rest := WaitTime(kg, current[1..], next);
      assert forall i :: 1 <= i < |current| ==> current[i] == current[1..][i - 1];
      Max(RowWait(kg, current[0], next), rest)
  }

  // ---------------------------------------------------------------------------
  // _check_ordering

  function StepKey(kg: KnowledgeGraph, s: RoutineStep): int {
    ProductOrder(kg, s.ingredients)
  }

  /** `x` reports a pair of steps, numbered from 1, whose order keys are inverted. */
  ghost predicate IsInversion(kg: KnowledgeGraph, steps: seq<RoutineStep>, x: OrderingIssue) {
    && 1 <= x.step < x.laterStep <= |steps|
    && x.product == steps[x.step - 1].productName
    && x.laterProduct == steps[x.laterStep - 1].productName
    && StepKey(kg, steps[x.step - 1]) > StepKey(kg, steps[x.laterStep - 1])
  }

  ghost predicate StepsOrdered(kg: KnowledgeGraph, steps: seq<RoutineStep>) {
    forall i, j :: 0 <= i < j < |steps| ==> StepKey(kg, steps[i]) <= StepKey(kg, steps[j])
  }

  /** The nested loops report pairs in lexicographic order of (step, later step). */
  predicate IssueBefore(x: OrderingIssue, y: OrderingIssue) {
    x.step < y.step || (x.step == y.step && x.laterStep < y.laterStep)
  }

  predicate IssuesInOrder(r: seq<OrderingIssue>) {
    forall a, b :: 0 <= a < b < |r| ==> IssueBefore(r[a], r[b])
  }

  /** Two ordered lists, every issue of the first before every issue of the second, concatenate in order. */
  lemma InOrderAppend(a: seq<OrderingIssue>, b: seq<OrderingIssue>)
    requires IssuesInOrder(a) && IssuesInOrder(b)
    requires forall x, y :: x in a && y in b ==> IssueBefore(x, y)
    ensures IssuesInOrder(a + b)
  {
    forall p, q | 0 <= p < q < |a + b|
      ensures IssueBefore((a + b)[p], (a + b)[q])
    {
      if q < |a| {
        assert (a + b)[p] == a[p] && (a + b)[q] == a[q];
      } else if p >= |a| {
        assert (a + b)[p] == b[p - |a|] && (a + b)[q] == b[q - |a|];
      } else {
        assert (a + b)[p] == a[p] && a[p] in a;
        assert (a + b)[q] == b[q - |a|] && b[q - |a|] in b;
      }
    }
  }

  /** The issues for step `i` against steps `j`, `j + 1`, ... */
  function LaterIssues(kg: KnowledgeGraph, steps: seq<RoutineStep>, i: nat, j: nat): (r: seq<OrderingIssue>)
    requires i < j <= |steps|
    ensures forall x :: x in r <==> IsInversion(kg, steps, x) && x.step == i + 1 && x.laterStep > j
    ensures IssuesInOrder(r)
    decreases |steps| - j
  {
    if j == |steps| then []
    else
      var rest := LaterIssues(kg, steps, i, j + 1);
      var head :=
        if StepKey(kg, steps[i]) > StepKey(kg, steps[j])
        then [OrderingIssue(steps[i].productName, i + 1, steps[j].productName, j + 1)]
        else [];
      InOrderAppend(head, rest);
      head + rest
  }

  function IssuesFrom(kg: KnowledgeGraph, steps: seq<RoutineStep>, i: nat): (r: seq<OrderingIssue>)
    requires i <= |steps|
    ensures forall x :: x in r <==> IsInversion(kg, steps, x) && x.step > i
    ensures IssuesInOrder(r)
    decreases |steps| - i
  {
    if i == |steps| then []
    else
      var now := LaterIssues(kg, steps, i, i + 1);
      var rest := IssuesFrom(kg, steps, i + 1);
      InOrderAppend(now, rest);
      now + rest
  }

  /** `_check_ordering`: one issue per pair of steps whose order keys are inverted. */
  function CheckOrdering(kg: KnowledgeGraph, routine: Routine): (r: seq<OrderingIssue>)
    ensures forall x :: x in r <==> IsInversion(kg, routine.steps, x)
    ensures IssuesInOrder(r)
    ensures r == [] <==> StepsOrdered(kg, routine.steps)
  {
    var r := IssuesFrom(kg, routine.steps, 0);
    var steps := routine.steps;
    assert r == [] <==> StepsOrdered(kg, steps) by {
      if !StepsOrdered(kg, steps) {
        var i, j :| 0 <= i < j < |steps| && StepKey(kg, steps[i]) > StepKey(kg, steps[j]);
        assert IsInversion(kg, steps, OrderingIssue(steps[i].productName, i + 1, steps[j].productName, j + 1));
      }
      if r != [] {
        assert IsInversion(kg, steps, r[0]);
      }
    }
    r
  }

  // ---------------------------------------------------------------------------
  // _check_missing_essentials and _generate_suggestions

  const SunscreenCategories: set<string> := {"sunscreen"}
  const MoisturizerCategories: set<string> := {"moisturizer", "ceramide"}
  const RetinoidCategories: set<string> := {"retinoid"}

  /** `_check_missing_essentials`: sunscreen (mornings only), then moisturizer, when absent. */
  function CheckMissingEssentials(kg: KnowledgeGraph, routine: Routine): (r: seq<Essential>)
    ensures |r| <= 2
    ensures Sunscreen in r <==> routine.time == AM && !HasCategory(kg, AllIngredients(routine.steps), SunscreenCategories)
    ensures Moisturizer in r <==> !HasCategory(kg, AllIngredients(routine.steps), MoisturizerCategories)
    ensures |r| == 2 ==> r == [Sunscreen, Moisturizer]
  {
    var all := AllIngredients(routine.steps);
    (if routine.time == AM && !HasCategory(kg, all, SunscreenCategories) then [Sunscreen] else [])
    + (if !HasCategory(kg, all, MoisturizerCategories) then [Moisturizer] else [])
  }

  /** `_generate_suggestions`: wait lines, then conflict lines, then at most one retinoid line. */
  function GenerateSuggestions(kg: KnowledgeGraph, routine: Routine, compat: CompatibilityReport, profile: Option<SkinProfile>)
    : (r: seq<Suggestion>)
    ensures |r| == |compat.waitTimes| + |compat.conflicts| + (if AddRetinoid in r then 1 else 0)
    ensures forall i :: 0 <= i < |compat.waitTimes| ==>
      r[i] == WaitBetween(compat.waitTimes[i].ingredientA, compat.waitTimes[i].ingredientB)
    ensures forall i :: 0 <= i < |compat.conflicts| ==>
      r[|compat.waitTimes| + i] == RemoveOneOf(compat.conflicts[i].ingredientA, compat.conflicts[i].ingredientB, compat.conflicts[i].recommendation)
    ensures AddRetinoid in r <==>
      && profile.Some? && Aging in profile.value.concerns
      && routine.time == PM
      && !HasCategory(kg, AllIngredients(routine.steps), RetinoidCategories)
    ensures AddRetinoid in r ==> r[|r| - 1] == AddRetinoid
  {
    var waits := seq(|compat.waitTimes|, i requires 0 <= i < |compat.waitTimes| =>
      WaitBetween(compat.waitTimes[i].ingredientA, compat.waitTimes[i].ingredientB));
    var removals := seq(|compat.conflicts|, i requires 0 <= i < |compat.conflicts| =>
      RemoveOneOf(compat.conflicts[i].ingredientA, compat.conflicts[i].ingredientB, compat.conflicts[i].recommendation));
    var retinoid :=
      match profile
      case None => []
      case Some(p) =>
        if Aging in p.concerns
           && !HasCategory(kg, AllIngredients(routine.steps), RetinoidCategories)
           && routine.time == PM
        then [AddRetinoid] else [];
    waits + removals + retinoid
  }

  // ---------------------------------------------------------------------------
  // suggest_routine

  predicate TimeAppropriate(ing: Ingredient, time: RoutineTime) {
    (time == AM && ing.timeOfDay != PmOnly) || (time == PM && ing.timeOfDay != AmOnly)
  }

  /** The ingredients usable at `time`, in their order. */
  function FilterTimeAppropriate(ings: seq<Ingredient>, time: RoutineTime): (r: seq<Ingredient>)
    ensures |r| <= |ings|
    ensures forall x :: x in r <==> x in ings && TimeAppropriate(x, time)
    decreases |ings|
  {
    if ings == [] then []
    else (if TimeAppropriate(ings[0], time) then [ings[0]] else []) + FilterTimeAppropriate(ings[1..], time)
  }

  /** Filtering keeps input order: a concatenation filters to the concatenation of the filtered parts. */
  lemma {:induction false} FilterTimeAppropriateAppend(a: seq<Ingredient>, b: seq<Ingredient>, time: RoutineTime)
    ensures FilterTimeAppropriate(a + b, time) == FilterTimeAppropriate(a, time) + FilterTimeAppropriate(b, time)
    decreases |a|
  {
    if a == [] {
      assert a + b == b;
    } else {
      assert (a + b)[0] == a[0];
      assert (a + b)[1..] == a[1..] + b;
      FilterTimeAppropriateAppend(a[1..], b, time);
    }
  }

  function Categories(ings: seq<Ingredient>): set<string> {
    set x | x in ings :: x.category
  }

  /** The first ingredient of each category not yet in `seen`, in order. */
  function OnePerCategory(ings: seq<Ingredient>, seen: set<string>): (r: seq<Ingredient>)
    ensures |r| <= |ings|
    ensures forall i :: 0 <= i < |r| ==> r[i] in ings && r[i].category !in seen
    ensures forall i, j :: 0 <= i < j < |r| ==> r[i].category != r[j].category
    decreases |ings|
  {
    if ings == [] then []
    else if ings[0].category in seen then OnePerCategory(ings[1..], seen)
    else [ings[0]] + OnePerCategory(ings[1..], seen + {ings[0].category})
  }

  lemma CategoriesCons(a: seq<Ingredient>)
    requires a != []
    ensures Categories(a) == {a[0].category} + Categories(a[1..])
  {
    assert forall x :: x in a <==> x == a[0] || x in a[1..];
  }

  /**
   * The loop keeps an ingredient exactly when no earlier one shares its
   * category: the second part of a concatenation is filtered against the
   * categories the first part contributed.
   */
  lemma {:induction false} OnePerCategoryAppend(a: seq<Ingredient>, b: seq<Ingredient>, seen: set<string>)
    ensures OnePerCategory(a + b, seen) == OnePerCategory(a, seen) + OnePerCategory(b, seen + Categories(a))
    decreases |a|
  {
    if a == [] {
      assert a + b == b;
      assert seen + Categories(a) == seen;
    } else {
      var c0 := a[0].category;
      var seen' := if c0 in seen then seen else seen + {c0};
      assert (a + b)[0] == a[0];
      assert (a + b)[1..] == a[1..] + b;
      CategoriesCons(a);
      assert seen' + Categories(a[1..]) == seen + Categories(a);
      OnePerCategoryAppend(a[1..], b, seen');
    }
  }

  /** `ings[i]` is the first ingredient of its category, and that category is not yet added. */
  predicate FirstOfCategory(ings: seq<Ingredient>, i: nat, seen: set<string>)
    requires i < |ings|
  {
    && ings[i].category !in seen
    && forall j :: 0 <= j < i ==> ings[j].category != ings[i].category
  }

  /** The first ingredient of every category not yet added is kept. */
  lemma {:induction false} OnePerCategoryKeepsFirst(ings: seq<Ingredient>, seen: set<string>, i: nat)
    requires i < |ings| && FirstOfCategory(ings, i, seen)
    ensures ings[i] in OnePerCategory(ings, seen)
    decreases |ings|
  {
    if i > 0 {
      var c0 := ings[0].category;
      var seen' := if c0 in seen then seen else seen + {c0};
      assert ings[1..][i - 1] == ings[i];
      assert forall j :: 0 <= j < i - 1 ==> ings[1..][j] == ings[j + 1];
      assert ings[i].category != c0;
      OnePerCategoryKeepsFirst(ings[1..], seen', i - 1);
    }
  }

  /** Only such first ingredients are kept. */
  lemma {:induction false} OnePerCategoryOnlyFirst(ings: seq<Ingredient>, seen: set<string>, x: Ingredient)
    requires x in OnePerCategory(ings, seen)
    ensures exists i :: 0 <= i < |ings| && ings[i] == x && FirstOfCategory(ings, i, seen)
    decreases |ings|
  {
    var c0 := ings[0].category;
    if c0 !in seen && x == ings[0] {
      assert FirstOfCategory(ings, 0, seen);
    } else {
      var seen' := if c0 in seen then seen else seen + {c0};
      OnePerCategoryOnlyFirst(ings[1..], seen', x);
      var k :| 0 <= k < |ings[1..]| && ings[1..][k] == x && FirstOfCategory(ings[1..], k, seen');
      assert ings[k + 1] == x;
      assert forall j :: 1 <= j < k + 1 ==> ings[j] == ings[1..][j - 1];
      assert FirstOfCategory(ings, k + 1, seen);
    }
  }

  /** No category is lost: each category of `ings` is either already seen or kept. */
  lemma {:induction false} OnePerCategoryCovers(ings: seq<Ingredient>, seen: set<string>, x: Ingredient)
    requires x in ings && x.category !in seen
    ensures exists i :: 0 <= i < |OnePerCategory(ings, seen)| && OnePerCategory(ings, seen)[i].category == x.category
    decreases |ings|
  {
    var r := OnePerCategory(ings, seen);
    if ings[0].category in seen {
      OnePerCategoryCovers(ings[1..], seen, x);
    } else if x.category == ings[0].category {
      assert r[0].category == x.category;
    } else {
      var rest := OnePerCategory(ings[1..], seen + {ings[0].category});
      OnePerCategoryCovers(ings[1..], seen + {ings[0].category}, x);
      var i :| 0 <= i < |rest| && rest[i].category == x.category;
      assert r[i + 1].category == x.category;
    }
  }

  /** The concerns of `cs` that the profile lists, in order. */
  function ConcernsAddressed(cs: seq<Concern>, profile: SkinProfile): (r: seq<Concern>)
    ensures |r| <= |cs|
    ensures forall c :: c in r <==> c in cs && c in profile.concerns
    decreases |cs|
  {
    if cs == [] then []
    else (if cs[0] in profile.concerns then [cs[0]] else []) + ConcernsAddressed(cs[1..], profile)
  }

  /** The concerns keep the order the ingredient lists them in. */
  lemma {:induction false} ConcernsAddressedAppend(a: seq<Concern>, b: seq<Concern>, profile: SkinProfile)
    ensures ConcernsAddressed(a + b, profile) == ConcernsAddressed(a, profile) + ConcernsAddressed(b, profile)
    decreases |a|
  {
    if a == [] {
      assert a + b == b;
    } else {
      assert (a + b)[0] == a[0];
      assert (a + b)[1..] == a[1..] + b;
      ConcernsAddressedAppend(a[1..], b, profile);
    }
  }

  /** The first five usable recommendations: those `suggest_routine` considers. */
  function Candidates(kg: KnowledgeGraph, profile: SkinProfile, time: RoutineTime): seq<Ingredient> {
    var usable := FilterTimeAppropriate(kg.getRecommendedIngredients(profile), time);
    usable[..Min(5, |usable|)]
  }

  /** The treatments of a suggested routine: one per category among the candidates. */
  function Treatments(kg: KnowledgeGraph, profile: SkinProfile, time: RoutineTime): seq<Ingredient> {
    OnePerCategory(Candidates(kg, profile, time), {})
  }

  function TreatmentSteps(treatments: seq<Ingredient>, profile: SkinProfile): (r: seq<SuggestedStep>)
    ensures |r| == |treatments|
    ensures forall i :: 0 <= i < |r| ==> r[i] == TreatmentStep(treatments[i], ConcernsAddressed(treatments[i].addressesConcerns, profile))
  {
    seq(|treatments|, i requires 0 <= i < |treatments| =>
      TreatmentStep(treatments[i], ConcernsAddressed(treatments[i].addressesConcerns, profile)))
  }

  lemma TreatmentsSpec(kg: KnowledgeGraph, profile: SkinProfile, time: RoutineTime)
    ensures var t := Treatments(kg, profile, time);
      && |t| <= 5
      && (forall i :: 0 <= i < |t| ==> t[i] in kg.getRecommendedIngredients(profile) && TimeAppropriate(t[i], time))
      && (forall i, j :: 0 <= i < j < |t| ==> t[i].category != t[j].category)
  {
    var usable := FilterTimeAppropriate(kg.getRecommendedIngredients(profile), time);
    assert forall x :: x in usable[..Min(5, |usable|)] ==> x in usable;
  }

  /** `s` treats with a recommended ingredient usable at `time`, naming the profile's concerns it addresses. */
  ghost predicate IsTreatmentFor(kg: KnowledgeGraph, profile: SkinProfile, time: RoutineTime, s: SuggestedStep) {
    && s.TreatmentStep?
    && s.ingredient in kg.getRecommendedIngredients(profile)
    && TimeAppropriate(s.ingredient, time)
    && forall c :: c in s.concernsAddressed <==> c in s.ingredient.addressesConcerns && c in profile.concerns
  }

  lemma TreatmentStepsFit(kg: KnowledgeGraph, profile: SkinProfile, time: RoutineTime)
    ensures var steps := TreatmentSteps(Treatments(kg, profile, time), profile);
      forall k :: 0 <= k < |steps| ==> IsTreatmentFor(kg, profile, time, steps[k])
  {
    TreatmentsSpec(kg, profile, time);
  }

  /**
   * `suggest_routine`: cleanser, then at most five treatments of pairwise
   * distinct categories, each usable at `time`, then moisturizer, then
   * sunscreen in the morning only.
   */
  function SuggestRoutine(kg: KnowledgeGraph, profile: SkinProfile, time: RoutineTime): (r: seq<SuggestedStep>)
    ensures 2 + (if time == AM then 1 else 0) <= |r| <= 7 + (if time == AM then 1 else 0)
    ensures r[0] == CleanserStep
    ensures r[|r| - 1] == SunscreenStep <==> time == AM
    ensures r[|r| - 1 - (if time == AM then 1 else 0)] == MoisturizerStep
    ensures forall i :: 1 <= i < |r| - 1 - (if time == AM then 1 else 0) ==> IsTreatmentFor(kg, profile, time, r[i])
    ensures forall i, j :: 1 <= i < j < |r| - 1 - (if time == AM then 1 else 0) ==>
      r[i].TreatmentStep? && r[j].TreatmentStep? && r[i].ingredient.category != r[j].ingredient.category
    ensures r[1..|r| - 1 - (if time == AM then 1 else 0)] == TreatmentSteps(Treatments(kg, profile, time), profile)
  {
    var treatments := Treatments(kg, profile, time);
    var steps := TreatmentSteps(treatments, profile);
    TreatmentsSpec(kg, profile, time);
    TreatmentStepsFit(kg, profile, time);
    var tail := [MoisturizerStep] + (if time == AM then [SunscreenStep] else []);
    var r := [CleanserStep] + steps + tail;
    assert |r| - 1 - (if time == AM then 1 else 0) == |steps| + 1;
    assert forall i :: 1 <= i <= |steps| ==> r[i] == steps[i - 1];
    assert r[|steps| + 1] == MoisturizerStep;
    assert r[1..|steps| + 1] == steps;
    r
  }

  /** Every category among the candidates has a treatment step in the suggested routine. */
  lemma SuggestRoutineCovers(kg: KnowledgeGraph, profile: SkinProfile, time: RoutineTime, x: Ingredient)
    requires x in Candidates(kg, profile, time)
    ensures var r := SuggestRoutine(kg, profile, time);
      exists i :: 1 <= i < |r| - 1 - (if time == AM then 1 else 0)
        && r[i].TreatmentStep? && r[i].ingredient.category == x.category
  {
    var r := SuggestRoutine(kg, profile, time);
    var t := Treatments(kg, profile, time);
    OnePerCategoryCovers(Candidates(kg, profile, time), {}, x);
    var k :| 0 <= k < |t| && t[k].category == x.category;
    assert r[1..|r| - 1 - (if time == AM then 1 else 0)][k] == r[k + 1];
  }

  // ---------------------------------------------------------------------------
  // analyze_routine and build_routine

  /** `analyze_routine`. */
  function AnalyzeRoutine(kg: KnowledgeGraph, routine: Routine, profile: Option<SkinProfile>): (r: RoutineAnalysis)
    ensures var compat := kg.checkCompatibility(AllIngredients(routine.steps));
      && r.conflicts == compat.conflicts && r.cautions == compat.cautions && r.synergies == compat.synergies
      && r.suggestions == GenerateSuggestions(kg, routine, compat, profile)
    ensures r.isValid <==> r.conflicts == [] && StepsOrdered(kg, routine.steps)
    ensures r.orderingIssues == CheckOrdering(kg, routine)
    ensures r.missingEssentials == CheckMissingEssentials(kg, routine)
  {
    var compat := kg.checkCompatibility(AllIngredients(routine.steps));
    var issues := CheckOrdering(kg, routine);
    RoutineAnalysis(
      |compat.conflicts| == 0 && |issues| == 0,
      compat.conflicts, compat.cautions, compat.synergies,
      issues,
      CheckMissingEssentials(kg, routine),
      GenerateSuggestions(kg, routine, compat, profile))
  }

  /** The ingredients of the product after position `i`, or none for the last one. */
  function NextIngredients(ps: seq<Product>, i: nat): seq<string>
    requires i < |ps|
  {
    if i + 1 < |ps| then ps[i + 1].ingredients else []
  }

  function MakeStep(kg: KnowledgeGraph, sorted: seq<Product>, time: RoutineTime, i: nat): RoutineStep
    requires i < |sorted|
  {
    var (ok, note) := CheckTimeAppropriateness(kg, sorted[i].ingredients, time);
    RoutineStep(
      i + 1,
      sorted[i].name,
      sorted[i].ingredients,
      WaitTime(kg, sorted[i].ingredients, NextIngredients(sorted, i)),
      if !ok then note else "")
  }

  function ProductOf(s: RoutineStep): Product {
    Product(s.productName, s.ingredients)
  }

  function ProductsOf(steps: seq<RoutineStep>): (r: seq<Product>)
    ensures |r| == |steps|
    ensures forall i :: 0 <= i < |steps| ==> r[i] == ProductOf(steps[i])
  {
    seq(|steps|, i requires 0 <= i < |steps| => ProductOf(steps[i]))
  }

  /** The loop of `build_routine` over the sorted products. */
  function BuildSteps(kg: KnowledgeGraph, sorted: seq<Product>, time: RoutineTime): (steps: seq<RoutineStep>)
    ensures |steps| == |sorted|
    ensures forall i :: 0 <= i < |sorted| ==> steps[i] == MakeStep(kg, sorted, time, i)
  {
    seq(|sorted|, i requires 0 <= i < |sorted| => MakeStep(kg, sorted, time, i))
  }

  /** `build_routine`: the products in stable order of their keys, as numbered steps, with the analysis. */
  function BuildRoutine(kg: KnowledgeGraph, products: seq<Product>, time: RoutineTime, profile: Option<SkinProfile>)
    : (r: (Routine, RoutineAnalysis))
    ensures r.0.time == time
    ensures r.0.steps == BuildSteps(kg, SortByOrder(kg, products), time)
    ensures forall i :: 0 <= i < |r.0.steps| ==> r.0.steps[i].order == i + 1
    ensures ProductsOf(r.0.steps) == SortByOrder(kg, products)
    ensures r.1 == AnalyzeRoutine(kg, r.0, profile)
  {
    var sorted := SortByOrder(kg, products);
    var steps := BuildSteps(kg, sorted, time);
    assert ProductsOf(steps) == sorted;
    var routine := Routine(time, steps);
    (routine, AnalyzeRoutine(kg, routine, profile))
  }

  /** Steps whose products are in key order are in key order. */
  lemma OrderedProducts(kg: KnowledgeGraph, steps: seq<RoutineStep>)
    requires forall i, j :: 0 <= i < j < |steps| ==>
      ProductOrder(kg, ProductsOf(steps)[i].ingredients) <= ProductOrder(kg, ProductsOf(steps)[j].ingredients)
    ensures StepsOrdered(kg, steps)
  {
    forall i, j | 0 <= i < j < |steps|
      ensures StepKey(kg, steps[i]) <= StepKey(kg, steps[j])
    {
      assert steps[i].ingredients == ProductsOf(steps)[i].ingredients;
      assert steps[j].ingredients == ProductsOf(steps)[j].ingredients;
    }
  }

  /**
   * One step per product, numbered 1..n; the steps are the products permuted
   * into non-decreasing key order, stably.
   */
  lemma BuildRoutineSteps(kg: KnowledgeGraph, products: seq<Product>, time: RoutineTime, profile: Option<SkinProfile>)
    ensures var steps := BuildRoutine(kg, products, time, profile).0.steps;
      && |steps| == |products|
      && multiset(ProductsOf(steps)) == multiset(products)
      && StepsOrdered(kg, steps)
      && forall k :: ProductsWithOrder(kg, ProductsOf(steps), k) == ProductsWithOrder(kg, products, k)
  {
    var sorted := SortByOrder(kg, products);
    var steps := BuildRoutine(kg, products, time, profile).0.steps;
    SortByOrderSpec(kg, products);
    assert ProductsOf(steps) == sorted;
    OrderedProducts(kg, steps);
  }

  /**
   * A built routine has no ordering issue, so it is valid exactly when the
   * compatibility check reports no conflict.
   */
  lemma BuildRoutineValid(kg: KnowledgeGraph, products: seq<Product>, time: RoutineTime, profile: Option<SkinProfile>)
    ensures var (routine, analysis) := BuildRoutine(kg, products, time, profile);
      && analysis.orderingIssues == []
      && (analysis.isValid <==> analysis.conflicts == [])
  {
    BuildRoutineSteps(kg, products, time, profile);
  }

  /** `w` is the largest wait between an ingredient of `current` and one of `next`, or 0 when there is none above 0. */
  ghost predicate IsMaxWait(kg: KnowledgeGraph, current: seq<string>, next: seq<string>, w: int) {
    && w >= 0
    && (forall a, b :: 0 <= a < |current| && 0 <= b < |next| ==> PairWait(kg, current[a], next[b]) <= w)
    && (w == 0 || exists a, b :: 0 <= a < |current| && 0 <= b < |next| && PairWait(kg, current[a], next[b]) == w)
  }

  lemma MakeStepWait(kg: KnowledgeGraph, sorted: seq<Product>, time: RoutineTime, i: nat)
    requires i < |sorted|
    ensures IsMaxWait(kg, sorted[i].ingredients, NextIngredients(sorted, i), MakeStep(kg, sorted, time, i).waitAfter)
    ensures i == |sorted| - 1 ==> MakeStep(kg, sorted, time, i).waitAfter == 0
  {
  }

  /**
   * Each step waits for the largest wait between its ingredients and the next
   * step's ingredients, or 0; the last step never waits.
   */
  lemma BuildRoutineWaits(kg: KnowledgeGraph, products: seq<Product>, time: RoutineTime, profile: Option<SkinProfile>)
    ensures var steps := BuildRoutine(kg, products, time, profile).0.steps;
      && (forall i :: 0 <= i < |steps| - 1 ==> IsMaxWait(kg, steps[i].ingredients, steps[i + 1].ingredients, steps[i].waitAfter))
      && (|steps| > 0 ==> steps[|steps| - 1].waitAfter == 0)
  {
    var sorted := SortByOrder(kg, products);
    var steps := BuildSteps(kg, sorted, time);
    forall i | 0 <= i < |steps| - 1
      ensures IsMaxWait(kg, steps[i].ingredients, steps[i + 1].ingredients, steps[i].waitAfter)
    {
      MakeStepWait(kg, sorted, time, i);
      assert steps[i + 1].ingredients == sorted[i + 1].ingredients;
    }
    if |steps| > 0 {
      MakeStepWait(kg, sorted, time, |steps| - 1);
    }
  }

  /** `note` is empty when no ingredient suits only the other time, and otherwise warns about the first that does. */
  ghost predicate IsTimeNote(kg: KnowledgeGraph, ids: seq<string>, time: RoutineTime, note: string) {
    && (note == "" <==> forall k :: 0 <= k < |ids| ==> !WrongTime(kg, ids[k], time))
    && (note != "" ==> exists k :: (0 <= k < |ids| && WrongTime(kg, ids[k], time)
          && note == TimeWarning(kg.getIngredient(ids[k]).value, time)
          && forall j :: 0 <= j < k ==> !WrongTime(kg, ids[j], time)))
  }

  lemma MakeStepNote(kg: KnowledgeGraph, sorted: seq<Product>, time: RoutineTime, i: nat)
    requires i < |sorted|
    ensures IsTimeNote(kg, sorted[i].ingredients, time, MakeStep(kg, sorted, time, i).notes)
  {
  }

  /** Every step's note flags the first ingredient that belongs to the other time of day, if any. */
  lemma BuildRoutineNotes(kg: KnowledgeGraph, products: seq<Product>, time: RoutineTime, profile: Option<SkinProfile>)
    ensures var steps := BuildRoutine(kg, products, time, profile).0.steps;
      forall i :: 0 <= i < |steps| ==> IsTimeNote(kg, steps[i].ingredients, time, steps[i].notes)
  {
    var sorted := SortByOrder(kg, products);
    var steps := BuildSteps(kg, sorted, time);
    forall i | 0 <= i < |steps|
      ensures IsTimeNote(kg, steps[i].ingredients, time, steps[i].notes)
    {
      MakeStepNote(kg, sorted, time, i);
    }
  }
}
