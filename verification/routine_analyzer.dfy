/**
 * The routine analyser: breaks an ingredient list into recognised and
 * unrecognised names, summarises a compatibility report, and turns a report
 * into advice for using two products together.
 */
module RoutineAnalyzer {
  import opened Knowledge

  /** The per-ingredient record of `analyze_ingredient_list`. */
  datatype IdentifiedIngredient = IdentifiedIngredient(
    name: string,
    id: string,
    category: string,
    concernsAddressed: seq<Concern>,
    cautionFor: seq<SkinType>)

  /** A line of the summary; a summary without lines reads "No notable interactions found." */
  datatype SummaryLine =
    | ConflictCount(conflicts: nat)
    | SynergyCount(synergies: nat)
    | Addresses(concerns: set<Concern>)

  datatype IngredientListReport = IngredientListReport(
    identified: seq<IdentifiedIngredient>,
    unrecognized: seq<string>,
    compatibility: CompatibilityReport,
    summary: seq<SummaryLine>)

  datatype Advice = DoNotCombine | UseWithCaution | GreatCombination | NoKnownInteractions

  datatype ProductComparison = ProductComparison(
    canUseTogether: bool,
    conflicts: seq<Finding>,
    cautions: seq<Finding>,
    synergies: seq<Finding>,
    recommendation: Advice)

  function Identify(ing: Ingredient): IdentifiedIngredient {
    IdentifiedIngredient(ing.name, ing.id, ing.category, ing.addressesConcerns, ing.cautionSkinTypes)
  }

  /** The loop of `analyze_ingredient_list`: recognised names become records, the others are kept as given. */
  function Partition(kg: KnowledgeGraph, names: seq<string>): (r: (seq<IdentifiedIngredient>, seq<string>))
    ensures |r.0| + |r.1| == |names|
    ensures forall n :: n in r.1 <==> n in names && !Recognised(kg, n)
    ensures forall e :: e in r.0 <==> exists k :: 0 <= k < |names| && Recognised(kg, names[k]) && e == Identify(kg.getIngredient(names[k]).value)
    decreases |names|
  {
    if names == [] then ([], [])
    else
      var (found, missing) := Partition(kg, names[..|names| - 1]);
      assert forall k :: 0 <= k < |names| - 1 ==> names[..|names| - 1][k] == names[k];
      assert names == names[..|names| - 1] + [names[|names| - 1]];
      match kg.getIngredient(names[|names| - 1])
      case Some(ing) => (found + [Identify(ing)], missing)
      case None => (found, missing + [names[|names| - 1]])
  }

  /**
   * The loop keeps input order on both sides: partitioning a concatenation
   * concatenates the partitions. With the singleton case fixed by the
   * contract above, this determines both lists.
   */
  lemma {:induction false} PartitionAppend(kg: KnowledgeGraph, a: seq<string>, b: seq<string>)
    ensures Partition(kg, a + b) == (Partition(kg, a).0 + Partition(kg, b).0, Partition(kg, a).1 + Partition(kg, b).1)
    decreases |b|
  {
    if b == [] {
      assert a + b == a;
      assert Partition(kg, a).0 + [] == Partition(kg, a).0;
      assert Partition(kg, a).1 + [] == Partition(kg, a).1;
    } else {
      var b' := b[..|b| - 1];
      assert (a + b)[..|a + b| - 1] == a + b';
      assert (a + b)[|a + b| - 1] == b[|b| - 1];
      PartitionAppend(kg, a, b');
      var x := b[|b| - 1];
      var (fa, ma) := Partition(kg, a);
      var (fb, mb) := Partition(kg, b');
      match kg.getIngredient(x)
      case Some(ing) =>
        assert Partition(kg, b) == (fb + [Identify(ing)], mb);
        assert Partition(kg, a + b) == (fa + fb + [Identify(ing)], ma + mb);
        assert fa + fb + [Identify(ing)] == fa + (fb + [Identify(ing)]);
      case None =>
        assert Partition(kg, b) == (fb, mb + [x]);
        assert Partition(kg, a + b) == (fa + fb, ma + mb + [x]);
        assert ma + mb + [x] == ma + (mb + [x]);
    }
  }

  function Ids(found: seq<IdentifiedIngredient>): (r: seq<string>)
    ensures |r| == |found|
    ensures forall i :: 0 <= i < |found| ==> r[i] == found[i].id
  {
    seq(|found|, i requires 0 <= i < |found| => found[i].id)
  }

  /** The concerns any of `found` addresses. */
  function ConcernsOf(found: seq<IdentifiedIngredient>): set<Concern>
    decreases |found|
  {
    if found == [] then {}
    else (set c | c in found[0].concernsAddressed) + ConcernsOf(found[1..])
  }

  /** The union holds exactly the concerns some identified ingredient addresses. */
  lemma {:induction false} ConcernsOfMembers(found: seq<IdentifiedIngredient>, c: Concern)
    ensures c in ConcernsOf(found) <==> exists e :: e in found && c in e.concernsAddressed
    decreases |found|
  {
    if found != [] {
      ConcernsOfMembers(found[1..], c);
      assert forall e :: e in found <==> e == found[0] || e in found[1..];
    }
  }

  /** No concerns exactly when no identified ingredient addresses any. */
  lemma ConcernsOfEmpty(found: seq<IdentifiedIngredient>)
    ensures ConcernsOf(found) != {} <==> exists e, c :: e in found && c in e.concernsAddressed
  {
    if exists e, c :: e in found && c in e.concernsAddressed {
      var e, c :| e in found && c in e.concernsAddressed;
      ConcernsOfMembers(found, c);
    }
    if ConcernsOf(found) != {} {
      var c :| c in ConcernsOf(found);
      ConcernsOfMembers(found, c);
    }
  }

  /** Orders the summary lines: conflicts, synergies, concerns. */
  function Rank(l: SummaryLine): nat {
    match l
    case ConflictCount(_) => 0
    case SynergyCount(_) => 1
    case Addresses(_) => 2
  }

  /** A summary line carries the count or the set it reports, and only when that is not empty. */
  predicate LineFits(l: SummaryLine, found: seq<IdentifiedIngredient>, compat: CompatibilityReport) {
    match l
    case ConflictCount(n) => n == |compat.conflicts| > 0
    case SynergyCount(n) => n == |compat.synergies| > 0
    case Addresses(cs) => cs == ConcernsOf(found) && cs != {}
  }

  /** At most one line of each rank, in rank order, gives strictly increasing ranks. */
  lemma RanksIncrease(a: seq<SummaryLine>, b: seq<SummaryLine>, c: seq<SummaryLine>)
    requires |a| <= 1 && |b| <= 1 && |c| <= 1
    requires (a != [] ==> Rank(a[0]) == 0) && (b != [] ==> Rank(b[0]) == 1) && (c != [] ==> Rank(c[0]) == 2)
    ensures forall i, j :: 0 <= i < j < |a + b + c| ==> Rank((a + b + c)[i]) < Rank((a + b + c)[j])
  {
    var r := a + b + c;
    forall i, j | 0 <= i < j < |r|
      ensures Rank(r[i]) < Rank(r[j])
    {
      if i < |a| {
        assert r[i] == a[0];
        if j < |a| + |b| {
          assert r[j] == b[0];
        } else {
          assert r[j] == c[0];
        }
      } else {
        assert r[i] == b[0] && r[j] == c[0];
      }
    }
  }

  lemma InThree(a: seq<SummaryLine>, b: seq<SummaryLine>, c: seq<SummaryLine>, l: SummaryLine)
    requires |a| <= 1 && |b| <= 1 && |c| <= 1
    ensures l in a + b + c <==> (a != [] && l == a[0]) || (b != [] && l == b[0]) || (c != [] && l == c[0])
  {
  }

  /** `_generate_summary`, as its list of lines. */
  function GenerateSummary(found: seq<IdentifiedIngredient>, compat: CompatibilityReport): (r: seq<SummaryLine>)
    ensures forall i, j :: 0 <= i < j < |r| ==> Rank(r[i]) < Rank(r[j])
    ensures ConflictCount(|compat.conflicts|) in r <==> compat.conflicts != []
    ensures SynergyCount(|compat.synergies|) in r <==> compat.synergies != []
    ensures Addresses(ConcernsOf(found)) in r <==> exists e, c :: e in found && c in e.concernsAddressed
    ensures forall l :: l in r ==> LineFits(l, found, compat)
  {
    var concerns := ConcernsOf(found);
    ConcernsOfEmpty(found);
    var conflictLine := if compat.conflicts != [] then [ConflictCount(|compat.conflicts|)] else [];
    var synergyLine := if compat.synergies != [] then [SynergyCount(|compat.synergies|)] else [];
    var concernLine := if concerns != {} then [Addresses(concerns)] else [];
    var r := conflictLine + synergyLine + concernLine;
    RanksIncrease(conflictLine, synergyLine, concernLine);
    InThree(conflictLine, synergyLine, concernLine, ConflictCount(|compat.conflicts|));
    InThree(conflictLine, synergyLine, concernLine, SynergyCount(|compat.synergies|));
    InThree(conflictLine, synergyLine, concernLine, Addresses(concerns));
    assert forall l :: l in r ==> LineFits(l, found, compat) by {
      forall l | l in r
        ensures LineFits(l, found, compat)
      {
        InThree(conflictLine, synergyLine, concernLine, l);
      }
    }
    r
  }

  /** `analyze_ingredient_list`. */
  function AnalyzeIngredientList(kg: KnowledgeGraph, names: seq<string>): (r: IngredientListReport)
    ensures |r.identified| + |r.unrecognized| == |names|
    ensures forall n :: n in r.unrecognized <==> n in names && !Recognised(kg, n)
    ensures forall e :: e in r.identified <==>
      exists k :: 0 <= k < |names| && Recognised(kg, names[k]) && e == Identify(kg.getIngredient(names[k]).value)
    ensures r.compatibility == kg.checkCompatibility(Ids(r.identified))
    ensures r.summary == GenerateSummary(r.identified, r.compatibility)
  {
    var (found, missing) := Partition(kg, names);
    var compat := kg.checkCompatibility(Ids(found));
    IngredientListReport(found, missing, compat, GenerateSummary(found, compat))
  }

  /** `_generate_combination_advice`: conflicts outrank cautions, which outrank synergies. */
  function CombinationAdvice(compat: CompatibilityReport): (r: Advice)
    ensures r == DoNotCombine <==> compat.conflicts != []
    ensures r == UseWithCaution <==> compat.conflicts == [] && compat.cautions != []
    ensures r == GreatCombination <==> compat.conflicts == [] && compat.cautions == [] && compat.synergies != []
    ensures r == NoKnownInteractions <==> compat.conflicts == [] && compat.cautions == [] && compat.synergies == []
  {
    if compat.conflicts != [] then DoNotCombine
    else if compat.cautions != [] then UseWithCaution
    else if compat.synergies != [] then GreatCombination
    else NoKnownInteractions
  }

  /** `compare_products`: the report on both ingredient lists together, and the advice it leads to. */
  function CompareProducts(kg: KnowledgeGraph, a: seq<string>, b: seq<string>): (r: ProductComparison)
    ensures var compat := kg.checkCompatibility(a + b);
      && r.canUseTogether == compat.isCompatible
      && r.conflicts == compat.conflicts && r.cautions == compat.cautions && r.synergies == compat.synergies
      && r.recommendation == CombinationAdvice(compat)
      && (r.recommendation == DoNotCombine <==> compat.conflicts != [])
  {
    var compat := kg.checkCompatibility(a + b);
    ProductComparison(compat.isCompatible, compat.conflicts, compat.cautions, compat.synergies, CombinationAdvice(compat))
  }
}
