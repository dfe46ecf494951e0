/** The recommendations page: five fixed threshold rules over the most recent
    financial record, each adding one canned recommendation when it fires, and
    a sixth "growth" recommendation that is always added last. */
module Recommendations {
  import opened Options
  import opened Finance
  import Dashboard

  datatype Level = High | Medium | Low

  /** The string a level is stored as. */
  function LevelName(l: Level): string
  {
    match l
    case High => "high"
    case Medium => "medium"
    case Low => "low"
  }

  /** A description: fixed text, or text around one percentage that the page
      prints with one decimal. */
  datatype Text = Plain(text: string) | WithPercent(before: string, value: real, after: string)

  /** Which of the six pieces of advice an entry gives; the first two carry
      the percentage their description quotes. */
  datatype Advice =
    | RaiseMargin(margin: real)
    | CutCosts(costRatio: real)
    | TrimPayroll
    | ImproveCash
    | CutFixedCosts
    | FindGrowth

  /** A recommendation as the page stores it. Its title and description are
      fixed by its advice (see `Title` and `Description`). */
  datatype Recommendation = Recommendation(
    id: string,
    advice: Advice,
    impact: Level,
    effort: Level,
    category: string)

  function Title(a: Advice): string
  {
    match a
    case RaiseMargin(_) => "Améliorer la marge commerciale"
    case CutCosts(_) => "Réduire le poids des charges"
    case TrimPayroll => "Optimiser la masse salariale"
    case ImproveCash => "Améliorer la trésorerie"
    case CutFixedCosts => "Réduire les charges fixes"
    case FindGrowth => "Développer de nouvelles sources de revenus"
  }

  function Description(a: Advice): Text
  {
    match a
    case RaiseMargin(margin) =>
      WithPercent("Votre taux de marge est de ", margin,
        "%, ce qui est inférieur à la norme du secteur (30-40%). Envisagez d'optimiser vos prix de vente ou de négocier vos achats.")
    case CutCosts(costRatio) =>
      WithPercent("Vos charges représentent ", costRatio,
        "% de votre CA. Identifiez les postes de dépenses non essentiels et envisagez des alternatives moins coûteuses.")
    case TrimPayroll =>
      Plain("Votre masse salariale représente plus de 40% de votre CA. Analysez la productivité de vos équipes et envisagez l'automatisation de certaines tâches.")
    case ImproveCash =>
      Plain("Votre trésorerie est faible par rapport à votre activité. Optimisez vos délais de paiement clients et négociez avec vos fournisseurs.")
    case CutFixedCosts =>
      Plain("Vos charges fixes sont élevées. Étudiez la possibilité de renégocier vos contrats (loyer, assurances, abonnements) ou de mutualiser certaines ressources.")
    case FindGrowth =>
      Plain("Diversifiez vos offres ou explorez de nouveaux marchés pour augmenter votre chiffre d'affaires et diluer vos charges fixes.")
  }

  function MarginAdvice(margin: real): Recommendation
  {
    Recommendation("1", RaiseMargin(margin), High, Medium, "Pricing")
  }

  function CostAdvice(costRatio: real): Recommendation
  {
    Recommendation("2", CutCosts(costRatio), High, Medium, "Coûts")
  }

  const PayrollAdvice := Recommendation("3", TrimPayroll, High, High, "Ressources Humaines")
  const CashAdvice := Recommendation("4", ImproveCash, High, Medium, "Trésorerie")
  const FixedCostsAdvice := Recommendation("5", CutFixedCosts, Medium, Medium, "Coûts")
  const GrowthAdvice := Recommendation("6", FindGrowth, High, High, "Croissance")

  /** The six recommendations in rule order; entry `k - 1` belongs to rule `k`. */
  function Catalogue(d: FinancialRecord): seq<Recommendation>
    requires d.revenue > 0.0
  {
    [MarginAdvice(Margin(d)), CostAdvice(CostRatio(d)), PayrollAdvice, CashAdvice, FixedCostsAdvice, GrowthAdvice]
  }

  /** Whether rule `k` (1 to 6) fires on the record; rule 6 always fires.
      The two rules stated as percentages are thresholds on raw amounts:
      rule 1 fires when the variable costs exceed 70 percent of the revenue,
      so a margin of exactly 30 does not fire, and rule 2 when the total
      costs exceed 80 percent of it. */
  function Fires(d: FinancialRecord, k: nat): (fires: bool)
    requires d.revenue > 0.0
    ensures k == 1 ==> (fires <==> d.variableCosts > 0.7 * d.revenue)
    ensures k == 1 && Margin(d) == 30.0 ==> !fires
    ensures k == 2 ==> (fires <==> TotalCosts(d) > 0.8 * d.revenue)
  {
    MarginBelow(d, 30.0);
    CostRatioAbove(d, 80.0);
    match k
    case 1 => Margin(d) < 30.0
    case 2 => CostRatio(d) > 80.0
    case 3 => d.payroll > d.revenue * 0.4
    case 4 => d.cashFlow < d.revenue * 0.1
    case 5 => d.fixedCosts > d.revenue * 0.3
    case _ => true
  }

  function Mask(d: FinancialRecord): seq<bool>
    requires d.revenue > 0.0
  {
    [Fires(d, 1), Fires(d, 2), Fires(d, 3), Fires(d, 4), Fires(d, 5), Fires(d, 6)]
  }

  /** The elements of `xs` whose flag in `m` is set, in their original order. */
  function Select<T>(xs: seq<T>, m: seq<bool>): seq<T>
    requires |m| == |xs|
  {
    if xs == [] then []
    else Select(xs[..|xs| - 1], m[..|xs| - 1]) + (if m[|xs| - 1] then [xs[|xs| - 1]] else [])
  }

  /** The list the page shows for a record: the catalogue entries whose rule
      fires, in rule order. */
  function RecommendationsFor(d: FinancialRecord): (recs: seq<Recommendation>)
    requires d.revenue > 0.0
    ensures forall r :: r in recs <==> exists i :: 0 <= i < 6 && Fires(d, i + 1) && Catalogue(d)[i] == r
  {
    SelectMembers(Catalogue(d), Mask(d));
    Select(Catalogue(d), Mask(d))
  }

  /** The rule number an id stands for, 0 for an id that is none of them. */
  function Rank(id: string): nat
  {
    if id == "1" then 1 else if id == "2" then 2 else if id == "3" then 3
    else if id == "4" then 4 else if id == "5" then 5 else if id == "6" then 6 else 0
  }

  /** The attributes that come with each id. */
  function Profile(id: string): (Level, Level, string)
  {
    if id == "1" then (High, Medium, "Pricing")
    else if id == "2" then (High, Medium, "Coûts")
    else if id == "3" then (High, High, "Ressources Humaines")
    else if id == "4" then (High, Medium, "Trésorerie")
    else if id == "5" then (Medium, Medium, "Coûts")
    else (High, High, "Croissance")
  }

  // ----- Select ---------------------------------------------------------------

  lemma {:induction false} SelectLength<T>(xs: seq<T>, m: seq<bool>)
    requires |m| == |xs|
    ensures |Select(xs, m)| <= |xs|
  {
    if xs != [] {
      SelectLength(xs[..|xs| - 1], m[..|xs| - 1]);
    }
  }

  lemma {:induction false} SelectMember<T>(xs: seq<T>, m: seq<bool>, x: T)
    requires |m| == |xs|
    ensures x in Select(xs, m) <==> exists i :: 0 <= i < |xs| && m[i] && xs[i] == x
  {
    if xs != [] {
      var n := |xs| - 1;
      SelectMember(xs[..n], m[..n], x);
      if x in Select(xs[..n], m[..n]) {
        var i :| 0 <= i < n && m[..n][i] && xs[..n][i] == x;
        assert m[i] && xs[i] == x;
      }
      forall i | 0 <= i < n && m[i] && xs[i] == x
        ensures x in Select(xs[..n], m[..n])
      {
        assert m[..n][i] && xs[..n][i] == x;
      }
    }
  }

  lemma SelectMembers<T>(xs: seq<T>, m: seq<bool>)
    requires |m| == |xs|
    ensures forall x :: x in Select(xs, m) <==> exists i :: 0 <= i < |xs| && m[i] && xs[i] == x
  {
    forall x ensures x in Select(xs, m) <==> exists i :: 0 <= i < |xs| && m[i] && xs[i] == x {
      SelectMember(xs, m, x);
    }
  }

  /** When the last flag is set, the selection ends with the last element. */
  lemma SelectLast<T>(xs: seq<T>, m: seq<bool>)
    requires |m| == |xs| && |xs| > 0 && m[|xs| - 1]
    ensures |Select(xs, m)| > 0 && Select(xs, m)[|Select(xs, m)| - 1] == xs[|xs| - 1]
  {
  }

  /** A selection keeps a strictly increasing key strictly increasing. */
  lemma {:induction false} SelectIncreasing<T>(xs: seq<T>, m: seq<bool>, key: T -> int)
    requires |m| == |xs|
    requires forall i, j :: 0 <= i < j < |xs| ==> key(xs[i]) < key(xs[j])
    ensures forall i, j :: 0 <= i < j < |Select(xs, m)| ==> key(Select(xs, m)[i]) < key(Select(xs, m)[j])
  {
    if xs != [] {
      var n := |xs| - 1;
      var init := Select(xs[..n], m[..n]);
      SelectIncreasing(xs[..n], m[..n], key);
      if m[n] {
        forall i | 0 <= i < |init| ensures key(init[i]) < key(xs[n]) {
          SelectMember(xs[..n], m[..n], init[i]);
        }
        assert Select(xs, m) == init + [xs[n]];
      } else {
        assert Select(xs, m) == init;
      }
    }
  }

  /** Extending the input by one element extends the selection by at most that element. */
  lemma {:induction false} SelectStep<T>(xs: seq<T>, m: seq<bool>, k: nat)
    requires |m| == |xs| && k < |xs|
    ensures Select(xs[..k + 1], m[..k + 1]) == Select(xs[..k], m[..k]) + (if m[k] then [xs[k]] else [])
  {
    assert xs[..k + 1][..k] == xs[..k];
    assert m[..k + 1][..k] == m[..k];
  }

  /** A selection from six elements, written out. */
  lemma {:induction false} SelectSix<T>(c: seq<T>, m: seq<bool>)
    requires |c| == |m| == 6
    ensures Select(c, m) ==
              (if m[0] then [c[0]] else []) + (if m[1] then [c[1]] else []) +
              (if m[2] then [c[2]] else []) + (if m[3] then [c[3]] else []) +
              (if m[4] then [c[4]] else []) + (if m[5] then [c[5]] else [])
  {
    var p0, p1, p2 := (if m[0] then [c[0]] else []), (if m[1] then [c[1]] else []), (if m[2] then [c[2]] else []);
    var p3, p4, p5 := (if m[3] then [c[3]] else []), (if m[4] then [c[4]] else []), (if m[5] then [c[5]] else []);
    assert Select(c[..1], m[..1]) == p0 by {
      SelectStep(c, m, 0);
      assert c[..0] == [] && m[..0] == [];
    }
    assert Select(c[..2], m[..2]) == p0 + p1 by { SelectStep(c, m, 1); }
    assert Select(c[..3], m[..3]) == p0 + p1 + p2 by { SelectStep(c, m, 2); }
    assert Select(c[..4], m[..4]) == p0 + p1 + p2 + p3 by { SelectStep(c, m, 3); }
    assert Select(c[..5], m[..5]) == p0 + p1 + p2 + p3 + p4 by { SelectStep(c, m, 4); }
    assert Select(c[..6], m[..6]) == p0 + p1 + p2 + p3 + p4 + p5 by { SelectStep(c, m, 5); }
    assert c[..6] == c && m[..6] == m;
  }

  // ----- The rules ------------------------------------------------------------

  /** The dashboard's margin badge and rule 1 never both hold; at a margin of
      exactly 30 neither does. */
  lemma MarginVerdictsExclusive(d: FinancialRecord)
    requires d.revenue > 0.0
    ensures !(Dashboard.MarginIsGood(Dashboard.CalculateKpis(d)) && Fires(d, 1))
    ensures Margin(d) == 30.0 ==> !Dashboard.MarginIsGood(Dashboard.CalculateKpis(d)) && !Fires(d, 1)
  {
  }

  // ----- The generated list ---------------------------------------------------

  lemma CatalogueIncreasing(d: FinancialRecord)
    requires d.revenue > 0.0
    ensures forall i, j :: 0 <= i < j < 6 ==> Rank(Catalogue(d)[i].id) < Rank(Catalogue(d)[j].id)
    ensures forall i :: 0 <= i < 6 ==> Rank(Catalogue(d)[i].id) == i + 1
    ensures Catalogue(d)[1].category == Catalogue(d)[4].category
  {
  }

  /** The list holds one to six entries and always ends with the growth advice. */
  lemma ListShape(d: FinancialRecord)
    requires d.revenue > 0.0
    ensures 1 <= |RecommendationsFor(d)| <= 6
    ensures RecommendationsFor(d)[|RecommendationsFor(d)| - 1] == GrowthAdvice
  {
    SelectLength(Catalogue(d), Mask(d));
    SelectLast(Catalogue(d), Mask(d));
  }

  /** Entries appear in rule order: their ids are among "1".."6" and strictly
      increase along the list, so no id appears twice. */
  lemma ListInRuleOrder(d: FinancialRecord)
    requires d.revenue > 0.0
    ensures forall i :: 0 <= i < |RecommendationsFor(d)| ==> 1 <= Rank(RecommendationsFor(d)[i].id) <= 6
    ensures forall i, j :: 0 <= i < j < |RecommendationsFor(d)| ==>
              Rank(RecommendationsFor(d)[i].id) < Rank(RecommendationsFor(d)[j].id)
  {
    var key := (r: Recommendation) => Rank(r.id);
    CatalogueIncreasing(d);
    SelectIncreasing(Catalogue(d), Mask(d), key);
    forall i | 0 <= i < |RecommendationsFor(d)| ensures 1 <= Rank(RecommendationsFor(d)[i].id) <= 6 {
      SelectMember(Catalogue(d), Mask(d), RecommendationsFor(d)[i]);
    }
  }

  /** The entry of rule `k` is in the list exactly when rule `k` fires. */
  lemma ListHasRule(d: FinancialRecord, k: nat)
    requires d.revenue > 0.0 && 1 <= k <= 6
    ensures (exists r :: r in RecommendationsFor(d) && Rank(r.id) == k) <==> Fires(d, k)
    ensures Catalogue(d)[k - 1] in RecommendationsFor(d) <==> Fires(d, k)
  {
    var c := Catalogue(d);
    CatalogueIncreasing(d);
    SelectMember(c, Mask(d), c[k - 1]);
    if r :| r in RecommendationsFor(d) && Rank(r.id) == k {
      SelectMember(c, Mask(d), r);
      var i :| 0 <= i < 6 && Mask(d)[i] && c[i] == r;
      assert i == k - 1;
    }
  }

  /** Every entry carries the impact, effort and category fixed for its id;
      in particular only id "5" has medium impact and no entry is low. */
  lemma EntriesMatchProfile(d: FinancialRecord)
    requires d.revenue > 0.0
    ensures forall r :: r in RecommendationsFor(d) ==> (r.impact, r.effort, r.category) == Profile(r.id)
    ensures forall r :: r in RecommendationsFor(d) ==> (r.impact == Medium <==> r.id == "5")
    ensures forall r :: r in RecommendationsFor(d) ==> r.impact != Low && r.effort != Low
  {
    forall r | r in RecommendationsFor(d)
      ensures (r.impact, r.effort, r.category) == Profile(r.id)
      ensures r.impact == Medium <==> r.id == "5"
    {
      SelectMember(Catalogue(d), Mask(d), r);
    }
  }

  /** Revenue 500000, fixed costs 50000, variable costs 300000, payroll 100000,
      cash 20000: the margin is 40 and the cost ratio 90, so rules 2 and 4
      fire, followed by the growth advice. */
  lemma ScenarioA()
    ensures var d := FinancialRecord(2024, 500000.0, 50000.0, 300000.0, 100000.0, 20000.0);
            RecommendationsFor(d) == [CostAdvice(90.0), CashAdvice, GrowthAdvice]
  {
    var d := FinancialRecord(2024, 500000.0, 50000.0, 300000.0, 100000.0, 20000.0);
    assert Margin(d) == 40.0;
    assert CostRatio(d) == 90.0;
    assert Mask(d) == [false, true, false, true, false, true];
    SelectSix(Catalogue(d), Mask(d));
  }

  // ----- Level lookups ---------------------------------------------------------

  const LowColor := "#6b7280"

  /** `getImpactColor`: green for high, amber for medium, grey for low and for
      any other string. */
  function ImpactColor(impact: string): (color: string)
    ensures color in {"#10b981", "#f59e0b", LowColor}
    ensures impact == "high" ==> color == "#10b981"
    ensures impact == "medium" ==> color == "#f59e0b"
    ensures color == LowColor <==> impact != "high" && impact != "medium"
  {
    if impact == "high" then "#10b981"
    else if impact == "medium" then "#f59e0b"
    else LowColor
  }

  /** `getImpactLabel`: a French label for the three levels; any other string
      is returned unchanged. */
  function ImpactLabel(impact: string): (shown: string)
    ensures impact in {"high", "medium", "low"} ==> shown in {"Impact élevé", "Impact moyen", "Impact faible"}
    ensures impact == "high" ==> shown == "Impact élevé"
    ensures impact == "medium" ==> shown == "Impact moyen"
    ensures impact == "low" ==> shown == "Impact faible"
    ensures shown == impact <==> impact !in {"high", "medium", "low"}
  {
    if impact == "high" then "Impact élevé"
    else if impact == "medium" then "Impact moyen"
    else if impact == "low" then "Impact faible"
    else impact
  }

  /** `getEffortLabel`: a French label for the three levels; any other string
      is returned unchanged. */
  function EffortLabel(effort: string): (shown: string)
    ensures effort in {"high", "medium", "low"} ==> shown in {"Effort important", "Effort modéré", "Effort faible"}
    ensures effort == "high" ==> shown == "Effort important"
    ensures effort == "medium" ==> shown == "Effort modéré"
    ensures effort == "low" ==> shown == "Effort faible"
    ensures shown == effort <==> effort !in {"high", "medium", "low"}
  {
    if effort == "high" then "Effort important"
    else if effort == "medium" then "Effort modéré"
    else if effort == "low" then "Effort faible"
    else effort
  }

  /** On the stored levels the two label lookups tell the levels apart. */
  lemma LabelsTellLevelsApart(a: Level, b: Level)
    ensures ImpactLabel(LevelName(a)) == ImpactLabel(LevelName(b)) ==> a == b
    ensures EffortLabel(LevelName(a)) == EffortLabel(LevelName(b)) ==> a == b
    ensures ImpactLabel(LevelName(a)) != LevelName(a) && EffortLabel(LevelName(a)) != LevelName(a)
  {
  }

  // ----- The page -------------------------------------------------------------

  /** The three things the page can show. */
  datatype PageView = Generating | NoData | Listing(items: seq<Recommendation>)

  class RecommendationsPage {
    var recommendations: seq<Recommendation>
    var loading: bool

    constructor ()
      ensures recommendations == [] && loading
    {
      recommendations := [];
      loading := true;
    }

    /** `generateRecommendations`: evaluates the rules in order, appending
        to a local list, and stores the list in the page state. */
    method GenerateRecommendations(d: FinancialRecord)
      requires d.revenue > 0.0
      modifies this`recommendations
      ensures recommendations == RecommendationsFor(d)
    {
      var recs: seq<Recommendation> := [];
      var margin := Margin(d);
      var costRatio := CostRatio(d);
      if margin < 30.0 {
        recs := recs + [MarginAdvice(margin)];
      }
      if costRatio > 80.0 {
        recs := recs + [CostAdvice(costRatio)];
      }
      if d.payroll > d.revenue * 0.4 {
        recs := recs + [PayrollAdvice];
      }
      if d.cashFlow < d.revenue * 0.1 {
        recs := recs + [CashAdvice];
      }
      if d.fixedCosts > d.revenue * 0.3 {
        recs := recs + [FixedCostsAdvice];
      }
      recs := recs + [GrowthAdvice];
      UnfoldSelection(d);
      recommendations := recs;
    }

    /** `loadRecommendations`: only a returned record reaches the rules; an
        error or an empty answer leaves the list as it was. Loading ends
        either way. */
    method LoadRecommendations(result: Fetched<Option<FinancialRecord>>)
      requires result.Fetched? && result.data.Some? ==> result.data.value.revenue > 0.0
      modifies this
      ensures !loading
      ensures recommendations ==
                if result.Fetched? && result.data.Some? then RecommendationsFor(result.data.value)
                else old(recommendations)
    {
      if result.Fetched? && result.data.Some? {
        GenerateRecommendations(result.data.value);
      }
      loading := false;
    }

    /** What the page renders: the placeholder while loading, the "no data"
        message for an empty list, and otherwise the list itself. */
    function View(): (v: PageView)
      reads this
      ensures v == Generating <==> loading
      ensures v == NoData <==> !loading && recommendations == []
      ensures v.Listing? ==> v.items == recommendations && v.items != []
    {
      if loading then Generating
      else if recommendations == [] then NoData
      else Listing(recommendations)
    }
  }

  /** The selection of the catalogue written out as the six conditional
      appends the page performs. */
  lemma UnfoldSelection(d: FinancialRecord)
    requires d.revenue > 0.0
    ensures RecommendationsFor(d) ==
              (if Fires(d, 1) then [MarginAdvice(Margin(d))] else []) +
              (if Fires(d, 2) then [CostAdvice(CostRatio(d))] else []) +
              (if Fires(d, 3) then [PayrollAdvice] else []) +
              (if Fires(d, 4) then [CashAdvice] else []) +
              (if Fires(d, 5) then [FixedCostsAdvice] else []) +
              [GrowthAdvice]
  {
    SelectSix(Catalogue(d), Mask(d));
  }

  /** A first visit to the page: mount, load, render. The "no data" view is
      shown exactly when no record was loaded, because a generated list is
      never empty; otherwise the list for the record is shown. */
  method VisitPage(result: Fetched<Option<FinancialRecord>>) returns (v: PageView)
    requires result.Fetched? && result.data.Some? ==> result.data.value.revenue > 0.0
    ensures v != Generating
    ensures v == NoData <==> !(result.Fetched? && result.data.Some?)
    ensures v.Listing? ==> v.items == RecommendationsFor(result.data.value)
  {
    var page := new RecommendationsPage();
    page.LoadRecommendations(result);
    if result.Fetched? && result.data.Some? {
      ListShape(result.data.value);
    }
    v := page.View();
  }
}
