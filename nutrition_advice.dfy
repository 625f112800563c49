/** `POST /api/nutrition/advice`: the week's items are turned into a table of their nutrition and
    into five weekly totals, the table goes to the nutrition advisor, and the answer is the
    advisor's fields together with the totals. */
module NutritionAdvice {
  import opened Wrappers
  import opened Seqs
  import opened Strings
  import opened Types
  import opened JsonValues
  import opened Llm
  import opened WeeklyBox

  /** The payloads: 401, 400 `Invalid input`, 500 `Internal server error`, and the advice.
      `weeklyTotals` carries exactly the five nutrients of `Nutrition`. */
  datatype AdviceResponse =
    | Unauthorized
    | InvalidInput
    | InternalError
    | Advised(advice: AdviceOutcome, weeklyTotals: Nutrition)
  {
    function Status(): nat
    {
      match this
      case Unauthorized => 401
      case InvalidInput => 400
      case InternalError => 500
      case Advised(_, _) => 200
    }
  }

  /** `item.quantity || 1`: a zero quantity counts as one, any other is used as it is. */
  function EffectiveQuantity(q: real): (r: real)
    ensures r != 0.0
    ensures q != 0.0 ==> r == q
  {
    if q == 0.0 then 1.0 else q
  }

  // ---------------------------------------------------------------- the weekly totals

  function Plus(a: Nutrition, b: Nutrition): Nutrition
  {
    Nutrition(a.calories + b.calories, a.proteinG + b.proteinG, a.fiberG + b.fiberG,
              a.vitaminCMg + b.vitaminCMg, a.ironMg + b.ironMg)
  }

  function Scale(n: Nutrition, q: real): Nutrition
  {
    Nutrition(n.calories * q, n.proteinG * q, n.fiberG * q, n.vitaminCMg * q, n.ironMg * q)
  }

  /** What one requested item adds to the totals: its product's per-unit nutrition times the
      effective quantity, or nothing for an unknown product. */
  function Contribution(products: seq<Product>, item: WeeklyItem): Nutrition
  {
    match Lookup(products, item.id)
    case None => NoNutrition
    case Some(p) => Scale(p.nutrition, EffectiveQuantity(item.quantity))
  }

  /** The five running totals after the items, in request order. */
  function Totals(products: seq<Product>, items: seq<WeeklyItem>): Nutrition
  {
    if items == [] then NoNutrition
    else Plus(Totals(products, items[..|items| - 1]), Contribution(products, items[|items| - 1]))
  }

  /** `Math.round(x * 100) / 100`: `Math.round` takes the nearest integer, a half going up. The
      result is a whole number of hundredths within half a hundredth of `x`. */
  function RoundToCents(x: real): (r: real)
    ensures x - 0.005 < r <= x + 0.005
    ensures (r * 100.0).Floor as real == r * 100.0
  {
    ((x * 100.0 + 0.5).Floor as real) / 100.0
  }

  /** A whole number of hundredths is left as it is, so rounding twice is rounding once. */
  lemma RoundingKeepsCents(x: real)
    requires (x * 100.0).Floor as real == x * 100.0
    ensures RoundToCents(x) == x
    ensures RoundToCents(RoundToCents(x)) == RoundToCents(x)
  {
    var k := (x * 100.0).Floor;
    assert x * 100.0 + 0.5 == k as real + 0.5;
    assert (x * 100.0 + 0.5).Floor == k;
  }

  /** The `weeklyTotals` object: each running total rounded to hundredths. */
  function RoundedTotals(n: Nutrition): (r: Nutrition)
    ensures r.calories == RoundToCents(n.calories) && r.proteinG == RoundToCents(n.proteinG)
    ensures r.fiberG == RoundToCents(n.fiberG) && r.vitaminCMg == RoundToCents(n.vitaminCMg)
    ensures r.ironMg == RoundToCents(n.ironMg)
  {
    Nutrition(RoundToCents(n.calories), RoundToCents(n.proteinG), RoundToCents(n.fiberG),
              RoundToCents(n.vitaminCMg), RoundToCents(n.ironMg))
  }

  // ---------------------------------------------------------------- the items table

  /** One table line; `show` is JavaScript's number-to-text conversion in a template literal.
      The quantity printed is the requested one, not the effective one. */
  function TableLine(p: Product, quantity: real, show: real -> string): string
  {
    var n := p.nutrition;
    p.name + " (" + show(quantity) + " " + p.unit + "): " + show(n.calories) + " cal, "
    + show(n.proteinG) + "g protein, " + show(n.fiberG) + "g fiber, "
    + show(n.vitaminCMg) + "mg vitamin C, " + show(n.ironMg) + "mg iron"
  }

  /** The table's lines: one per item whose product exists. */
  function Lines(products: seq<Product>, items: seq<WeeklyItem>, show: real -> string): seq<string>
  {
    Described(products, items, (p: Product, q: real) => TableLine(p, q, show))
  }

  function ItemsTable(products: seq<Product>, items: seq<WeeklyItem>, show: real -> string): string
  {
    Join(Lines(products, items, show), "\n")
  }

  /** One more item: its line, if its product exists, and its contribution to the totals. */
  lemma TableStep(products: seq<Product>, items: seq<WeeklyItem>, i: nat, show: real -> string)
    requires i < |items|
    ensures var product := Lookup(products, items[i].id);
      Lines(products, items[..i + 1], show)
      == Lines(products, items[..i], show) + (if product.Some? then [TableLine(product.value, items[i].quantity, show)] else [])
    ensures var product := Lookup(products, items[i].id);
      Totals(products, items[..i + 1])
      == if product.Some? then Plus(Totals(products, items[..i]), Scale(product.value.nutrition, EffectiveQuantity(items[i].quantity)))
         else Totals(products, items[..i])
  {
    assert items[..i + 1][..i] == items[..i];
  }

  /** The `map` over the items that builds the table while adding to the five totals. */
  method TableAndTotals(products: seq<Product>, items: seq<WeeklyItem>, show: real -> string)
    returns (table: string, totals: Nutrition)
    ensures table == ItemsTable(products, items, show)
    ensures totals == Totals(products, items)
  {
    var lines: seq<string> := [];
    var totalCalories, totalProtein, totalFiber, totalVitaminC, totalIron := 0.0, 0.0, 0.0, 0.0, 0.0;
    var i := 0;
    while i < |items|
      invariant 0 <= i <= |items|
      invariant lines == Lines(products, items[..i], show)
      invariant Nutrition(totalCalories, totalProtein, totalFiber, totalVitaminC, totalIron)
                == Totals(products, items[..i])
    {
      TableStep(products, items, i, show);
      var product := Lookup(products, items[i].id);
      if product.Some? {
        var n := product.value.nutrition;
        var quantity := EffectiveQuantity(items[i].quantity);
        var added := Scale(n, quantity);
        totalCalories := totalCalories + added.calories;
        totalProtein := totalProtein + added.proteinG;
        totalFiber := totalFiber + added.fiberG;
        totalVitaminC := totalVitaminC + added.vitaminCMg;
        totalIron := totalIron + added.ironMg;
        lines := lines + [TableLine(product.value, items[i].quantity, show)];
      }
      i := i + 1;
    }
    assert items[..i] == items;
    table := Join(lines, "\n");
    totals := Nutrition(totalCalories, totalProtein, totalFiber, totalVitaminC, totalIron);
  }

  // ---------------------------------------------------------------- the handler

  /** `getNutritionAdvice(allergiesAndNotes, weeklyItemsTable)`, which never throws. */
  type Advisor = (string, string) -> AdviceOutcome

  /** The advisor of the LLM module on an LLM and a `JSON.parse`. */
  function Dietitian(llm: LlmCall, parse: string -> Option<Json>): Advisor
  {
    (notes: string, table: string) => GetNutritionAdvice(notes, table, llm, parse)
  }

  /** What the handler answers, for an advisor (`Dietitian(llm, parse)` for an LLM `llm`) and a
      number formatting. */
  function Respond(products: seq<Product>, session: Session, body: WeeklyBody, advise: Advisor,
                   show: real -> string): AdviceResponse
  {
    if !SignedIn(session) then Unauthorized
    else match body
      case NotJson => InternalError
      case WrongShape => InvalidInput
      case WeeklyRequest(items, allergies) =>
        Advised(advise(AllergiesAndNotes(allergies), ItemsTable(products, items, show)),
                RoundedTotals(Totals(products, items)))
  }

  /** `POST`, reading the product table. */
  method Post(products: seq<Product>, session: Session, body: WeeklyBody, advise: Advisor,
              show: real -> string) returns (r: AdviceResponse)
    ensures r == Respond(products, session, body, advise, show)
  {
    if !SignedIn(session) {
      return Unauthorized;
    }
    if body.NotJson? {
      return InternalError;
    }
    if body.WrongShape? {
      return InvalidInput;
    }
    var table, totals := TableAndTotals(products, body.weeklyItems, show);
    var result := advise(AllergiesAndNotes(body.allergies), table);
    r := Advised(result, RoundedTotals(totals));
  }

  // ---------------------------------------------------------------- properties

  /** 401 exactly without a signed-in user; then 400 for a body of the wrong shape, 500 for one
      that is not JSON, and otherwise the advisor's answer on the notes and the table together
      with the totals rounded to hundredths. */
  lemma ResponseCases(products: seq<Product>, session: Session, body: WeeklyBody, advise: Advisor,
                      show: real -> string)
    ensures var r := Respond(products, session, body, advise, show);
      (r.Status() == 401 <==> !SignedIn(session))
      && (r.Status() == 400 <==> SignedIn(session) && body.WrongShape?)
      && (r.Status() == 500 <==> SignedIn(session) && body.NotJson?)
      && (r.Status() == 200 <==> SignedIn(session) && body.WeeklyRequest?)
      && (r.Advised? ==>
            r.weeklyTotals == RoundedTotals(Totals(products, body.weeklyItems))
            && r.advice == advise(AllergiesAndNotes(body.allergies), ItemsTable(products, body.weeklyItems, show)))
  {
  }

  /** ... and add nothing to the totals. */
  lemma {:induction false} UnknownItemsAddNothing(products: seq<Product>, items: seq<WeeklyItem>)
    ensures Totals(products, items) == Totals(products, Known(products, items))
  {
    if items != [] {
      var p := items[..|items| - 1];
      var x := items[|items| - 1];
      UnknownItemsAddNothing(products, p);
      var k := Known(products, p);
      assert Known(products, items) == k + if IsKnown(products, x) then [x] else [];
      assert Totals(products, items) == Plus(Totals(products, k), Contribution(products, x));
      if IsKnown(products, x) {
        var kx := k + [x];
        assert kx[..|kx| - 1] == k && kx[|kx| - 1] == x;
        assert Known(products, items) == kx;
        assert Totals(products, kx) == Plus(Totals(products, k), Contribution(products, x));
      } else {
        assert Known(products, items) == k + [] == k;
        assert Contribution(products, x) == NoNutrition;
      }
    }
  }

  lemma PlusAssociates(x: Nutrition, y: Nutrition, z: Nutrition)
    ensures Plus(Plus(x, y), z) == Plus(x, Plus(y, z))
  {
  }

  /** The totals add up over consecutive runs of items: each total is a sum over the items. */
  lemma {:induction false} TotalsAdd(products: seq<Product>, a: seq<WeeklyItem>, b: seq<WeeklyItem>)
    ensures Totals(products, a + b) == Plus(Totals(products, a), Totals(products, b))
  {
    if b == [] {
      assert a + b == a;
    } else {
      var p := b[..|b| - 1];
      var c := Contribution(products, b[|b| - 1]);
      assert (a + b)[..|a + b| - 1] == a + p;
      assert (a + b)[|a + b| - 1] == b[|b| - 1];
      assert Totals(products, a + b) == Plus(Totals(products, a + p), c);
      TotalsAdd(products, a, p);
      PlusAssociates(Totals(products, a), Totals(products, p), c);
    }
  }

  /** A single known item adds its product's nutrition times its effective quantity. */
  lemma SingleItemTotals(products: seq<Product>, item: WeeklyItem, p: Product)
    requires Lookup(products, item.id) == Some(p)
    ensures Totals(products, [item]) == Scale(p.nutrition, EffectiveQuantity(item.quantity))
  {
    assert [item][..0] == [];
  }

  /** A zero quantity is totalled as one unit, but the table still shows the zero. */
  lemma ZeroCountsAsOne(products: seq<Product>, id: string, p: Product, show: real -> string)
    requires Lookup(products, id) == Some(p)
    ensures Totals(products, [WeeklyItem(id, 0.0)]) == Totals(products, [WeeklyItem(id, 1.0)]) == Scale(p.nutrition, 1.0)
    ensures Lines(products, [WeeklyItem(id, 0.0)], show) == [TableLine(p, 0.0, show)]
  {
    SingleItemTotals(products, WeeklyItem(id, 0.0), p);
    SingleItemTotals(products, WeeklyItem(id, 1.0), p);
    var item := WeeklyItem(id, 0.0);
    assert [item][..0] == [];
    OneTextPerKnownItem(products, [item], (p: Product, q: real) => TableLine(p, q, show));
    assert Known(products, [item]) == [item];
  }
}
