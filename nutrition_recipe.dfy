/** `POST /api/nutrition/recipe`: the week's known products become an "available foods" string,
    the LLM is asked for a recipe in JSON, and the first-`{`-to-last-`}` block of its reply is
    returned as it parses; otherwise a fixed recipe built from the foods string is returned. */
module NutritionRecipe {
  import opened Wrappers
  import opened Strings
  import opened Types
  import opened JsonValues
  import opened Llm
  import opened WeeklyBox

  /** The recipe returned when the reply holds no block that parses. */
  datatype Recipe = Recipe(
    title: string, description: string, ingredients: seq<string>, instructions: seq<string>,
    servings: int, prepTime: string, cookTime: string, nutritionalNotes: string)

  /** The payloads: 401, 400 `Invalid input`, 500 `Internal server error`, the parsed block as it
      is, or the fallback recipe. */
  datatype RecipeResponse =
    | Unauthorized
    | InvalidInput
    | InternalError
    | Parsed(recipe: Json)
    | Fallback(fallback: Recipe)
  {
    function Status(): nat
    {
      match this
      case Unauthorized => 401
      case InvalidInput => 400
      case InternalError => 500
      case Parsed(_) => 200
      case Fallback(_) => 200
    }
  }

  const Separator := ", "

  /** `${product.name} (${item.quantity} ${product.unit})`, with `show` the number-to-text conversion. */
  function FoodEntry(p: Product, quantity: real, show: real -> string): string
  {
    p.name + " (" + show(quantity) + " " + p.unit + ")"
  }

  function Foods(products: seq<Product>, items: seq<WeeklyItem>, show: real -> string): seq<string>
  {
    Described(products, items, (p: Product, q: real) => FoodEntry(p, q, show))
  }

  /** `availableFoods`: the known items' entries joined by ", ". */
  function AvailableFoods(products: seq<Product>, items: seq<WeeklyItem>, show: real -> string): string
  {
    Join(Foods(products, items, show), Separator)
  }

  const RecipeSystemPrompt := "You are a creative chef and nutritionist. Generate delicious, healthy recipes using the available ingredients. Consider dietary restrictions and allergies."
  const RecipePromptHead := "Based on the following ingredients available in the weekly box:\n"
  const RecipePromptMiddle := "\n\nAllergies/Dietary Restrictions: "
  const RecipePromptTail := "\n\nPlease generate a detailed recipe recommendation that:\n1. Uses as many of the available ingredients as possible\n2. Is healthy and nutritious\n3. Takes into account any allergies or dietary restrictions\n4. Includes clear instructions\n\nReturn the recipe in the following JSON format:\n{\n  \"title\": \"Recipe name\",\n  \"description\": \"Brief description of the recipe\",\n  \"ingredients\": [\"ingredient 1\", \"ingredient 2\", ...],\n  \"instructions\": [\"step 1\", \"step 2\", ...],\n  \"servings\": number,\n  \"prepTime\": \"X minutes\",\n  \"cookTime\": \"X minutes\",\n  \"nutritionalNotes\": \"Brief note about the nutritional benefits\"\n}\n\nReturn only valid JSON, no markdown formatting."

  /** The user prompt: the foods string, then the allergies, verbatim. */
  function RecipeUserPrompt(availableFoods: string, allergies: string): string
  {
    RecipePromptHead + availableFoods + RecipePromptMiddle + allergies + RecipePromptTail
  }

  /** `callLLM(userPrompt, systemPrompt)` as a function of the foods string and the allergies. */
  type RecipeCall = (string, string) -> Reply

  /** The call the handler makes: the prompts above on an LLM. */
  function AskChef(llm: LlmCall): RecipeCall
  {
    (foods: string, allergies: string) => llm(RecipeUserPrompt(foods, allergies), RecipeSystemPrompt)
  }

  const FallbackInstructions: seq<string> := ["Prepare all ingredients", "Follow your favorite cooking method", "Enjoy!"]

  /** The fixed recipe, its ingredients being `availableFoods.split(', ')`. */
  function FallbackRecipe(availableFoods: string): (r: Recipe)
    ensures r.title == "Custom Recipe" && r.servings == 4 && |r.instructions| == 3
    ensures Join(r.ingredients, Separator) == availableFoods
  {
    JoinSplit(availableFoods, Separator);
    Recipe("Custom Recipe", "A delicious recipe using your weekly ingredients", Split(availableFoods, Separator),
           FallbackInstructions, 4, "15 minutes", "30 minutes",
           "This recipe uses fresh ingredients from your weekly box.")
  }

  /** The reply's JSON path: a block that parses is answered as it is, anything else falls back. */
  function FromReply(text: string, availableFoods: string, parse: string -> Option<Json>): (r: RecipeResponse)
    ensures r.Parsed? <==> BraceSpan(text).Some? && parse(BraceSpan(text).value).Some?
    ensures r.Parsed? ==> r.recipe == parse(BraceSpan(text).value).value
    ensures !r.Parsed? ==> r == Fallback(FallbackRecipe(availableFoods))
  {
    match BraceSpan(text)
    case None => Fallback(FallbackRecipe(availableFoods))
    case Some(block) =>
      match parse(block)
      case Some(recipe) => Parsed(recipe)
      case None => Fallback(FallbackRecipe(availableFoods))
  }

  /** `POST`, reading the product table, for the LLM call (`AskChef(llm)` for an LLM `llm`), a
      `JSON.parse` (`None` when it throws) and a number formatting. */
  function Respond(products: seq<Product>, session: Session, body: WeeklyBody, ask: RecipeCall,
                   parse: string -> Option<Json>, show: real -> string): RecipeResponse
  {
    if !SignedIn(session) then Unauthorized
    else match body
      case NotJson => InternalError
      case WrongShape => InvalidInput
      case WeeklyRequest(items, allergies) =>
        var foods := AvailableFoods(products, items, show);
        match ask(foods, AllergiesAndNotes(allergies))
        case Failure(_) => InternalError
        case Text(text) => FromReply(text, foods, parse)
  }

  // ---------------------------------------------------------------- properties

  /** 401 exactly without a signed-in user; 400 for a body of the wrong shape; 500 for a body that
      is not JSON or a failing LLM call; otherwise a recipe, parsed or fallback. */
  lemma ResponseCases(products: seq<Product>, session: Session, body: WeeklyBody, ask: RecipeCall,
                      parse: string -> Option<Json>, show: real -> string)
    ensures var r := Respond(products, session, body, ask, parse, show);
      (r.Status() == 401 <==> !SignedIn(session))
      && (r.Status() == 400 <==> SignedIn(session) && body.WrongShape?)
      && (r.Status() == 500 <==>
            SignedIn(session)
            && (body.NotJson?
                || (body.WeeklyRequest?
                    && ask(AvailableFoods(products, body.weeklyItems, show), AllergiesAndNotes(body.allergies)).Failure?)))
      && (r.Status() == 200 ==>
            var reply := ask(AvailableFoods(products, body.weeklyItems, show), AllergiesAndNotes(body.allergies));
            reply.Text? && r == FromReply(reply.text, AvailableFoods(products, body.weeklyItems, show), parse))
  {
  }

  lemma SeparatorIsUnbordered()
    ensures Unbordered(Separator)
  {
    assert Separator[..1] == "," && Separator[1..] == " ";
  }

  /** Splitting the foods string gives back the entries when no entry contains ", " (and, by the
      lemma after this one, not in general otherwise). */
  lemma FallbackRecoversEntries(products: seq<Product>, items: seq<WeeklyItem>, show: real -> string)
    requires Known(products, items) != []
    requires forall e :: e in Foods(products, items, show) ==> !Contains(e, Separator)
    ensures FallbackRecipe(AvailableFoods(products, items, show)).ingredients == Foods(products, items, show)
  {
    OneTextPerKnownItem(products, items, (p: Product, q: real) => FoodEntry(p, q, show));
    SeparatorIsUnbordered();
    SplitJoin(Foods(products, items, show), Separator);
  }

  /** An entry holding ", " falls apart: when the only entry contains the
      separator, the fallback lists at least two ingredients instead of that one entry. */
  lemma EntryWithSeparatorSplits(products: seq<Product>, items: seq<WeeklyItem>, show: real -> string)
    requires |Foods(products, items, show)| == 1
    requires Contains(Foods(products, items, show)[0], Separator)
    ensures |FallbackRecipe(AvailableFoods(products, items, show)).ingredients| >= 2
    ensures FallbackRecipe(AvailableFoods(products, items, show)).ingredients != Foods(products, items, show)
  {
    var e := Foods(products, items, show)[0];
    assert AvailableFoods(products, items, show) == e;
    var i := IndexOf(e, Separator).value;
    assert Split(e, Separator) == [e[..i]] + Split(e[i + |Separator|..], Separator);
  }

  /** With no known product the foods string is empty and the fallback lists one empty ingredient. */
  lemma NoKnownProductGivesOneEmptyIngredient(products: seq<Product>, items: seq<WeeklyItem>, show: real -> string)
    requires Known(products, items) == []
    ensures AvailableFoods(products, items, show) == ""
    ensures FallbackRecipe(AvailableFoods(products, items, show)).ingredients == [""]
  {
    UnknownItemsAreSkipped(products, items, (p: Product, q: real) => FoodEntry(p, q, show));
    assert Described(products, [], (p: Product, q: real) => FoodEntry(p, q, show)) == [];
    assert IndexOf("", Separator).None?;
  }
}
