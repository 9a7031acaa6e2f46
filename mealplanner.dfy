// The meal planner: recipe cards drawn from a fixed catalog, favourites, a
// meal plan for today, a search and meal-type filter, and a pantry list.

module MealPlanner {
  import opened Optional
  import opened Text
  import opened Lists

  datatype Difficulty = Easy | Medium | Hard

  datatype Recipe = Recipe(
    id: string, name: string, prepTime: int, cookTime: int, servings: int,
    difficulty: Difficulty, calories: int,
    ingredients: seq<string>, instructions: seq<string>, tags: seq<string>)

  /** `allRecipes`: the catalog that "generate" reveals recipes from. */
  const AllRecipes: seq<Recipe> := [
    Recipe("1", "Mediterranean Quinoa Bowl", 15, 20, 2, Easy, 420,
      ["quinoa", "cucumber", "tomatoes", "feta cheese", "olive oil", "lemon"],
      ["Cook quinoa", "Dice veggies", "Mix all"], ["healthy", "vegetarian", "gluten-free"]),
    Recipe("2", "Honey Garlic Chicken Stir-fry", 10, 15, 4, Medium, 380,
      ["chicken breast", "broccoli", "bell peppers", "garlic", "honey", "soy sauce"],
      ["Cut chicken", "Stir-fry with veggies", "Add sauce"], ["protein", "quick", "asian"]),
    Recipe("3", "Avocado Toast with Egg", 5, 8, 1, Easy, 340,
      ["bread", "avocado", "eggs", "chili flakes"],
      ["Toast bread", "Mash avocado", "Top with egg"], ["breakfast", "quick"]),
    Recipe("4", "Spicy Salmon with Asparagus", 10, 25, 2, Medium, 550,
      ["salmon fillet", "asparagus", "chili powder", "garlic", "olive oil"],
      ["Season salmon", "Roast with asparagus"], ["seafood", "healthy", "low-carb"]),
    Recipe("5", "Vegan Lentil Soup", 15, 40, 6, Easy, 250,
      ["lentils", "carrots", "celery", "onion", "vegetable broth"],
      ["Saut\U{00C3}\U{00A9} veggies", "Add lentils and broth", "Simmer until tender"], ["vegan", "soup", "comfort-food"]),
    Recipe("6", "Berry Smoothie Bowl", 10, 0, 1, Easy, 310,
      ["frozen berries", "banana", "almond milk", "granola", "chia seeds"],
      ["Blend fruits", "Top with granola and seeds"], ["breakfast", "vegan", "healthy-snack"])
  ]

  const SeedPantry: seq<string> := ["chicken breast", "rice", "broccoli", "eggs", "spinach", "tomatoes"]

  /** The key the meal plan files every added recipe under. */
  const Today := "today"

  // ---------------------------------------------------------------------------
  // Favourites

  /** `toggleFavorite`: an id already present is removed (every occurrence),
      an absent one is appended. */
  function FavoritesToggled(favs: seq<string>, id: string): (r: seq<string>)
    ensures id in favs ==> r == RemoveAll(favs, id) && id !in r
    ensures id !in favs ==> r == favs + [id]
  {
    if id in favs then RemoveAll(favs, id) else favs + [id]
  }

  lemma FavoritesToggledKeepsNoDuplicates(favs: seq<string>, id: string)
    requires NoDuplicates(favs)
    ensures NoDuplicates(FavoritesToggled(favs, id))
  {
    if id in favs {
      RemoveAllKeepsNoDuplicates(favs, id);
    } else {
      var r := favs + [id];
      forall i, j | 0 <= i < j < |r| ensures r[i] != r[j] {
        if j == |r| - 1 {
          assert r[i] == favs[i];
        }
      }
    }
  }

  /** Toggling the same favourite twice gives back the same set of favourites;
      when the id was not a favourite the list itself comes back. */
  lemma FavoritesToggledTwice(favs: seq<string>, id: string)
    ensures Elements(FavoritesToggled(FavoritesToggled(favs, id), id)) == Elements(favs)
    ensures id !in favs ==> FavoritesToggled(FavoritesToggled(favs, id), id) == favs
  {
    var once := FavoritesToggled(favs, id);
    var twice := FavoritesToggled(once, id);
    if id in favs {
      assert twice == once + [id];
      forall y ensures y in Elements(twice) <==> y in Elements(favs) {
        if y in favs && y != id {
          var i :| 0 <= i < |favs| && favs[i] == y;
          assert once[..] == once;
          assert favs[i] in once;
        }
      }
    } else {
      RemoveAllAbsent(favs, id);
      RemoveAllAppend(favs, id);
    }
  }

  lemma {:induction false} RemoveAllAppend(s: seq<string>, x: string)
    ensures RemoveAll(s + [x], x) == RemoveAll(s, x)
  {
    if s == [] {
      assert [] + [x] == [x];
    } else {
      assert (s + [x])[1..] == s[1..] + [x];
      RemoveAllAppend(s[1..], x);
    }
  }

  // ---------------------------------------------------------------------------
  // Meal plan

  /** `addToMealPlan`: the recipe name goes at the end of today's list,
      which is created when missing; other days are untouched. */
  function PlanWith(plan: map<string, seq<string>>, name: string): (r: map<string, seq<string>>)
    ensures r.Keys == plan.Keys + {Today}
    ensures r[Today] == (if Today in plan then plan[Today] else []) + [name]
    ensures forall k | k in plan && k != Today :: r[k] == plan[k]
  {
    plan[Today := (if Today in plan then plan[Today] else []) + [name]]
  }

  // ---------------------------------------------------------------------------
  // Generating recipes

  function Ids(rs: seq<Recipe>): (ids: seq<string>)
    ensures |ids| == |rs|
    ensures forall i | 0 <= i < |rs| :: ids[i] == rs[i].id
  {
    seq(|rs|, i requires 0 <= i < |rs| => rs[i].id)
  }

  /** The position of the first catalog recipe whose id is not in `shown`,
      or |catalog| when every one is. */
  function FirstUnshown(catalog: seq<Recipe>, shown: set<string>): (k: nat)
    ensures k <= |catalog|
    ensures forall j | 0 <= j < k :: catalog[j].id in shown
    ensures k < |catalog| ==> catalog[k].id !in shown
  {
    if catalog == [] || catalog[0].id !in shown then 0
    else 1 + FirstUnshown(catalog[1..], shown)
  }

  /** The synchronous body of `handleGenerateRecipes`: append the first catalog
      recipe not yet shown, or leave the cards as they are when all are shown. */
  function RevealNext(shown: seq<Recipe>): (r: seq<Recipe>)
    ensures var k := FirstUnshown(AllRecipes, Elements(Ids(shown)));
      && (k < |AllRecipes| ==> r == shown + [AllRecipes[k]])
      && (k == |AllRecipes| ==> r == shown)
  {
    var k := FirstUnshown(AllRecipes, Elements(Ids(shown)));
    if k < |AllRecipes| then shown + [AllRecipes[k]] else shown
  }

  /** The cards on screen: distinct ids, all from the catalog. */
  predicate ShownValid(shown: seq<Recipe>) {
    && NoDuplicates(Ids(shown))
    && forall i | 0 <= i < |shown| :: shown[i] in AllRecipes
  }

  lemma SeedShownValid()
    ensures ShownValid(AllRecipes[..3])
  {
  }

  /** Generating keeps the cards valid, and so there are never more cards than catalog recipes. */
  lemma RevealNextKeepsShownValid(shown: seq<Recipe>)
    requires ShownValid(shown)
    ensures ShownValid(RevealNext(shown))
    ensures |RevealNext(shown)| <= |AllRecipes|
  {
    var r := RevealNext(shown);
    var ids := Ids(shown);
    var k := FirstUnshown(AllRecipes, Elements(ids));
    if k < |AllRecipes| {
      var rids := Ids(r);
      assert rids == ids + [AllRecipes[k].id];
      assert AllRecipes[k].id !in ids;
      forall i, j | 0 <= i < j < |rids| ensures rids[i] != rids[j] {
        if j == |rids| - 1 {
          assert rids[i] == ids[i];
        }
      }
    }
    ShownAtMostCatalog(r);
  }

  lemma ShownAtMostCatalog(shown: seq<Recipe>)
    requires ShownValid(shown)
    ensures |shown| <= |AllRecipes|
  {
    var ids := Ids(shown);
    forall x | x in ids ensures x in Ids(AllRecipes) {
      var i :| 0 <= i < |ids| && ids[i] == x;
      var j :| 0 <= j < |AllRecipes| && AllRecipes[j] == shown[i];
      assert Ids(AllRecipes)[j] == x;
    }
    DistinctDrawnFromIsShorter(ids, Ids(AllRecipes));
  }

  /** Once every catalog recipe is shown, generating changes nothing. */
  lemma RevealNextWhenExhausted(shown: seq<Recipe>)
    requires forall j | 0 <= j < |AllRecipes| :: AllRecipes[j].id in Ids(shown)
    ensures RevealNext(shown) == shown
  {
  }

  // ---------------------------------------------------------------------------
  // Filtering

  /** Some tag contains the (already lower-cased) term. */
  predicate SomeTagContains(tags: seq<string>, term: string) {
    exists i | 0 <= i < |tags| :: Contains(tags[i], term)
  }

  /** The search half of the filter: short terms match everything; longer ones
      must occur in the lower-cased name or in a tag. */
  predicate SearchMatch(r: Recipe, term: string) {
    Utf16Length(term) <= 2 || Contains(Lower(r.name), Lower(term)) || SomeTagContains(r.tags, Lower(term))
  }

  /** The meal-type half: "all", or one of the recipe's tags. */
  predicate MealTypeMatch(r: Recipe, mealType: string) {
    mealType == "all" || mealType in r.tags
  }

  predicate Matches(r: Recipe, term: string, mealType: string) {
    SearchMatch(r, term) && MealTypeMatch(r, mealType)
  }

  /** `filteredRecipes`: the recipes that pass both halves, in their order. */
  function FilterRecipes(rs: seq<Recipe>, term: string, mealType: string): (r: seq<Recipe>)
    ensures forall i | 0 <= i < |r| :: r[i] in rs && Matches(r[i], term, mealType)
    ensures forall i | 0 <= i < |rs| && Matches(rs[i], term, mealType) :: rs[i] in r
    ensures |r| <= |rs|
  {
    if rs == [] then []
    else if Matches(rs[0], term, mealType) then [rs[0]] + FilterRecipes(rs[1..], term, mealType)
    else FilterRecipes(rs[1..], term, mealType)
  }

  /** The filtered cards keep the order of the cards on screen. */
  lemma {:induction false} FilterIsSubsequence(rs: seq<Recipe>, term: string, mealType: string)
    ensures IsSubsequence(FilterRecipes(rs, term, mealType), rs)
  {
    if rs != [] {
      FilterIsSubsequence(rs[1..], term, mealType);
      var rest := FilterRecipes(rs[1..], term, mealType);
      if !Matches(rs[0], term, mealType) {
        SubsequenceSkipHead(rest, rs);
      }
    }
  }

  /** A term of at most two UTF-16 units with meal type "all" shows every card. */
  lemma {:induction false} FilterShortTermAll(rs: seq<Recipe>, term: string)
    requires Utf16Length(term) <= 2
    ensures FilterRecipes(rs, term, "all") == rs
  {
    if rs != [] {
      FilterShortTermAll(rs[1..], term);
    }
  }

  // ---------------------------------------------------------------------------
  // Pantry

  /** `addIngredient` stores the draft only when it is non-empty and its
      lower-case form is not already there. */
  predicate Stocks(pantry: seq<string>, draft: string) {
    draft != "" && Lower(draft) !in pantry
  }

  function PantryWith(pantry: seq<string>, draft: string): (r: seq<string>)
    ensures Stocks(pantry, draft) ==> r == pantry + [Lower(draft)]
    ensures !Stocks(pantry, draft) ==> r == pantry
  {
    if Stocks(pantry, draft) then pantry + [Lower(draft)] else pantry
  }

  /** The pantry never lists an item twice. */
  lemma PantryWithKeepsNoDuplicates(pantry: seq<string>, draft: string)
    requires NoDuplicates(pantry)
    ensures NoDuplicates(PantryWith(pantry, draft))
  {
  }

  /** Adding the same draft twice in a row stores it once. */
  lemma PantryWithIdempotent(pantry: seq<string>, draft: string)
    ensures PantryWith(PantryWith(pantry, draft), draft) == PantryWith(pantry, draft)
  {
  }

  // ---------------------------------------------------------------------------
  // The screen's state and its handlers

  datatype Planner = Planner(
    recipes: seq<Recipe>, searchTerm: string, selectedMealType: string,
    pantry: seq<string>, newIngredient: string, selectedRecipe: Option<Recipe>,
    favorites: seq<string>, mealPlan: map<string, seq<string>>, isGenerating: bool)

  class MealPlannerScreen {
    var recipes: seq<Recipe>
    var searchTerm: string
    var selectedMealType: string
    var availableIngredients: seq<string>
    var newIngredient: string
    var selectedRecipe: Option<Recipe>
    var favorites: seq<string>
    var mealPlan: map<string, seq<string>>
    var isGenerating: bool

    function State(): Planner
      reads this
    {
      Planner(recipes, searchTerm, selectedMealType, availableIngredients, newIngredient,
        selectedRecipe, favorites, mealPlan, isGenerating)
    }

    /** Distinct favourites, a duplicate-free pantry, and valid cards. */
    predicate Valid()
      reads this
    {
      NoDuplicates(favorites) && NoDuplicates(availableIngredients) && ShownValid(recipes)
    }

    /** The cards the grid shows for the current search and meal type. */
    function FilteredRecipes(): (r: seq<Recipe>)
      reads this
      ensures IsSubsequence(r, recipes)
      ensures forall i | 0 <= i < |r| :: Matches(r[i], searchTerm, selectedMealType)
      ensures forall i | 0 <= i < |recipes| && Matches(recipes[i], searchTerm, selectedMealType) :: recipes[i] in r
    {
      FilterIsSubsequence(recipes, searchTerm, selectedMealType);
      FilterRecipes(recipes, searchTerm, selectedMealType)
    }

    constructor ()
      ensures Valid()
      ensures State() == Planner(AllRecipes[..3], "", "all", SeedPantry, "", None, ["2"], map[], false)
    {
      recipes := AllRecipes[..3];
      searchTerm := "";
      selectedMealType := "all";
      availableIngredients := SeedPantry;
      newIngredient := "";
      selectedRecipe := None;
      favorites := ["2"];
      mealPlan := map[];
      isGenerating := false;
      SeedShownValid();
    }

    method ToggleFavorite(recipeId: string)
      requires Valid()
      modifies this`favorites
      ensures Valid()
      ensures State() == old(State()).(favorites := FavoritesToggled(old(favorites), recipeId))
    {
      FavoritesToggledKeepsNoDuplicates(favorites, recipeId);
      if recipeId in favorites {
        favorites := RemoveAll(favorites, recipeId);
      } else {
        favorites := favorites + [recipeId];
      }
    }

    method AddToMealPlan(recipeName: string)
      modifies this`mealPlan, this`selectedRecipe
      ensures State() == old(State()).(mealPlan := PlanWith(old(mealPlan), recipeName), selectedRecipe := None)
    {
      var todays := if Today in mealPlan then mealPlan[Today] else [];
      mealPlan := mealPlan[Today := todays + [recipeName]];
      selectedRecipe := None;
    }

    /** The click on "generate": the spinner starts; the work happens in CompleteGenerate. */
    method StartGenerate()
      modifies this`isGenerating
      ensures State() == old(State()).(isGenerating := true)
    {
      isGenerating := true;
    }

    /** The timer callback of `handleGenerateRecipes`. */
    method CompleteGenerate()
      requires Valid()
      modifies this`recipes, this`isGenerating
      ensures Valid()
      ensures State() == old(State()).(recipes := RevealNext(old(recipes)), isGenerating := false)
    {
      RevealNextKeepsShownValid(recipes);
      var currentIds := Elements(Ids(recipes));
      var k := FirstUnshown(AllRecipes, currentIds);
      if k < |AllRecipes| {
        recipes := recipes + [AllRecipes[k]];
      }
      isGenerating := false;
    }

    method SetSearchTerm(term: string)
      modifies this`searchTerm
      ensures State() == old(State()).(searchTerm := term)
    {
      searchTerm := term;
    }

    method SetMealType(mealType: string)
      modifies this`selectedMealType
      ensures State() == old(State()).(selectedMealType := mealType)
    {
      selectedMealType := mealType;
    }

    /** Opening a recipe card (Some) or closing the detail view (None). */
    method SelectRecipe(recipe: Option<Recipe>)
      modifies this`selectedRecipe
      ensures State() == old(State()).(selectedRecipe := recipe)
    {
      selectedRecipe := recipe;
    }

    method SetNewIngredient(text: string)
      modifies this`newIngredient
      ensures State() == old(State()).(newIngredient := text)
    {
      newIngredient := text;
    }

    method AddIngredient()
      requires Valid()
      modifies this`availableIngredients, this`newIngredient
      ensures Valid()
      ensures State() == old(State()).(
        pantry := PantryWith(old(availableIngredients), old(newIngredient)),
        newIngredient := if Stocks(old(availableIngredients), old(newIngredient)) then "" else old(newIngredient))
    {
      PantryWithKeepsNoDuplicates(availableIngredients, newIngredient);
      if newIngredient != "" && Lower(newIngredient) !in availableIngredients {
        availableIngredients := availableIngredients + [Lower(newIngredient)];
        newIngredient := "";
      }
    }
  }
}
