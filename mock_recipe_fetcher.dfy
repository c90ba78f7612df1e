/**
  recipes/mock_recipe_fetcher.go: the canned recipe fetcher the installer's tests
  configure. Each method counts its calls; FetchRecipe also counts calls per
  requested name and walks through a list of canned recipes.
 */
module MockRecipes {
  import opened Wrappers
  import opened Errors
  import opened RecipeTypes

  /** How many times `name` occurs in `names`. */
  function Occurrences(names: seq<string>, name: string): (n: nat)
    ensures n <= |names|
    ensures name !in names ==> n == 0
  {
    if names == [] then 0
    else Occurrences(names[..|names| - 1], name) + (if names[|names| - 1] == name then 1 else 0)
  }

  lemma OccurrencesAppend(names: seq<string>, last: string, name: string)
    ensures Occurrences(names + [last], name) == Occurrences(names, name) + (if last == name then 1 else 0)
  {
    assert (names + [last])[..|names|] == names;
  }

  /**
    utils.MinOf(callCount, len(vals)) - 1: which canned recipe a call gets. The first
    calls get the recipes in order; from call number len(vals) on it is always the last.
   */
  function ValIndex(callCount: int, count: int): (i: int)
    requires callCount >= 1 && count >= 1
    ensures 0 <= i < count
    ensures callCount <= count ==> i == callCount - 1
    ensures callCount >= count ==> i == count - 1
  {
    (if callCount < count then callCount else count) - 1
  }

  class MockRecipeFetcher {
    var fetchRecipeErr: Option<Error>
    var fetchRecipesErr: Option<Error>
    var fetchRecommendationsErr: Option<Error>
    var fetchRecipeCallCount: int
    var fetchRecipesCallCount: int
    var fetchRecommendationsCallCount: int
    var fetchRecipeVals: seq<Recipe>
    var fetchRecipeVal: Option<Recipe>
    var fetchRecipesVal: seq<Recipe>
    var fetchRecommendationsVal: seq<Recipe>
    var fetchRecipeNameCount: map<string, int>

    /** The names FetchRecipe was called with, in call order. */
    ghost var requested: seq<string>

    /** The call counter and the per-name counts agree with the calls made. */
    ghost predicate Valid()
      reads this
    {
      && fetchRecipeCallCount == |requested|
      && (forall name | name in fetchRecipeNameCount :: fetchRecipeNameCount[name] == Occurrences(requested, name))
      && (forall name | name in requested :: name in fetchRecipeNameCount)
    }

    /** NewMockRecipeFetcher: no calls yet, no canned values, no errors. */
    constructor ()
      ensures Valid()
      ensures fetchRecipeCallCount == 0 && fetchRecipesCallCount == 0 && fetchRecommendationsCallCount == 0
      ensures fetchRecipeVals == [] && fetchRecipeVal == None && fetchRecipesVal == [] && fetchRecommendationsVal == []
      ensures fetchRecipeNameCount == map[]
      ensures fetchRecipeErr == None && fetchRecipesErr == None && fetchRecommendationsErr == None
    {
      fetchRecipeErr, fetchRecipesErr, fetchRecommendationsErr := None, None, None;
      fetchRecipeCallCount, fetchRecipesCallCount, fetchRecommendationsCallCount := 0, 0, 0;
      fetchRecipeVals, fetchRecipeVal := [], None;
      fetchRecipesVal, fetchRecommendationsVal := [], [];
      fetchRecipeNameCount := map[];
      requested := [];
    }

    /** How many times FetchRecipe has been asked for `name` (0 for a name never asked for). */
    function NameCount(name: string): int
      reads this
    {
      if name in fetchRecipeNameCount then fetchRecipeNameCount[name] else 0
    }

    /**
      FetchRecipe: counts the call and the name; with canned recipes it returns the
      one ValIndex picks together with FetchRecipesErr (not FetchRecipeErr), otherwise
      FetchRecipeVal with FetchRecipeErr.
     */
    method FetchRecipe(friendlyName: string) returns (recipe: Option<Recipe>, err: Option<Error>)
      requires Valid()
      modifies this
      ensures Valid()
      ensures requested == old(requested) + [friendlyName]
      ensures fetchRecipeCallCount == old(fetchRecipeCallCount) + 1
      ensures fetchRecipeNameCount == old(fetchRecipeNameCount)[friendlyName := old(NameCount(friendlyName)) + 1]
      ensures NameCount(friendlyName) == Occurrences(requested, friendlyName)
      ensures forall name | name != friendlyName :: NameCount(name) == old(NameCount(name))
      ensures fetchRecipesCallCount == old(fetchRecipesCallCount)
      ensures fetchRecommendationsCallCount == old(fetchRecommendationsCallCount)
      ensures fetchRecipeVals == old(fetchRecipeVals) && fetchRecipeVal == old(fetchRecipeVal)
      ensures fetchRecipesVal == old(fetchRecipesVal) && fetchRecommendationsVal == old(fetchRecommendationsVal)
      ensures fetchRecipeErr == old(fetchRecipeErr) && fetchRecipesErr == old(fetchRecipesErr)
      ensures fetchRecommendationsErr == old(fetchRecommendationsErr)
      ensures |fetchRecipeVals| > 0 ==>
        recipe == Some(fetchRecipeVals[ValIndex(fetchRecipeCallCount, |fetchRecipeVals|)]) && err == fetchRecipesErr
      ensures |fetchRecipeVals| == 0 ==> recipe == fetchRecipeVal && err == fetchRecipeErr
    {
      fetchRecipeCallCount := fetchRecipeCallCount + 1;
      var count := NameCount(friendlyName);
      fetchRecipeNameCount := fetchRecipeNameCount[friendlyName := count + 1];
      forall name ensures Occurrences(requested + [friendlyName], name) == Occurrences(requested, name) + (if friendlyName == name then 1 else 0) {
        OccurrencesAppend(requested, friendlyName, name);
      }
      requested := requested + [friendlyName];

      if |fetchRecipeVals| > 0 {
        var i := ValIndex(fetchRecipeCallCount, |fetchRecipeVals|);
        return Some(fetchRecipeVals[i]), fetchRecipesErr;
      }
      return fetchRecipeVal, fetchRecipeErr;
    }

    /** FetchRecipes: counts only its own calls and returns its canned list and error. */
    method FetchRecipes() returns (recipes: seq<Recipe>, err: Option<Error>)
      modifies this
      ensures recipes == fetchRecipesVal && err == fetchRecipesErr
      ensures fetchRecipesCallCount == old(fetchRecipesCallCount) + 1
      ensures fetchRecipeCallCount == old(fetchRecipeCallCount)
      ensures fetchRecommendationsCallCount == old(fetchRecommendationsCallCount)
      ensures fetchRecipeNameCount == old(fetchRecipeNameCount) && requested == old(requested)
      ensures fetchRecipeVals == old(fetchRecipeVals) && fetchRecipeVal == old(fetchRecipeVal)
      ensures fetchRecipesVal == old(fetchRecipesVal) && fetchRecommendationsVal == old(fetchRecommendationsVal)
      ensures fetchRecipeErr == old(fetchRecipeErr) && fetchRecipesErr == old(fetchRecipesErr)
      ensures fetchRecommendationsErr == old(fetchRecommendationsErr)
    {
      fetchRecipesCallCount := fetchRecipesCallCount + 1;
      return fetchRecipesVal, fetchRecipesErr;
    }

    /** FetchRecommendations: counts only its own calls and returns its canned list and error. */
    method FetchRecommendations() returns (recipes: seq<Recipe>, err: Option<Error>)
      modifies this
      ensures recipes == fetchRecommendationsVal && err == fetchRecommendationsErr
      ensures fetchRecommendationsCallCount == old(fetchRecommendationsCallCount) + 1
      ensures fetchRecipeCallCount == old(fetchRecipeCallCount)
      ensures fetchRecipesCallCount == old(fetchRecipesCallCount)
      ensures fetchRecipeNameCount == old(fetchRecipeNameCount) && requested == old(requested)
      ensures fetchRecipeVals == old(fetchRecipeVals) && fetchRecipeVal == old(fetchRecipeVal)
      ensures fetchRecipesVal == old(fetchRecipesVal) && fetchRecommendationsVal == old(fetchRecommendationsVal)
      ensures fetchRecipeErr == old(fetchRecipeErr) && fetchRecipesErr == old(fetchRecipesErr)
      ensures fetchRecommendationsErr == old(fetchRecommendationsErr)
    {
      fetchRecommendationsCallCount := fetchRecommendationsCallCount + 1;
      return fetchRecommendationsVal, fetchRecommendationsErr;
    }
  }

  /**
    A fetcher configured with canned recipes [a, b] answers a, then b, then b again:
    the index saturates at the last recipe, and the error is the FetchRecipes one.
   */
  method CannedRecipesSaturate(a: Recipe, b: Recipe, e: Option<Error>)
    returns (first: Option<Recipe>, second: Option<Recipe>, third: Option<Recipe>, err: Option<Error>)
    ensures first == Some(a) && second == Some(b) && third == Some(b) && err == e
  {
    var f := new MockRecipeFetcher();
    f.fetchRecipeVals := [a, b];
    f.fetchRecipesErr := e;
    f.fetchRecipeErr := Some(External("unused"));
    first, err := f.FetchRecipe("x");
    second, err := f.FetchRecipe("y");
    third, err := f.FetchRecipe("x");
    assert f.NameCount("x") == 2;
  }
}
