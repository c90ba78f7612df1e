/**
  install/recipe_installer_targeted.go: installing the recipes a user asked for by
  path or by name. The requested recipes are collected, each one's dependencies are
  fetched one level deep, and the list handed to installRecipes is, for every
  requested recipe in order, its dependencies followed by the recipe itself.

  As written: nothing is deduplicated, and the first dependency whose fetch fails
  aborts the whole install. The recipe fetcher, fetchRecipeAndReportAvailable,
  url.Parse and installRecipes are oracles (the discovery manifest they take is fixed
  inside them).
 */
module TargetedInstall {
  import opened Wrappers
  import opened Errors
  import opened Yaml
  import opened RecipeTypes
  import opened RecipeFiles

  /** The parts of RecipeInstaller a targeted install uses. */
  datatype RecipeInstaller = RecipeInstaller(
    recipePaths: seq<string>,
    recipeNames: seq<string>,
    skipInfra: bool,
    /** recipeFetcher.FetchRecipe for a name: an error, no recipe, or a recipe. */
    fetchRecipe: string -> Result<Option<Recipe>, Error>,
    /** fetchRecipeAndReportAvailable for a name. */
    fetchAndReport: string -> Result<Option<Recipe>, Error>,
    fileFetcher: RecipeFileFetcher,
    codec: Codec,
    parseUrl: string -> Result<Url, Error>)
  {
    predicate RecipePathsProvided() { |recipePaths| > 0 }
    predicate RecipeNamesProvided() { |recipeNames| > 0 }
  }

  /** The infrastructure agent is left out when the skip flag is set. */
  predicate Skipped(skipInfra: bool, name: string) {
    skipInfra && name == InfraAgentRecipeName
  }

  // ---------------------------------------------------------------------------
  // resolveRecipeDependencies

  /**
    The outcome of resolving one recipe's dependencies: the recipes found so far, the
    error that stopped the loop (if any), and the names passed to the fetch, in order.
   */
  datatype Resolution = Resolution(dependencies: seq<Recipe>, err: Option<Error>, requested: seq<string>)

  function ResolveDependencies(names: seq<string>, fetch: string -> Result<Option<Recipe>, Error>): Resolution
  {
    if names == [] then Resolution([], None, [])
    else
      var prior := ResolveDependencies(names[..|names| - 1], fetch);
      var name := names[|names| - 1];
      if prior.err.Some? then prior
      else match fetch(name)
        case Failure(e) => Resolution(prior.dependencies, Some(e), prior.requested + [name])
        case Success(None) => Resolution(prior.dependencies, None, prior.requested + [name])
        case Success(Some(r)) => Resolution(prior.dependencies + [r], None, prior.requested + [name])
  }

  /** The recipes a list of fetch results holds, in order, the empty results left out. */
  function Found(names: seq<string>, fetch: string -> Result<Option<Recipe>, Error>): seq<Recipe>
  {
    if names == [] then []
    else
      var init := Found(names[..|names| - 1], fetch);
      var res := fetch(names[|names| - 1]);
      if res.Success? && res.value.Some? then init + [res.value.value] else init
  }

  /** The names fetched are a prefix of the declared ones, all of them when nothing failed. */
  lemma {:induction false} ResolutionRequested(names: seq<string>, fetch: string -> Result<Option<Recipe>, Error>)
    ensures var res := ResolveDependencies(names, fetch);
      && |res.requested| <= |names| && res.requested == names[..|res.requested|]
      && (res.err.None? ==> res.requested == names)
      && (res.err.Some? ==> |res.requested| > 0)
  {
    if names != [] {
      var init := names[..|names| - 1];
      ResolutionRequested(init, fetch);
      var prior := ResolveDependencies(init, fetch);
      if prior.err.None? {
        assert prior.requested + [names[|names| - 1]] == names;
      } else {
        assert init[..|prior.requested|] == names[..|prior.requested|];
      }
    }
  }

  /** Every fetch but the last one made succeeded; with no error, every fetch succeeded. */
  lemma {:induction false} ResolutionFetchesSucceed(names: seq<string>, fetch: string -> Result<Option<Recipe>, Error>)
    ensures var res := ResolveDependencies(names, fetch);
      && (forall j | 0 <= j < |res.requested| - 1 :: fetch(res.requested[j]).Success?)
      && (res.err.None? ==> forall j | 0 <= j < |res.requested| :: fetch(res.requested[j]).Success?)
  {
    if names != [] {
      var init := names[..|names| - 1];
      ResolutionFetchesSucceed(init, fetch);
      var prior := ResolveDependencies(init, fetch);
      if prior.err.None? {
        var res := ResolveDependencies(names, fetch);
        assert res.requested == prior.requested + [names[|names| - 1]];
        assert forall j | 0 <= j < |prior.requested| :: res.requested[j] == prior.requested[j];
      }
    }
  }

  /**
    The recipes kept are those found, in order: all of them with no error, those
    fetched before the failing name otherwise, whose error is returned.
   */
  lemma {:induction false} ResolutionFound(names: seq<string>, fetch: string -> Result<Option<Recipe>, Error>)
    ensures var res := ResolveDependencies(names, fetch);
      && (res.err.None? ==> res.dependencies == Found(res.requested, fetch))
      && (res.err.Some? ==>
            |res.requested| > 0 &&
            fetch(res.requested[|res.requested| - 1]).Failure? &&
            res.err == Some(fetch(res.requested[|res.requested| - 1]).error) &&
            res.dependencies == Found(res.requested[..|res.requested| - 1], fetch))
  {
    if names != [] {
      var init := names[..|names| - 1];
      ResolutionFound(init, fetch);
      var prior := ResolveDependencies(init, fetch);
      if prior.err.None? {
        var res := ResolveDependencies(names, fetch);
        assert res.requested == prior.requested + [names[|names| - 1]];
        assert res.requested[..|res.requested| - 1] == prior.requested;
      }
    }
  }

  /**
    The names fetched are a prefix of the declared ones: all of them when nothing
    failed; otherwise up to and including the first failing one, whose error is
    returned. The dependencies are the recipes found before the failure, in
    declaration order, with empty results left out.
   */
  lemma {:induction false} ResolutionShape(names: seq<string>, fetch: string -> Result<Option<Recipe>, Error>)
    ensures var res := ResolveDependencies(names, fetch);
      && |res.requested| <= |names| && res.requested == names[..|res.requested|]
      && (forall j | 0 <= j < |res.requested| - 1 :: fetch(res.requested[j]).Success?)
      && (res.err.None? ==>
            res.requested == names && res.dependencies == Found(names, fetch) &&
            forall j | 0 <= j < |names| :: fetch(names[j]).Success?)
      && (res.err.Some? ==>
            |res.requested| > 0 &&
            fetch(res.requested[|res.requested| - 1]).Failure? &&
            res.err == Some(fetch(res.requested[|res.requested| - 1]).error) &&
            res.dependencies == Found(res.requested[..|res.requested| - 1], fetch))
  {
    ResolutionRequested(names, fetch);
    ResolutionFetchesSucceed(names, fetch);
    ResolutionFound(names, fetch);
  }

  /** Once a dependency fetch fails, the later names are never fetched and change nothing. */
  lemma {:induction false} ResolutionPrefixFailure(names: seq<string>, n: nat, fetch: string -> Result<Option<Recipe>, Error>)
    requires n <= |names|
    requires ResolveDependencies(names[..n], fetch).err.Some?
    ensures ResolveDependencies(names, fetch) == ResolveDependencies(names[..n], fetch)
  {
    if n < |names| {
      assert names[..|names| - 1][..n] == names[..n];
      ResolutionPrefixFailure(names[..|names| - 1], n, fetch);
    } else {
      assert names[..n] == names;
    }
  }

  /**
    resolveRecipeDependencies: no dependencies means no fetch at all; otherwise each
    name is fetched in order, empty results are skipped and the first error is
    returned together with the dependencies gathered before it. `requested` lists the
    names fetched.
   */
  method ResolveRecipeDependencies(i: RecipeInstaller, recipe: Recipe)
    returns (dependencies: seq<Recipe>, err: Option<Error>, requested: seq<string>)
    ensures Resolution(dependencies, err, requested) == ResolveDependencies(recipe.dependencies, i.fetchAndReport)
    ensures recipe.dependencies == [] ==> dependencies == [] && err.None? && requested == []
  {
    dependencies, err, requested := [], None, [];
    if |recipe.dependencies| == 0 {
      return;
    }
    var names := recipe.dependencies;
    for k := 0 to |names|
      invariant Resolution(dependencies, None, requested) == ResolveDependencies(names[..k], i.fetchAndReport)
    {
      assert names[..k + 1][..k] == names[..k];
      var recipeName := names[k];
      var fetched := i.fetchAndReport(recipeName);
      requested := requested + [recipeName];
      if fetched.Failure? {
        ResolutionPrefixFailure(names, k + 1, i.fetchAndReport);
        return dependencies, Some(fetched.error), requested;
      }
      if fetched.value.Some? {
        dependencies := dependencies + [fetched.value.value];
      }
    }
    assert names[..|names|] == names;
  }

  // ---------------------------------------------------------------------------
  // fetchWarn and recipeFromPath

  /** fetchWarn: a fetch error becomes "no recipe"; otherwise the fetch result as is. */
  function FetchWarn(i: RecipeInstaller, recipeName: string): (r: Option<Recipe>)
    ensures i.fetchRecipe(recipeName).Failure? ==> r.None?
    ensures i.fetchRecipe(recipeName).Success? ==> r == i.fetchRecipe(recipeName).value
  {
    match i.fetchRecipe(recipeName)
    case Failure(_) => None
    case Success(r) => r
  }

  /** A recipe path names a URL when it parses and has a scheme. */
  predicate IsRemote(i: RecipeInstaller, recipePath: string) {
    i.parseUrl(recipePath).Success? && i.parseUrl(recipePath).value.scheme != ""
  }

  /**
    recipeFromPath: a path with a URL scheme is fetched over HTTP, anything else is
    read from disk; a failure is wrapped with the path and says which of the two failed.
   */
  function RecipeFromPath(i: RecipeInstaller, recipePath: string): (r: Result<Recipe, Error>)
    ensures r.Failure? ==> (r.error.CouldNotFetch? || r.error.CouldNotLoad?) && r.error.path == recipePath
    ensures r.Failure? ==> (r.error.CouldNotFetch? <==> IsRemote(i, recipePath))
    ensures IsRemote(i, recipePath) ==>
      var fetched := FetchRecipeFile(i.fileFetcher, i.codec, i.parseUrl(recipePath).value);
      && (fetched.Success? ==> r == fetched)
      && (fetched.Failure? ==> r == Failure(CouldNotFetch(recipePath, fetched.error)))
    ensures !IsRemote(i, recipePath) ==>
      var loaded := LoadRecipeFile(i.fileFetcher, i.codec, recipePath);
      && (loaded.Success? ==> r == loaded)
      && (loaded.Failure? ==> r == Failure(CouldNotLoad(recipePath, loaded.error)))
  {
    if IsRemote(i, recipePath) then
      match FetchRecipeFile(i.fileFetcher, i.codec, i.parseUrl(recipePath).value)
      case Failure(e) => Failure(CouldNotFetch(recipePath, e))
      case Success(f) => Success(f)
    else
      match LoadRecipeFile(i.fileFetcher, i.codec, recipePath)
      case Failure(e) => Failure(CouldNotLoad(recipePath, e))
      case Success(f) => Success(f)
  }

  /** A remote path never touches the file reader and a local path never touches HTTP. */
  lemma RecipeFromPathUsesOneTransport(i: RecipeInstaller, recipePath: string,
                                       otherGet: string -> Result<Response, Error>,
                                       otherRead: string -> Result<string, Error>)
    ensures IsRemote(i, recipePath) ==>
      RecipeFromPath(i, recipePath) == RecipeFromPath(i.(fileFetcher := i.fileFetcher.(readFile := otherRead)), recipePath)
    ensures !IsRemote(i, recipePath) ==>
      RecipeFromPath(i, recipePath) == RecipeFromPath(i.(fileFetcher := i.fileFetcher.(httpGet := otherGet)), recipePath)
  {
  }

  // ---------------------------------------------------------------------------
  // collectRecipes

  /** Path mode: every path not skipped must yield a recipe; the first failure aborts with no recipes. */
  function FromPaths(i: RecipeInstaller, paths: seq<string>): (r: Result<seq<Recipe>, Error>)
  {
    if paths == [] then Success([])
    else
      var init :- FromPaths(i, paths[..|paths| - 1]);
      var n := paths[|paths| - 1];
      if Skipped(i.skipInfra, n) then Success(init)
      else
        var recipe :- RecipeFromPath(i, n);
        Success(init + [recipe])
  }

  /** Name mode: an entry is kept when the fetch gives a recipe of exactly that name; everything else is dropped silently. */
  function FromNames(i: RecipeInstaller, names: seq<string>): seq<Recipe>
  {
    if names == [] then []
    else
      var init := FromNames(i, names[..|names| - 1]);
      var n := names[|names| - 1];
      if Skipped(i.skipInfra, n) then init
      else match FetchWarn(i, n)
        case None => init
        case Some(r) => if r.name == n then init + [r] else init
  }

  /** collectRecipes: the paths when any are given, else the names when any are given, else nothing. */
  function Collected(i: RecipeInstaller): Result<seq<Recipe>, Error>
  {
    if i.RecipePathsProvided() then FromPaths(i, i.recipePaths)
    else if i.RecipeNamesProvided() then Success(FromNames(i, i.recipeNames))
    else Success([])
  }

  /**
    In path mode the result has one recipe per path that is not skipped, in order; a
    failure names a path that was not skipped.
   */
  lemma {:induction false} FromPathsShape(i: RecipeInstaller, paths: seq<string>)
    ensures FromPaths(i, paths).Success? ==>
      |FromPaths(i, paths).value| == |KeptPaths(i.skipInfra, paths)| &&
      forall k | 0 <= k < |KeptPaths(i.skipInfra, paths)| ::
        Success(FromPaths(i, paths).value[k]) == RecipeFromPath(i, KeptPaths(i.skipInfra, paths)[k])
    ensures FromPaths(i, paths).Failure? ==>
      exists p | p in paths :: !Skipped(i.skipInfra, p) && RecipeFromPath(i, p) == Failure(FromPaths(i, paths).error)
  {
    if paths != [] {
      var init := paths[..|paths| - 1];
      FromPathsShape(i, init);
      if FromPaths(i, init).Failure? {
        var p :| p in init && !Skipped(i.skipInfra, p) && RecipeFromPath(i, p) == Failure(FromPaths(i, init).error);
        assert p in paths;
      } else {
        assert paths[|paths| - 1] in paths;
      }
    }
  }

  /** The paths path mode loads: those not skipped, in order. */
  function KeptPaths(skipInfra: bool, paths: seq<string>): seq<string>
  {
    if paths == [] then []
    else
      var init := KeptPaths(skipInfra, paths[..|paths| - 1]);
      if Skipped(skipInfra, paths[|paths| - 1]) then init else init + [paths[|paths| - 1]]
  }

  /**
    In name mode a recipe is collected iff its name was requested, is not skipped, and
    the fetch returned exactly that recipe; never more recipes than names.
   */
  lemma {:induction false} FromNamesMembers(i: RecipeInstaller, names: seq<string>)
    ensures |FromNames(i, names)| <= |names|
    ensures forall r | r in FromNames(i, names) :: r.name in names && !Skipped(i.skipInfra, r.name) && FetchWarn(i, r.name) == Some(r)
    ensures forall n | n in names && !Skipped(i.skipInfra, n) && FetchWarn(i, n).Some? && FetchWarn(i, n).value.name == n ::
      FetchWarn(i, n).value in FromNames(i, names)
  {
    if names != [] {
      var init := names[..|names| - 1];
      FromNamesMembers(i, init);
      assert names == init + [names[|names| - 1]];
    }
  }

  /** One more path: skipped, the load's error, or the loaded recipe appended. */
  lemma FromPathsStep(i: RecipeInstaller, paths: seq<string>, k: nat)
    requires k < |paths| && FromPaths(i, paths[..k]).Success?
    ensures Skipped(i.skipInfra, paths[k]) ==> FromPaths(i, paths[..k + 1]) == FromPaths(i, paths[..k])
    ensures !Skipped(i.skipInfra, paths[k]) && RecipeFromPath(i, paths[k]).Failure? ==>
      FromPaths(i, paths[..k + 1]) == Failure(RecipeFromPath(i, paths[k]).error)
    ensures !Skipped(i.skipInfra, paths[k]) && RecipeFromPath(i, paths[k]).Success? ==>
      FromPaths(i, paths[..k + 1]) == Success(FromPaths(i, paths[..k]).value + [RecipeFromPath(i, paths[k]).value])
  {
    assert paths[..k + 1][..k] == paths[..k];
  }

  /** One more name: kept only when it is not skipped and the fetch gives a recipe of that name. */
  lemma FromNamesStep(i: RecipeInstaller, names: seq<string>, k: nat)
    requires k < |names|
    ensures var found := FetchWarn(i, names[k]);
      FromNames(i, names[..k + 1]) ==
        if !Skipped(i.skipInfra, names[k]) && found.Some? && found.value.name == names[k]
        then FromNames(i, names[..k]) + [found.value]
        else FromNames(i, names[..k])
  {
    assert names[..k + 1][..k] == names[..k];
  }

  /** The path loop of collectRecipes: the first failing path returns its error. */
  method CollectFromPaths(i: RecipeInstaller, paths: seq<string>) returns (r: Result<seq<Recipe>, Error>)
    ensures r == FromPaths(i, paths)
  {
    var recipes := [];
    for k := 0 to |paths|
      invariant FromPaths(i, paths[..k]) == Success(recipes)
    {
      FromPathsStep(i, paths, k);
      var n := paths[k];
      if Skipped(i.skipInfra, n) {
        continue;
      }
      var recipe := RecipeFromPath(i, n);
      if recipe.Failure? {
        FromPathsPrefixFailure(i, paths, k + 1);
        return Failure(recipe.error);
      }
      recipes := recipes + [recipe.value];
    }
    assert paths[..|paths|] == paths;
    return Success(recipes);
  }

  /** The name loop of collectRecipes: failed fetches and recipes of another name are dropped. */
  method CollectFromNames(i: RecipeInstaller, names: seq<string>) returns (recipes: seq<Recipe>)
    ensures recipes == FromNames(i, names)
  {
    recipes := [];
    for k := 0 to |names|
      invariant FromNames(i, names[..k]) == recipes
    {
      FromNamesStep(i, names, k);
      var n := names[k];
      if Skipped(i.skipInfra, n) {
        continue;
      }
      var found := FetchWarn(i, n);
      if found.Some? {
        if found.value.name == n {
          recipes := recipes + [found.value];
        }
      }
    }
    assert names[..|names|] == names;
  }

  /** collectRecipes as the source runs it: one loop over the paths or one over the names. */
  method CollectRecipes(i: RecipeInstaller) returns (r: Result<seq<Recipe>, Error>)
    ensures r == Collected(i)
  {
    if i.RecipePathsProvided() {
      r := CollectFromPaths(i, i.recipePaths);
    } else if i.RecipeNamesProvided() {
      var recipes := CollectFromNames(i, i.recipeNames);
      r := Success(recipes);
    } else {
      r := Success([]);
    }
  }

  lemma {:induction false} FromPathsPrefixFailure(i: RecipeInstaller, paths: seq<string>, n: nat)
    requires n <= |paths|
    requires FromPaths(i, paths[..n]).Failure?
    ensures FromPaths(i, paths) == FromPaths(i, paths[..n])
  {
    if n < |paths| {
      assert paths[..|paths| - 1][..n] == paths[..n];
      FromPathsPrefixFailure(i, paths[..|paths| - 1], n);
    } else {
      assert paths[..n] == paths;
    }
  }

  // ---------------------------------------------------------------------------
  // targetedInstall

  /** The dependencies kept in the install list: all of them, less the infrastructure agent when skipped. */
  function WithoutInfra(dependencies: seq<Recipe>, skipInfra: bool): seq<Recipe>
  {
    if dependencies == [] then []
    else
      var init := WithoutInfra(dependencies[..|dependencies| - 1], skipInfra);
      var d := dependencies[|dependencies| - 1];
      if Skipped(skipInfra, d.name) then init else init + [d]
  }

  /** The list targetedInstall hands to installRecipes, or the first dependency error. */
  function Assembled(i: RecipeInstaller, provided: seq<Recipe>): Result<seq<Recipe>, Error>
  {
    if provided == [] then Success([])
    else
      var init :- Assembled(i, provided[..|provided| - 1]);
      var r := provided[|provided| - 1];
      var res := ResolveDependencies(r.dependencies, i.fetchAndReport);
      if res.err.Some? then Failure(res.err.value)
      else Success(init + WithoutInfra(res.dependencies, i.skipInfra) + [r])
  }

  /** Every requested recipe contributes its kept dependencies plus itself. */
  function PlannedLength(i: RecipeInstaller, provided: seq<Recipe>): nat
  {
    if provided == [] then 0
    else
      var r := provided[|provided| - 1];
      PlannedLength(i, provided[..|provided| - 1]) +
        |WithoutInfra(ResolveDependencies(r.dependencies, i.fetchAndReport).dependencies, i.skipInfra)| + 1
  }

  /** No deduplication: the install list is exactly as long as the plan, and ends with the last requested recipe. */
  lemma {:induction false} AssembledLength(i: RecipeInstaller, provided: seq<Recipe>)
    requires Assembled(i, provided).Success?
    ensures |Assembled(i, provided).value| == PlannedLength(i, provided)
    ensures provided != [] ==> Assembled(i, provided).value[|Assembled(i, provided).value| - 1] == provided[|provided| - 1]
  {
    if provided != [] {
      AssembledLength(i, provided[..|provided| - 1]);
    }
  }

  /** With the skip flag set, no kept dependency is the infrastructure agent, and nothing else is removed. */
  lemma {:induction false} WithoutInfraMembers(dependencies: seq<Recipe>, skipInfra: bool)
    ensures forall d | d in WithoutInfra(dependencies, skipInfra) :: d in dependencies && !Skipped(skipInfra, d.name)
    ensures forall d | d in dependencies && !Skipped(skipInfra, d.name) :: d in WithoutInfra(dependencies, skipInfra)
  {
    if dependencies != [] {
      var init := dependencies[..|dependencies| - 1];
      WithoutInfraMembers(init, skipInfra);
      assert dependencies == init + [dependencies[|dependencies| - 1]];
    }
  }

  /** If no requested recipe is the infrastructure agent and the skip flag is set, none is installed. */
  lemma {:induction false} AssembledAvoidsInfra(i: RecipeInstaller, provided: seq<Recipe>)
    requires i.skipInfra
    requires forall p | p in provided :: p.name != InfraAgentRecipeName
    requires Assembled(i, provided).Success?
    ensures forall r | r in Assembled(i, provided).value :: r.name != InfraAgentRecipeName
  {
    if provided != [] {
      var init := provided[..|provided| - 1];
      assert forall p | p in init :: p in provided;
      AssembledAvoidsInfra(i, init);
      var r := provided[|provided| - 1];
      WithoutInfraMembers(ResolveDependencies(r.dependencies, i.fetchAndReport).dependencies, i.skipInfra);
    }
  }

  /** Requested by name with the skip flag set, the infrastructure agent never reaches installRecipes. */
  lemma NameModeSkipsInfra(i: RecipeInstaller)
    requires i.skipInfra && !i.RecipePathsProvided()
    requires Collected(i).Success? && Assembled(i, Collected(i).value).Success?
    ensures forall r | r in Assembled(i, Collected(i).value).value :: r.name != InfraAgentRecipeName
  {
    FromNamesMembers(i, i.recipeNames);
    AssembledAvoidsInfra(i, Collected(i).value);
  }

  /**
    In path mode the skip flag compares the path, not the recipe: a recipe named for
    the infrastructure agent that was loaded from some other path is installed.
   */
  lemma PathLoadedInfraIsKept(i: RecipeInstaller, p: string, r: Recipe)
    requires i.skipInfra && p in i.recipePaths && p != InfraAgentRecipeName
    requires RecipeFromPath(i, p) == Success(r) && r.name == InfraAgentRecipeName
    requires Collected(i).Success? && Assembled(i, Collected(i).value).Success?
    ensures r in Collected(i).value
    ensures r in Assembled(i, Collected(i).value).value
  {
    FromPathsShape(i, i.recipePaths);
    KeptPathsMembers(i.skipInfra, i.recipePaths, p);
    var kept := KeptPaths(i.skipInfra, i.recipePaths);
    var k :| 0 <= k < |kept| && kept[k] == p;
    assert Collected(i).value[k] == r;
    AssembledKeepsProvided(i, Collected(i).value, r);
  }

  /** A path is kept iff it was given and the skip flag does not drop it. */
  lemma {:induction false} KeptPathsMembers(skipInfra: bool, paths: seq<string>, p: string)
    ensures p in KeptPaths(skipInfra, paths) <==> p in paths && !Skipped(skipInfra, p)
  {
    if paths != [] {
      var init := paths[..|paths| - 1];
      KeptPathsMembers(skipInfra, init, p);
      assert paths == init + [paths[|paths| - 1]];
    }
  }

  /** Every requested recipe is on the install list. */
  lemma {:induction false} AssembledKeepsProvided(i: RecipeInstaller, provided: seq<Recipe>, x: Recipe)
    requires Assembled(i, provided).Success? && x in provided
    ensures x in Assembled(i, provided).value
  {
    var init := provided[..|provided| - 1];
    assert Assembled(i, init).Success?;
    if x != provided[|provided| - 1] {
      assert provided == init + [provided[|provided| - 1]];
      AssembledKeepsProvided(i, init, x);
    }
  }

  lemma NoDependenciesAddNothing(i: RecipeInstaller, r: Recipe)
    requires r.dependencies == []
    ensures ResolveDependencies(r.dependencies, i.fetchAndReport) == Resolution([], None, [])
    ensures WithoutInfra(ResolveDependencies(r.dependencies, i.fetchAndReport).dependencies, i.skipInfra) == []
  {
  }

  /** A recipe requested twice is installed twice. */
  lemma NoDeduplication(i: RecipeInstaller, r: Recipe)
    requires r.dependencies == []
    ensures Assembled(i, [r, r]) == Success([r, r])
  {
    var two := [r, r];
    NoDependenciesAddNothing(i, r);
    assert two[..0] == [];
    assert Assembled(i, two[..0]) == Success([]);
    AssembledStep(i, two, 0);
    assert [] + [] + [r] == [r];
    AssembledStep(i, two, 1);
    assert [r] + [] + [r] == two;
    assert two[..2] == two;
  }

  /** A dependency whose fetch fails after one that succeeded aborts the install, with the error. */
  lemma DependencyErrorAborts(i: RecipeInstaller, r: Recipe, b: Recipe, e: Error)
    requires |r.dependencies| == 2
    requires i.fetchAndReport(r.dependencies[0]) == Success(Some(b))
    requires i.fetchAndReport(r.dependencies[1]) == Failure(e)
    ensures ResolveDependencies(r.dependencies, i.fetchAndReport) == Resolution([b], Some(e), r.dependencies)
    ensures Assembled(i, [r]) == Failure(e)
  {
    var names := r.dependencies;
    var fetch := i.fetchAndReport;
    assert names[..1][..0] == [];
    assert ResolveDependencies(names[..1][..0], fetch) == Resolution([], None, []);
    assert ResolveDependencies(names[..1], fetch) == Resolution([b], None, [names[0]]);
    assert names[..|names| - 1] == names[..1];
    assert [names[0]] + [names[1]] == names;
    assert [r][..0] == [];
    assert Assembled(i, []) == Success([]);
  }

  lemma {:induction false} AssembledPrefixFailure(i: RecipeInstaller, provided: seq<Recipe>, n: nat)
    requires n <= |provided|
    requires Assembled(i, provided[..n]).Failure?
    ensures Assembled(i, provided) == Assembled(i, provided[..n])
  {
    if n < |provided| {
      assert provided[..|provided| - 1][..n] == provided[..n];
      AssembledPrefixFailure(i, provided[..|provided| - 1], n);
    } else {
      assert provided[..n] == provided;
    }
  }

  /**
    targetedInstall up to the installRecipes call: a collect error or a dependency
    error is returned before anything is installed; otherwise `installed` is the list
    handed to installRecipes and `err` its result.
   */
  /** One more provided recipe: its dependency error, or its dependencies and itself appended. */
  lemma AssembledStep(i: RecipeInstaller, provided: seq<Recipe>, k: nat)
    requires k < |provided| && Assembled(i, provided[..k]).Success?
    ensures var res := ResolveDependencies(provided[k].dependencies, i.fetchAndReport);
      && (res.err.Some? ==> Assembled(i, provided[..k + 1]) == Failure(res.err.value))
      && (res.err.None? ==>
            Assembled(i, provided[..k + 1]) == Success(Assembled(i, provided[..k]).value + WithoutInfra(res.dependencies, i.skipInfra) + [provided[k]]))
  {
    assert provided[..k + 1][..k] == provided[..k];
  }

  /** The inner loop of targetedInstall: appends the dependencies, the infra agent left out when skipped. */
  method AppendDependencies(recipes: seq<Recipe>, dependencies: seq<Recipe>, skipInfra: bool)
    returns (out: seq<Recipe>)
    ensures out == recipes + WithoutInfra(dependencies, skipInfra)
  {
    out := recipes;
    for m := 0 to |dependencies|
      invariant out == recipes + WithoutInfra(dependencies[..m], skipInfra)
    {
      assert dependencies[..m + 1][..m] == dependencies[..m];
      var d := dependencies[m];
      if skipInfra && InfraAgentRecipeName == d.name {
        continue;
      } else {
        out := out + [d];
      }
    }
    assert dependencies[..|dependencies|] == dependencies;
  }

  method TargetedInstall(i: RecipeInstaller, installRecipes: seq<Recipe> -> Option<Error>)
    returns (installed: Option<seq<Recipe>>, err: Option<Error>)
    ensures Collected(i).Failure? ==> installed.None? && err == Some(Collected(i).error)
    ensures Collected(i).Success? && Assembled(i, Collected(i).value).Failure? ==>
      installed.None? && err == Some(Assembled(i, Collected(i).value).error)
    ensures Collected(i).Success? && Assembled(i, Collected(i).value).Success? ==>
      installed == Some(Assembled(i, Collected(i).value).value) &&
      err == installRecipes(Assembled(i, Collected(i).value).value)
  {
    var collected := CollectRecipes(i);
    if collected.Failure? {
      return None, Some(collected.error);
    }
    var provided := collected.value;
    var recipes := [];
    for k := 0 to |provided|
      invariant Assembled(i, provided[..k]) == Success(recipes)
    {
      var r := provided[k];
      var dependencies, depErr, _ := ResolveRecipeDependencies(i, r);
      if depErr.Some? {
        AssembledStep(i, provided, k);
        AssembledPrefixFailure(i, provided, k + 1);
        return None, depErr;
      }
      AssembledStep(i, provided, k);
      recipes := AppendDependencies(recipes, dependencies, i.skipInfra);
      recipes := recipes + [r];
    }
    assert provided[..|provided|] == provided;
    installed := Some(recipes);
    err := installRecipes(recipes);
  }
}
