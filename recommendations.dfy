/**
  install/recipes.go: the recipes the recommendation service returns, and their
  conversion into recipe files. Decoding a recipe file's YAML, building the query
  criteria from the discovery manifest and the NerdGraph query are oracles.
 */
module Recommendations {
  import opened Wrappers
  import opened Errors
  import opened Yaml

  datatype PatternMatcher = PatternMatcher(pattern: seq<string>)

  datatype LoggingMatcher = LoggingMatcher(pattern: seq<string>, files: seq<string>)

  datatype MeltMatch = MeltMatch(events: PatternMatcher, metrics: PatternMatcher, logging: LoggingMatcher)

  /** recipeFile: a recipe document decoded into a plain struct. */
  datatype RecipeFile = RecipeFile(
    name: string, description: string, repository: string, platform: string,
    arch: string, targetEnvironment: string, processMatch: seq<string>,
    meltMatch: MeltMatch, install: StrMap)

  /** The zero value of recipeFile. */
  const ZeroRecipeFile := RecipeFile(
    "", "", "", "", "", "", [],
    MeltMatch(PatternMatcher([]), PatternMatcher([]), LoggingMatcher([], [])), map[])

  datatype RecipeVariant = RecipeVariant(os: seq<string>, arch: seq<string>, targetEnvironment: seq<string>)

  datatype RecipeMetadata = RecipeMetadata(
    name: string, description: string, repository: string, variant: RecipeVariant, keywords: seq<string>)

  /** One result of the recommendations query: metadata and the raw recipe document. */
  datatype ServiceRecipe = ServiceRecipe(id: string, metadata: RecipeMetadata, file: string)

  /** recipe.ToRecipeFile: yaml.Unmarshal of the raw document into a recipeFile (`decode`). */
  function ToRecipeFile(decode: string -> Result<RecipeFile, Error>, s: ServiceRecipe): (r: Result<RecipeFile, Error>)
    ensures decode(s.file).Failure? ==> r == Failure(decode(s.file).error)
    ensures decode(s.file).Success? ==> r == Success(decode(s.file).value)
  {
    var recipe :- decode(s.file);
    Success(recipe)
  }

  /** Entry i of the converted batch: result i's recipe file, or the zero value when it does not parse. */
  function FileOrZero(decode: string -> Result<RecipeFile, Error>, s: ServiceRecipe): RecipeFile
  {
    match ToRecipeFile(decode, s)
    case Success(f) => f
    case Failure(_) => ZeroRecipeFile
  }

  /**
    recommendationsResult.ToRecipeFiles: a slice as long as the results, filled by
    index; a result that does not parse leaves its slot zero-valued and is neither
    dropped nor allowed to shift the later ones.
   */
  method ToRecipeFiles(decode: string -> Result<RecipeFile, Error>, results: seq<ServiceRecipe>) returns (files: seq<RecipeFile>)
    ensures |files| == |results|
    ensures forall i | 0 <= i < |results| :: decode(results[i].file).Success? ==> files[i] == decode(results[i].file).value
    ensures forall i | 0 <= i < |results| :: decode(results[i].file).Failure? ==> files[i] == ZeroRecipeFile
  {
    var r := new RecipeFile[|results|](_ => ZeroRecipeFile);
    for i := 0 to |results|
      invariant forall j | 0 <= j < i :: r[j] == FileOrZero(decode, results[j])
      invariant forall j | i <= j < |results| :: r[j] == ZeroRecipeFile
    {
      var recipe := ToRecipeFile(decode, results[i]);
      if recipe.Failure? {
        continue;
      }
      r[i] := recipe.value;
    }
    return r[..];
  }

  /**
    serviceRecipeFetcher.fetch, its error paths: a failure to build the query criteria
    is returned without querying; a query failure is returned as is; otherwise the
    recommendations are converted. `queried` tells whether the query was sent.
   */
  method Fetch<C>(criteria: Result<C, Error>, query: C -> Result<seq<ServiceRecipe>, Error>,
                  decode: string -> Result<RecipeFile, Error>) returns (r: Result<seq<RecipeFile>, Error>, queried: bool)
    ensures criteria.Failure? ==> r == Failure(criteria.error) && !queried
    ensures criteria.Success? ==> queried
    ensures criteria.Success? && query(criteria.value).Failure? ==> r == Failure(query(criteria.value).error)
    ensures criteria.Success? && query(criteria.value).Success? ==>
      var results := query(criteria.value).value;
      && r.Success? && |r.value| == |results|
      && forall i | 0 <= i < |results| :: r.value[i] == FileOrZero(decode, results[i])
  {
    if criteria.Failure? {
      return Failure(criteria.error), false;
    }
    var response := query(criteria.value);
    if response.Failure? {
      return Failure(response.error), true;
    }
    var files := ToRecipeFiles(decode, response.value);
    return Success(files), true;
  }
}
