# Recipe resolution of the New Relic CLI installer, in Dafny

This project models the part of the New Relic CLI `install` command that turns
recipe sources into the list of recipes to run, and then runs them:

- **Normaliser** (`recipe.dfy`, module `RecipeTypes`): the custom `UnmarshalYAML` of
  `OpenInstallationRecipe`. It turns the untyped YAML tree of a recipe document into
  a recipe, field by field, with its `expand*` and `to*ByFieldName` helpers. It also
  holds the capability queries (`HasKeyword`, `HasTargetType`, ...) and the
  package-level `RecipeVariables` map. Every unchecked Go type assertion that fails
  is a runtime panic; the model returns the error `TypeAssertionPanic` there.
- **Recipe files** (`recipe_file.dfy`, module `RecipeFiles`): fetching one recipe
  over HTTP or reading it from disk, then decoding it.
- **Local fetcher** (`local_recipe_fetcher.dfy`, module `LocalRecipes`): walks a
  directory, keeps `.yml`/`.yaml` files (with `filepath.Ext` modelled exactly), and
  decodes each one, skipping files that cannot be read or decoded.
- **Mock fetcher** (`mock_recipe_fetcher.dfy`, module `MockRecipes`): the canned
  fetcher the installer's tests configure, with its call and per-name counters.
- **Recommendations** (`recommendations.dfy`, module `Recommendations`): the
  conversion of the recommendation service's results into recipe files.
- **Targeted install** (`targeted_install.dfy`, module `TargetedInstall`):
  collecting the requested recipes by path or by name, resolving each one's
  dependencies one level deep, and assembling the list handed to `installRecipes`.
- **Batch installer** (`install.dfy`, module `Installer`): `install` and
  `executeRecipeSteps`, covering the licence-key check and how input variables are
  resolved from the environment or a prompt.

`wrappers.dfy` (Option/Result), `errors.dfy` (the error values) and `yaml.dfy` (the
YAML tree and the parse/render oracles) are shared by all modules.

Collaborators the model cannot see are oracles: function-typed fields or parameters.
These are the YAML parser and renderer, HTTP GET, file reading, the directory walk,
`url.Parse`, the recipe fetchers, the manifest's `ConstrainRecipes`, the NerdGraph
query, the credentials store, `os.Getenv`, the prompt and the Taskfile executor.

Code that works in place is imperative Dafny. This covers the receiver of
`UnmarshalYAML` (class `MutableRecipe`), the mock fetcher (class
`MockRecipeFetcher`), the recipe variable map (class `RecipeVariables`), and every
loop of the source, each written as a method with a `while`/`for` loop. Every such
method is proved against a specification function, and the properties are proved as
lemmas about those functions.

Behaviours of the code that are easy to miss, each proved in the model:

- Nothing is deduplicated. A recipe requested twice, or requested and also pulled in
  as a dependency, is installed twice (`TargetedInstall.NoDeduplication`).
- The first dependency whose fetch fails aborts the whole targeted install, with that
  error. The dependency is not skipped (`TargetedInstall.DependencyErrorAborts`).
- In path mode the skip-infrastructure flag compares the *path* with the
  infrastructure agent's recipe name. An infrastructure recipe loaded from an
  ordinary path is therefore kept (`TargetedInstall.PathLoadedInfraIsKept`).
- A recipe document that is null or empty decodes without error to the zero recipe.
  That recipe has no name and no install payload (`RecipeTypes.NullDocumentDecodesToZero`).
- A missing `name` is not an error: the recipe's name is then "" (`RecipeTypes.Normalize`).
- A malformed element of a list field is not skipped. It panics, which aborts the
  whole decoding.
- In a directory load, a file whose decoding panics is not skipped. The program would
  crash, so the model returns the panic (`LocalRecipes.LoadAll`).
- A failed input-variable prompt or a missing licence key stops the whole batch.
  Later recipes do not run (`Installer.Install`).

## Model

| member | source | states |
|---|---|---|
| RecipeTypes.ToStringByFieldName | internal/install/types/recipe.go:270-276 | an absent key reads as "", a string value as itself, any other value panics; both directions |
| RecipeTypes.ToBoolByFieldName | internal/install/types/recipe.go:262-268 | an absent key reads as false, a bool as itself, any other value panics |
| RecipeTypes.StringKeyedEntriesKeys | internal/install/types/recipe.go:284-288 | re-keying a mapping succeeds iff every key is a string, and the result has exactly those keys |
| RecipeTypes.ToStringKeyed | internal/install/types/recipe.go:284-288 | the re-keying loop computes the re-keyed map, or the panic of the first non-string key |
| RecipeTypes.StringKeyedPrefixFailure | internal/install/types/recipe.go:286-288 | once one key is not a string, the remaining entries cannot undo the panic |
| RecipeTypes.StringsOf | internal/install/types/recipe.go:298-306 | the conversion succeeds iff every element is a string, and then keeps the length and each element |
| RecipeTypes.InterfaceSliceToStringSlice | internal/install/types/recipe.go:298-306 | the loop returns every element as a string, in order, or panics iff some element is not a string |
| RecipeTypes.StringListField | internal/install/types/recipe.go:26 | an absent or non-list `dependencies`/`keywords`/`processMatch` value panics; a present list gives exactly its elements converted to strings, or a panic when one is not a string |
| RecipeTypes.ReadStringList | internal/install/types/recipe.go:26 | the read of a list-of-strings field, proved equal to StringListField |
| RecipeTypes.BuildAllIndexwise | internal/install/types/recipe.go:109-133 | building all elements succeeds iff each one builds, and output i is built from input i alone |
| RecipeTypes.BuildAllPrefixFailure | internal/install/types/recipe.go:109-133 | the first element that fails decides the failure; later elements change nothing |
| RecipeTypes.ExpandedListShape | internal/install/types/recipe.go:90-136 | no key gives []; a non-list panics; otherwise the output has the input's length and element i comes from input element i |
| RecipeTypes.EmptyElementIsEmptyMap | internal/install/types/recipe.go:98-106 | a list element with no keys (left nil by the first loop) reads as the empty map |
| RecipeTypes.ElementMaps | internal/install/types/recipe.go:96-107 | the first loop succeeds iff every element re-keys, and then holds each element's re-keyed map in place |
| RecipeTypes.BuildEach | internal/install/types/recipe.go:109-133 | the second loop of each list helper computes BuildAll |
| RecipeTypes.EmptyElementsAreZero | internal/install/types/recipe.go:110-130 | an element with no keys gives an install target, input variable and log match whose fields are all empty |
| RecipeTypes.ExpandInstallTargets | internal/install/types/recipe.go:90-136 | expandInstallTargets computes the list-field rule with the install-target builder |
| RecipeTypes.ExpandInputVars | internal/install/types/recipe.go:173-205 | expandInputVars computes the list-field rule with the input-variable builder |
| RecipeTypes.ExpandLogMatch | internal/install/types/recipe.go:207-239 | expandLogMatch computes the list-field rule with the log-match builder |
| RecipeTypes.ReadLogMatch | internal/install/types/recipe.go:227-235 | one log-match entry is built from its attributes and its four strings |
| RecipeTypes.StringPairs | internal/install/types/recipe.go:249-253 | an attribute mapping converts iff every key and every value is a string; otherwise it panics |
| RecipeTypes.StringPairsEntries | internal/install/types/recipe.go:249-253 | the converted attributes hold exactly the entries' keys, each bound to the value of one of its entries |
| RecipeTypes.LogAttributesOf | internal/install/types/recipe.go:241-260 | no `attributes` gives an empty logtype; a non-mapping panics; a mapping succeeds iff all its keys and values are strings, and then logtype is the `logtype` entry's value, or "" when there is none |
| RecipeTypes.ExpandLogAttributes | internal/install/types/recipe.go:241-260 | the attribute loop computes LogAttributesOf: only `logtype` is kept, "" when absent, a panic on a non-string pair |
| RecipeTypes.LogtypeIsKept | internal/install/types/recipe.go:255-257 | of the string attributes only `logtype` reaches the result |
| RecipeTypes.StringPairsPrefixFailure | internal/install/types/recipe.go:251-253 | once one attribute is not a string pair, the later ones change nothing |
| RecipeTypes.InstallText | internal/install/types/recipe.go:278-296 | a missing `install` is the MissingInstall error; a value that does not re-key panics; a re-keyed value that renders gives exactly the rendered text, and a render failure is InstallMarshal with the cause |
| RecipeTypes.ExpandInstallMapToString | internal/install/types/recipe.go:278-296 | expandInstalllMapToString computes InstallText |
| RecipeTypes.PreInstallOf | internal/install/types/recipe.go:138-154 | no `preInstall` gives the empty config; a value that does not re-key panics; otherwise `info` and `prompt` are read from the re-keyed value, "" when absent, a panic when not strings |
| RecipeTypes.PreInstallReadsByKey | internal/install/types/recipe.go:138-154 | the pre-install strings are read by key, whatever order the mapping lists them in |
| RecipeTypes.ExpandPreInstall | internal/install/types/recipe.go:138-154 | the method computes PreInstallOf |
| RecipeTypes.PostInstallOf | internal/install/types/recipe.go:156-171 | no `postInstall` gives the empty config; a value that does not re-key panics; otherwise `info` is read from the re-keyed value |
| RecipeTypes.ExpandPostInstall | internal/install/types/recipe.go:156-171 | the method computes PostInstallOf |
| RecipeTypes.SuccessLinkConfigOf | internal/install/types/recipe.go:67-88 | no `successLinkConfig` gives the empty config; a value that does not re-key panics; otherwise `filter` and the optional `type` are read from the re-keyed value, "" when absent |
| RecipeTypes.SuccessLinkReadsByKey | internal/install/types/recipe.go:67-88 | `type` becomes the link type and `filter` the filter, whatever their order |
| RecipeTypes.ExpandSuccessLinkConfig | internal/install/types/recipe.go:67-88 | the method computes SuccessLinkConfigOf, reading the optional `type` by hand |
| RecipeTypes.TopLevel | internal/install/types/recipe.go:20-24 | a null document gives no keys; a mapping decodes iff every key is a scalar, to its entries keyed by their text; a string-keyed mapping gives its re-keyed map; anything else is NotAMapping |
| RecipeTypes.KeyText | internal/install/types/recipe.go:20-21 | a string key is itself, a bool, number or null key has a text, a list or mapping key has none |
| RecipeTypes.TopEntries | internal/install/types/recipe.go:20-24 | the top-level entries decode iff every key has a text |
| RecipeTypes.TopEntriesStringKeys | internal/install/types/recipe.go:20-24 | with string keys only, the top-level decoding equals the nested re-keying |
| RecipeTypes.ScalarTopLevelKeys | internal/install/types/recipe.go:20-24 | a `true` key and a null key decode to the keys "true" and "" |
| RecipeTypes.OptionalString | internal/install/types/recipe.go:54-60 | an absent key leaves the field alone, a string is stored, any other value panics |
| RecipeTypes.HeadOf | internal/install/types/recipe.go:26-31 | the fields read before `install` succeed iff each reader does, and each field is its reader's value; a failure is a panic |
| RecipeTypes.TailOf | internal/install/types/recipe.go:39-60 | the fields read after `install` succeed iff each reader does, and each field is its reader's value; a failure is a panic |
| RecipeTypes.Normalize | internal/install/types/recipe.go:19-64 | a non-mapping is NotAMapping; a failed early read panics; a missing or unrenderable `install` is its error; otherwise it succeeds iff the later reads do. On success every field is its reader's value on the top-level map (`install` the rendered text), absent scalar keys give "" and absent lists []; a present stability or validationNrql is its string, and an absent one keeps the receiver's old value |
| RecipeTypes.Decode | internal/install/types/recipe.go:19-64 | a null document gives the zero recipe; any other document that decodes has `install`; a mapping without `install` fails |
| RecipeTypes.Unmarshal | internal/install/types/recipe.go:19-24 | unparsable text is a YAML syntax error; otherwise the parsed tree is decoded into a zero recipe |
| RecipeTypes.NullDocumentDecodesToZero | internal/install/types/recipe.go:19-24 | a null or empty document yields the zero recipe, with no name and no install payload |
| RecipeTypes.MissingInstallFails | internal/install/types/recipe.go:33-36 | without `install` decoding fails: MissingInstall when the earlier fields read, a panic otherwise |
| RecipeTypes.MissingDependenciesPanics | internal/install/types/recipe.go:26 | a mapping without a `dependencies` list panics before anything else is read |
| RecipeTypes.NumericNamePanics | internal/install/types/recipe.go:270-276 | a number given as the `name` fails the string assertion and panics |
| RecipeTypes.ReadHead | internal/install/types/recipe.go:26-31 | the sequential reads before `install` compute HeadOf |
| RecipeTypes.ReadTail | internal/install/types/recipe.go:39-60 | the sequential reads after `install` compute TailOf |
| RecipeTypes.MutableRecipe.constructor | internal/install/recipes/recipe_file.go:63 | a fresh receiver holds the zero recipe |
| RecipeTypes.MutableRecipe.UnmarshalYAML | internal/install/types/recipe.go:19-64 | on success the receiver holds Normalize's recipe; an undecodable document changes nothing; a missing, non-mapping or unrenderable `install` leaves exactly the fields before it written |
| RecipeTypes.MutableRecipe.UnmarshalText | internal/install/recipes/recipe_file.go:62-70 | a syntax error changes nothing; otherwise the receiver is updated as Decode says, or the error is returned |
| RecipeTypes.MutableRecipe.AddVar | internal/install/types/recipe.go:328-334 | the receiver is unchanged (the body is commented out) |
| RecipeTypes.HasKeyword | internal/install/types/recipe.go:352-364 | true iff some keyword equals the argument up to case; false for no keywords |
| RecipeTypes.IsApm | internal/install/types/recipe.go:340-342 | true iff some keyword is "apm" up to case |
| RecipeTypes.HasTargetType | internal/install/types/recipe.go:366-378 | true iff some install target has exactly that type; false for no targets |
| RecipeTypes.HasHostTargetType | internal/install/types/recipe.go:344-346 | true iff some install target is of type HOST |
| RecipeTypes.HasApplicationTargetType | internal/install/types/recipe.go:348-350 | true iff some install target is of type APPLICATION |
| RecipeTypes.PreInstallMessage | internal/install/types/recipe.go:316-322 | the message is the pre-install info, "" when there is none |
| RecipeTypes.PostInstallMessage | internal/install/types/recipe.go:308-314 | the message is the post-install info, "" when there is none |
| RecipeTypes.RecipeVariables.constructor | internal/install/types/recipe.go:15-17 | the variable map starts empty |
| RecipeTypes.RecipeVariables.SetRecipeVar | internal/install/types/recipe.go:336-338 | binds the key to the value and leaves every other entry unchanged |
| RecipeFiles.NewRecipeFileFetcher | internal/install/recipes/recipe_file.go:18-23 | the fetcher calls the default HTTP GET and file read |
| RecipeFiles.NewRecipeFile | internal/install/recipes/recipe_file.go:62-70 | a syntax error is returned; otherwise the result is exactly the decoding of the parsed document into a zero recipe (the zero recipe for a null document) |
| RecipeFiles.FetchRecipeFile | internal/install/recipes/recipe_file.go:33-51 | a GET error is returned as is; a status outside 200..299 is an error naming the code; with a 2xx status a body-read error is returned as is and a body is decoded by NewRecipeFile |
| RecipeFiles.LoadRecipeFile | internal/install/recipes/recipe_file.go:53-60 | a read error is returned as is; otherwise the content is decoded |
| RecipeFiles.StatusBoundaries | internal/install/recipes/recipe_file.go:39-41 | 199 and 300 are rejected with their code; 200 and 299 pass to the body |
| RecipeFiles.FetchAndLoadAgree | internal/install/recipes/recipe_file.go:33-60 | the same text fetched or loaded gives the same recipe |
| LocalRecipes.ExtIsSuffix | internal/install/recipes/local_recipe_fetcher.go:70 | filepath.Ext returns a suffix of the path that is empty or a dot followed by plain characters |
| LocalRecipes.ExtExtend | internal/install/recipes/local_recipe_fetcher.go:70 | appending plain characters extends an extension and keeps a missing one missing |
| LocalRecipes.ExtOfSuffix | internal/install/recipes/local_recipe_fetcher.go:70 | a path ending in an extension has exactly that extension |
| LocalRecipes.RecipePathIffSuffix | internal/install/recipes/local_recipe_fetcher.go:70-74 | a path is kept iff it ends in ".yml" or ".yaml"; both directions |
| LocalRecipes.EndsWithExtension | internal/install/recipes/local_recipe_fetcher.go:70 | a path whose name ends in an extension has that extension |
| LocalRecipes.ExtOf | internal/install/recipes/local_recipe_fetcher.go:70 | the backward scan computes Ext |
| LocalRecipes.RecipePaths | internal/install/recipes/local_recipe_fetcher.go:67-78 | never more paths than were walked |
| LocalRecipes.RecipePathsMembers | internal/install/recipes/local_recipe_fetcher.go:67-78 | a path is collected iff it was walked and has a recipe extension |
| LocalRecipes.LoadOne | internal/install/recipes/local_recipe_fetcher.go:85-101 | one file's step fails only with a panic |
| LocalRecipes.LoadOneDecodes | internal/install/recipes/local_recipe_fetcher.go:85-101 | a file yields a recipe iff it reads and decodes, and the recipe is its decoding; it yields nothing iff it cannot be read or its decoding fails without a panic |
| LocalRecipes.DecodeFile | internal/install/recipes/local_recipe_fetcher.go:86-94 | decoding into a fresh recipe value gives the decoding of the content |
| LocalRecipes.Gather | internal/install/recipes/local_recipe_fetcher.go:83-103 | the load loop over any per-file step fails only with the failure of some file's step |
| LocalRecipes.GatherBound | internal/install/recipes/local_recipe_fetcher.go:83-103 | the loop yields at most one recipe per file, each one some file's result |
| LocalRecipes.GatherSkip | internal/install/recipes/local_recipe_fetcher.go:88-98 | a file whose step yields nothing leaves the result as if it were absent |
| LocalRecipes.GatherEvery | internal/install/recipes/local_recipe_fetcher.go:83-103 | when every file yields a recipe, the result is those recipes in file order |
| LocalRecipes.LoadAllStep | internal/install/recipes/local_recipe_fetcher.go:85-101 | one more file fails the load with its panic, leaves it as it was, or appends its recipe |
| LocalRecipes.LoadAll | internal/install/recipes/local_recipe_fetcher.go:83-103 | the load loop fails only with a panic |
| LocalRecipes.LoadAllBound | internal/install/recipes/local_recipe_fetcher.go:83-103 | never more recipes than files, and each recipe is the decoding of some file |
| LocalRecipes.SkippedFileIsInvisible | internal/install/recipes/local_recipe_fetcher.go:88-98 | an unreadable or undecodable file leaves the result as if it were absent |
| LocalRecipes.LoadAllComplete | internal/install/recipes/local_recipe_fetcher.go:83-103 | when every file reads and decodes, there is exactly one recipe per file, in order |
| LocalRecipes.LoadAllPrefixFailure | internal/install/recipes/local_recipe_fetcher.go:83-103 | once a file panics, later files change nothing |
| LocalRecipes.FilterRecipePaths | internal/install/recipes/local_recipe_fetcher.go:67-78 | the walk loop collects RecipePaths of the walked paths |
| LocalRecipes.LoadFiles | internal/install/recipes/local_recipe_fetcher.go:83-103 | the read loop computes LoadAll over the collected paths |
| LocalRecipes.LoadRecipesFromDir | internal/install/recipes/local_recipe_fetcher.go:60-104 | the walk and load loops compute LoadAll over the collected recipe paths |
| LocalRecipes.LocalRecipes | internal/install/recipes/local_recipe_fetcher.go:44-58 | an empty path is an error; otherwise the directory's recipes |
| LocalRecipes.Recommended | internal/install/recipes/local_recipe_fetcher.go:35-42 | a fetch error is passed on; otherwise the recipes narrowed by the manifest |
| LocalRecipes.FetchRecipes | internal/install/recipes/local_recipe_fetcher.go:44-58 | computes LocalRecipes; an empty path is the EmptyPath error |
| LocalRecipes.FetchRecommendations | internal/install/recipes/local_recipe_fetcher.go:35-42 | computes Recommended |
| LocalRecipes.FetchRecipe | internal/install/recipes/local_recipe_fetcher.go:20-33 | returns the first recommended recipe with the requested name, or the not-found error naming it when none has it; a fetch error is passed on |
| MockRecipes.Occurrences | internal/install/recipes/mock_recipe_fetcher.go:34 | a name never requested has count 0, and no count exceeds the number of calls |
| MockRecipes.OccurrencesAppend | internal/install/recipes/mock_recipe_fetcher.go:34 | one more request for a name adds one to its count and nothing to the others |
| MockRecipes.ValIndex | internal/install/recipes/mock_recipe_fetcher.go:37 | the canned index is in range; it follows the call number and then saturates at the last recipe |
| MockRecipes.MockRecipeFetcher.constructor | internal/install/recipes/mock_recipe_fetcher.go:24-30 | no calls, no canned values, no errors, an empty name count |
| MockRecipes.MockRecipeFetcher.FetchRecipe | internal/install/recipes/mock_recipe_fetcher.go:32-42 | counts the call and the name; with canned recipes it returns the chosen one with the FetchRecipes error, otherwise the single value with the FetchRecipe error; nothing else changes |
| MockRecipes.MockRecipeFetcher.FetchRecipes | internal/install/recipes/mock_recipe_fetcher.go:44-47 | counts its own call and returns its canned list and error; nothing else changes |
| MockRecipes.MockRecipeFetcher.FetchRecommendations | internal/install/recipes/mock_recipe_fetcher.go:49-52 | counts its own call and returns its canned list and error; nothing else changes |
| MockRecipes.CannedRecipesSaturate | internal/install/recipes/mock_recipe_fetcher.go:36-39 | with canned recipes [a, b] three calls answer a, b, b with the FetchRecipes error |
| Recommendations.ToRecipeFile | internal/install/recipes.go:137-145 | a decoding error is returned, otherwise the decoded recipe file |
| Recommendations.ToRecipeFiles | internal/install/recipes.go:88-100 | one slot per result; a result that decodes fills its own slot; one that does not leaves the slot zero |
| Recommendations.Fetch | internal/install/recipes.go:46-64 | a criteria error is returned without querying; a query error is returned; otherwise every result is converted in place |
| TargetedInstall.ResolutionRequested | internal/install/recipe_installer_targeted.go:14-33 | the names fetched are a prefix of the dependencies, all of them when no fetch failed |
| TargetedInstall.ResolutionFetchesSucceed | internal/install/recipe_installer_targeted.go:21-25 | every fetch before the last one made succeeded; with no error every fetch succeeded |
| TargetedInstall.ResolutionFound | internal/install/recipe_installer_targeted.go:14-33 | the dependencies are the recipes found, in order, up to the failing fetch, whose error is returned |
| TargetedInstall.ResolutionShape | internal/install/recipe_installer_targeted.go:14-33 | the names fetched are a prefix of the dependencies; with no error all were fetched and every recipe found is kept in order; an error is the first failing fetch's |
| TargetedInstall.ResolutionPrefixFailure | internal/install/recipe_installer_targeted.go:21-25 | after a failed fetch the remaining dependencies are never fetched |
| TargetedInstall.ResolveRecipeDependencies | internal/install/recipe_installer_targeted.go:14-33 | the loop computes ResolveDependencies; no dependencies means no fetch |
| TargetedInstall.FetchWarn | internal/install/recipe_installer_targeted.go:153-165 | a fetch error becomes "no recipe"; otherwise the fetched result |
| TargetedInstall.RecipeFromPath | internal/install/recipe_installer_targeted.go:127-143 | a path with a URL scheme is fetched, anything else is loaded; a failure names the path and says which of the two failed |
| TargetedInstall.RecipeFromPathUsesOneTransport | internal/install/recipe_installer_targeted.go:127-143 | a remote path never uses the file reader, a local path never uses HTTP |
| TargetedInstall.FromPathsShape | internal/install/recipe_installer_targeted.go:38-60 | path mode yields one recipe per path that is not skipped, in order; a failure comes from such a path |
| TargetedInstall.FromNamesMembers | internal/install/recipe_installer_targeted.go:61-81 | name mode keeps a recipe iff its name was requested, is not skipped, and the fetch returned a recipe of that name |
| TargetedInstall.CollectRecipes | internal/install/recipe_installer_targeted.go:35-84 | the two loops compute Collected: paths first, else names, else nothing |
| TargetedInstall.CollectFromPaths | internal/install/recipe_installer_targeted.go:38-60 | the path loop computes FromPaths: skipped paths are passed over and the first failing load returns its error |
| TargetedInstall.FromPathsStep | internal/install/recipe_installer_targeted.go:40-58 | one more path is skipped, fails with its load error, or appends its recipe |
| TargetedInstall.CollectFromNames | internal/install/recipe_installer_targeted.go:61-81 | the name loop computes FromNames: failed fetches and recipes of another name are dropped |
| TargetedInstall.FromNamesStep | internal/install/recipe_installer_targeted.go:63-80 | one more name adds its fetched recipe exactly when it is not skipped and the recipe has that name |
| TargetedInstall.FromPathsPrefixFailure | internal/install/recipe_installer_targeted.go:47-51 | the first path that fails aborts collection; later paths change nothing |
| TargetedInstall.AssembledLength | internal/install/recipe_installer_targeted.go:96-110 | the install list is exactly as long as the plan (kept dependencies plus the recipe, per request) and ends with the last request |
| TargetedInstall.WithoutInfraMembers | internal/install/recipe_installer_targeted.go:102-108 | with skipping on, the infrastructure agent is the only dependency removed; both directions |
| TargetedInstall.AssembledAvoidsInfra | internal/install/recipe_installer_targeted.go:96-110 | with skipping on and no requested infrastructure agent, none reaches the install list |
| TargetedInstall.NameModeSkipsInfra | internal/install/recipe_installer_targeted.go:61-110 | requested by name with skipping on, the infrastructure agent never reaches the install list |
| TargetedInstall.PathLoadedInfraIsKept | internal/install/recipe_installer_targeted.go:38-60 | with skipping on, a recipe named for the infrastructure agent that was loaded from another path is collected and reaches the install list |
| TargetedInstall.KeptPathsMembers | internal/install/recipe_installer_targeted.go:40-44 | a path is kept iff it was given and the skip flag does not drop it |
| TargetedInstall.AssembledKeepsProvided | internal/install/recipe_installer_targeted.go:96-110 | every requested recipe is on the install list |
| TargetedInstall.NoDependenciesAddNothing | internal/install/recipe_installer_targeted.go:17-19 | a recipe without dependencies contributes only itself |
| TargetedInstall.NoDeduplication | internal/install/recipe_installer_targeted.go:96-110 | a recipe requested twice is installed twice |
| TargetedInstall.DependencyErrorAborts | internal/install/recipe_installer_targeted.go:96-100 | dependencies [B, C] where C fails: the resolution stops with [B] and C's error, and the whole install fails with it |
| TargetedInstall.AssembledPrefixFailure | internal/install/recipe_installer_targeted.go:97-100 | the first dependency error aborts assembly; later requests change nothing |
| TargetedInstall.AssembledStep | internal/install/recipe_installer_targeted.go:96-110 | one more request either fails with its dependency error or appends its kept dependencies and itself |
| TargetedInstall.AppendDependencies | internal/install/recipe_installer_targeted.go:102-108 | the inner loop appends the dependencies with the infrastructure agent left out when skipping is on |
| TargetedInstall.TargetedInstall | internal/install/recipe_installer_targeted.go:86-125 | a collect or dependency error is returned before installing; otherwise installRecipes receives exactly the assembled list and its error is returned |
| Installer.PromptFor | internal/install/install.go:133-147 | the prompt message is the variable's own prompt, else "value for NAME required"; a default is preset iff it is non-empty |
| Installer.ResolveInputsPrompts | internal/install/install.go:129-160 | with no error, the prompts are exactly one per unset variable, in declaration order |
| Installer.ResolveInputsAnswered | internal/install/install.go:132-157 | with no error, every variable got a value, from the environment or its prompt |
| Installer.NamesOfAppend | internal/install/install.go:129 | the declared names of a longer list are the old names plus the new one |
| Installer.ResolveInputsKeys | internal/install/install.go:129-160 | with no error, the variables are the starting ones plus every declared name |
| Installer.ResolveInputsKeepsOthers | internal/install/install.go:129-160 | with no error, a starting variable no input names keeps its value |
| Installer.ResolveInputsValues | internal/install/install.go:132-157 | with distinct names, each variable holds its environment value if non-empty, else the prompt's answer |
| Installer.EnvironmentSetMeansNoPrompt | internal/install/install.go:132-157 | when the environment sets every variable, nothing is prompted and nothing fails |
| Installer.ResolveInputsFails | internal/install/install.go:149-152 | an error is "prompt failed" wrapping the cause, from an unset variable whose prompt failed after all earlier ones resolved |
| Installer.ResolveInputsPrefixFailure | internal/install/install.go:149-152 | after a failed prompt the later variables are never looked at |
| Installer.ExecuteRecipeSteps | internal/install/install.go:74-167 | preparation, licence key, input-variable loop and run, step by step, compute ExecuteSteps |
| Installer.MissingLicenseKeyStopsEarly | internal/install/install.go:114-127 | an empty licence key is an error before any prompt, and its tasks do not run |
| Installer.RunSeesResolvedVars | internal/install/install.go:111-160 | the recipe's tasks run with the file's variables, the globals, the licence key and every input variable |
| Installer.PromptFailureStopsRecipe | internal/install/install.go:149-152 | once preparation and the licence key succeed, a recipe that does not run failed on a prompt |
| Installer.Install | internal/install/install.go:22-50 | a discovery or fetch error is returned before any recipe runs; recipes run in order and the first failure stops the rest |

## Left out

- Logging, the status reporter calls of `targetedInstall` (`SetTargetedInstall`, `RecipesAvailable`, `RecipesSelected`), and `getSignalContext`, which is signal handling on a goroutine.
- The YAML parser and renderer, HTTP, file reading, the directory walk, `url.Parse`, the credentials store, `os.Getenv`, `promptui` and the go-task executor are oracles. Their internals are not modelled.
- Installer.ExecuteRecipeSteps: the marshalling, temporary file, executor `Setup` and re-parse are folded into one `prepare` oracle that returns the first error. `ioutil.TempFile` failing dereferences a nil file in the deferred `os.Remove` argument (a panic); the model treats it as a returned error.
- Installer.Install: `install.go` passes the fetched `recipeFile` values to `executeRecipeSteps`, which reads `MetaData.Name`, `Install` and `InputVars`, fields that neither `recipeFile` nor `recipe` in `recipes.go` declare. `StepRecipe` stands for what it reads, and the fetch oracle returns it directly.
- Installer.RunSeesResolvedVars: `Vars.Merge` is modelled as a map overwrite, and the executor's own variable handling is not modelled.
- RecipeTypes.HasKeyword: `strings.EqualFold` is modelled for ASCII letters only. Unicode simple folding is not modelled.
- MockRecipes.ValIndex: `utils.MinOf` is not part of this model. It is taken to be the minimum of its arguments.
- MockRecipes.MockRecipeFetcher.FetchRecipe: the source returns a pointer into `FetchRecipeVals`. The model returns the recipe value, so later writes through that pointer are not modelled.
- TargetedInstall.TargetedInstall: `RecipePathsProvided` and `RecipeNamesProvided` are not part of this model. They are taken to be "the list is non-empty". `fetchRecipeAndReportAvailable` and `installRecipes` are oracles.
- LocalRecipes.FetchRecommendations: `DiscoveryManifest.ConstrainRecipes` is not part of this model. It is an oracle.
- LocalRecipes.LoadRecipesFromDir: the walk callback never returns an error, so the walk's error return is unreachable and not modelled. Paths use '/' as the only separator.
- Recommendations.Fetch: building the query criteria and the NerdGraph query are oracles.
- RecipeTypes.ToStringKeyed: Go map iteration order is unspecified. The model visits entries in document order, and a repeated key keeps its last value. Every failure is the same panic, so the visiting order cannot change whether re-keying fails.
- Error messages are modelled as `Error` constructors carrying their arguments, not as formatted text.
- The `Quickstarts` field is commented out in the source and is not modelled.
- RecipeTypes.TopLevel: a bool key at the top of a document is taken to be spelt `true` or `false`, whatever spelling the document used (`yes`, `on`, …). YAML merge keys (`<<`) are not modelled.
- Yaml.Node: ints, floats and timestamps share one `Num` value that keeps the scalar's text. Every reader treats it as "not a string, not a bool", so it panics where Go's assertion fails. Its Go type (int, float64, time.Time) is not modelled, since no reader distinguishes them.
