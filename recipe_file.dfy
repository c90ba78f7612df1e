/**
  recipes/recipe_file.go: loading one recipe document from a URL (HTTP GET) or from
  a local file, and decoding its text. HTTP, body reading and file reading are oracles.
 */
module RecipeFiles {
  import opened Wrappers
  import opened Errors
  import opened Yaml
  import opened RecipeTypes

  /** An *http.Response as far as the fetcher looks at it: the status code and the outcome of reading the body. */
  datatype Response = Response(statusCode: int, body: Result<string, Error>)

  /** A parsed *url.URL: its scheme and what its String method renders. */
  datatype Url = Url(scheme: string, text: string)

  /** RecipeFileFetcherImpl: the HTTP GET and file-read functions it calls through. */
  datatype RecipeFileFetcher = RecipeFileFetcher(
    httpGet: string -> Result<Response, Error>,
    readFile: string -> Result<string, Error>)

  /**
    NewRecipeFileFetcher: both functions are the defaults, http.Get and ioutil.ReadFile,
    which the model receives as oracles.
   */
  function NewRecipeFileFetcher(defaultHttpGet: string -> Result<Response, Error>,
                                defaultReadFile: string -> Result<string, Error>): (f: RecipeFileFetcher)
    ensures f.httpGet == defaultHttpGet && f.readFile == defaultReadFile
  {
    RecipeFileFetcher(defaultHttpGet, defaultReadFile)
  }

  /** The status codes FetchRecipeFile accepts. */
  predicate Is2xx(statusCode: int) {
    200 <= statusCode <= 299
  }

  /**
    NewRecipeFile: yaml.Unmarshal of the text into a fresh recipe. A syntax error is
    returned; a null document gives the zero recipe; any other document is decoded by
    the recipe's UnmarshalYAML, which succeeds only when it has an `install` key and
    every field it reads has the type it asserts.
   */
  function NewRecipeFile(codec: Codec, text: string): (r: Result<Recipe, Error>)
    ensures codec.parse(text).Failure? ==> r == Failure(YamlSyntax(codec.parse(text).error))
    ensures codec.parse(text).Success? ==> r == Decode(codec, codec.parse(text).value, ZeroRecipe)
    ensures codec.parse(text) == Success(Null) ==> r == Success(ZeroRecipe)
    ensures r.Success? && !codec.parse(text).value.Null? ==> HasTopKey(codec.parse(text).value, "install")
    ensures r.Success? && !codec.parse(text).value.Null? ==>
      r == Normalize(codec, codec.parse(text).value, ZeroRecipe)
  {
    Unmarshal(codec, text)
  }

  /**
    FetchRecipeFile: a GET error is returned as is; a status outside 200..299 is an
    error naming the code; a body-read error is returned as is; otherwise the body is
    decoded with NewRecipeFile.
   */
  function FetchRecipeFile(f: RecipeFileFetcher, codec: Codec, recipeUrl: Url): (r: Result<Recipe, Error>)
    ensures f.httpGet(recipeUrl.text).Failure? ==> r == Failure(f.httpGet(recipeUrl.text).error)
    ensures f.httpGet(recipeUrl.text).Success? && !Is2xx(f.httpGet(recipeUrl.text).value.statusCode) ==>
      r == Failure(Non2xxStatus(f.httpGet(recipeUrl.text).value.statusCode))
    ensures f.httpGet(recipeUrl.text).Success? && Is2xx(f.httpGet(recipeUrl.text).value.statusCode) ==>
      var body := f.httpGet(recipeUrl.text).value.body;
      && (body.Failure? ==> r == Failure(body.error))
      && (body.Success? ==> r == NewRecipeFile(codec, body.value))
    ensures r.Success? ==>
      var response := f.httpGet(recipeUrl.text);
      && response.Success? && Is2xx(response.value.statusCode) && response.value.body.Success?
      && r == NewRecipeFile(codec, response.value.body.value)
  {
    var response :- f.httpGet(recipeUrl.text);
    if !Is2xx(response.statusCode) then
      Failure(Non2xxStatus(response.statusCode))
    else
      var body :- response.body;
      NewRecipeFile(codec, body)
  }

  /** LoadRecipeFile: a read error is returned as is; otherwise the content is decoded with NewRecipeFile. */
  function LoadRecipeFile(f: RecipeFileFetcher, codec: Codec, filename: string): (r: Result<Recipe, Error>)
    ensures f.readFile(filename).Failure? ==> r == Failure(f.readFile(filename).error)
    ensures f.readFile(filename).Success? ==> r == NewRecipeFile(codec, f.readFile(filename).value)
  {
    var content :- f.readFile(filename);
    NewRecipeFile(codec, content)
  }

  /** The boundary codes: 200 and 299 get past the status check, 199 and 300 are rejected with their code. */
  lemma StatusBoundaries(f: RecipeFileFetcher, codec: Codec, recipeUrl: Url)
    requires f.httpGet(recipeUrl.text).Success?
    ensures f.httpGet(recipeUrl.text).value.statusCode in {199, 300} ==>
      FetchRecipeFile(f, codec, recipeUrl) == Failure(Non2xxStatus(f.httpGet(recipeUrl.text).value.statusCode))
    ensures f.httpGet(recipeUrl.text).value.statusCode in {200, 299} ==>
      FetchRecipeFile(f, codec, recipeUrl) ==
        (var body := f.httpGet(recipeUrl.text).value.body;
         if body.Failure? then Failure(body.error) else NewRecipeFile(codec, body.value))
  {
  }

  /** A fetched recipe and a loaded recipe of the same text are the same recipe: only the transport differs. */
  lemma FetchAndLoadAgree(f: RecipeFileFetcher, codec: Codec, recipeUrl: Url, filename: string)
    requires f.httpGet(recipeUrl.text).Success?
    requires Is2xx(f.httpGet(recipeUrl.text).value.statusCode)
    requires f.readFile(filename).Success?
    requires f.httpGet(recipeUrl.text).value.body == Success(f.readFile(filename).value)
    ensures FetchRecipeFile(f, codec, recipeUrl) == LoadRecipeFile(f, codec, filename)
  {
  }
}
