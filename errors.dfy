/** The error values the installer's recipe resolution can produce. */
module Errors {

  datatype Error =
    /** yaml.Unmarshal could not parse the document text. */
    | YamlSyntax(detail: string)
    /** The document root does not decode into map[string]interface{}. */
    | NotAMapping
    /** An unchecked Go type assertion (`v.(T)`) failed: the Go program panics here. */
    | TypeAssertionPanic
    /** "error unmarshaling installation recipe: field 'install' is empty or undefined" */
    | MissingInstall
    /** "error unmarshaling recipe.install to string: ..." (yaml.Marshal failed) */
    | InstallMarshal(detail: string)
    /** "unable to load recipes from empty path spec" */
    | EmptyPath
    /** "<name>: recipe not found" (wraps ErrRecipeNotFound) */
    | RecipeNotFound(name: string)
    /** "received non-2xx status code <code> when retrieving recipe" */
    | Non2xxStatus(code: int)
    /** "could not fetch file <path>: <cause>" */
    | CouldNotFetch(path: string, cause: Error)
    /** "could not load file <path>: <cause>" */
    | CouldNotLoad(path: string, cause: Error)
    /** "license key not found in default profile" */
    | LicenseKeyNotFound
    /** "prompt failed: <cause>" */
    | PromptFailed(cause: Error)
    /** An error produced by a collaborator outside the model (network, file system, service, executor). */
    | External(detail: string)
  {
    /** Errors that stand for a Go runtime panic rather than a returned error value. */
    predicate IsPanic() { TypeAssertionPanic? }
  }
}
