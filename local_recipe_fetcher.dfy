/**
  recipes/local_recipe_fetcher.go: recipes loaded from every .yml/.yaml file under a
  directory. The directory walk and file reading are oracles: `walk` lists the paths
  filepath.Walk visits, in its order.

  A file that cannot be read or whose YAML does not decode is skipped. A document on
  which the recipe's UnmarshalYAML panics (a failed type assertion) is not an error
  the loop can skip: the program stops, and here the load fails with the panic.
 */
module LocalRecipes {
  import opened Wrappers
  import opened Errors
  import opened Yaml
  import opened RecipeTypes

  /** LocalRecipeFetcher: the directory to load from. */
  datatype LocalRecipeFetcher = LocalRecipeFetcher(path: string)

  /** The file system as the fetcher sees it. */
  datatype FileSystem = FileSystem(walk: string -> seq<string>, readFile: string -> Result<string, Error>)

  // ---------------------------------------------------------------------------
  // filepath.Ext and the recipe-path filter

  predicate IsSeparator(c: char) { c == '/' }

  /** No character of `t` is a dot or a separator. */
  predicate Plain(t: string) {
    t == [] || (Plain(t[..|t| - 1]) && t[|t| - 1] != '.' && !IsSeparator(t[|t| - 1]))
  }

  /** A path extension: a dot followed by characters that are neither dots nor separators. */
  predicate IsExtension(e: string) {
    |e| > 0 && e[0] == '.' && Plain(e[1..])
  }

  /**
    filepath.Ext: the suffix from the last dot of the final path element, or "" when
    that element has no dot.
   */
  function Ext(path: string): (e: string)
  {
    if path == [] then ""
    else
      var c := path[|path| - 1];
      if IsSeparator(c) then ""
      else if c == '.' then "."
      else
        var e := Ext(path[..|path| - 1]);
        if e == [] then "" else e + [c]
  }

  /** The extension is a suffix of the path, and it is empty or a dot followed by plain characters. */
  lemma {:induction false} ExtIsSuffix(path: string)
    ensures |Ext(path)| <= |path| && Ext(path) == path[|path| - |Ext(path)|..]
    ensures Ext(path) == [] || IsExtension(Ext(path))
  {
    if path != [] {
      var init, c := path[..|path| - 1], path[|path| - 1];
      if !IsSeparator(c) && c != '.' {
        ExtIsSuffix(init);
        var e := Ext(init);
        if e != [] {
          assert Ext(path) == e + [c];
          var t := e[1..] + [c];
          assert (e + [c])[1..] == t;
          assert t[..|t| - 1] == e[1..];
          assert Plain(t);
          assert path[|path| - |e| - 1..] == init[|init| - |e|..] + [c];
        }
      }
    }
  }

  /** Appending characters that are neither dots nor separators extends an extension and keeps a missing one missing. */
  lemma {:induction false} ExtExtend(p: string, t: string)
    requires Plain(t)
    ensures Ext(p + t) == if Ext(p) == [] then [] else Ext(p) + t
  {
    if t == [] {
      assert p + t == p;
    } else {
      var t', c := t[..|t| - 1], t[|t| - 1];
      assert t == t' + [c];
      var q := p + t;
      assert q[..|q| - 1] == p + t';
      assert q[|q| - 1] == c;
      ExtExtend(p, t');
      if Ext(p) != [] {
        assert Ext(p) + t' + [c] == Ext(p) + t;
      }
    }
  }

  /** A path that ends in an extension has exactly that extension. */
  lemma ExtOfSuffix(p: string, e: string)
    requires IsExtension(e)
    ensures Ext(p + e) == e
  {
    var q := p + ["."[0]];
    assert q[..|q| - 1] == p;
    assert Ext(q) == ".";
    var t := e[1..];
    assert q + t == p + e;
    ExtExtend(q, t);
  }

  predicate IsRecipePath(path: string) {
    Ext(path) == ".yml" || Ext(path) == ".yaml"
  }

  lemma RecipeExtensionsAreExtensions()
    ensures IsExtension(".yml") && IsExtension(".yaml")
  {
    assert ".yml"[1..] == "yml" && "yml"[..2] == "ym" && "ym"[..1] == "y" && "y"[..0] == [];
    assert ".yaml"[1..] == "yaml" && "yaml"[..3] == "yam" && "yam"[..2] == "ya";
    assert "ya"[..1] == "y";
  }

  /** A path whose name ends in an extension has that extension. */
  lemma EndsWithExtension(path: string, e: string)
    requires IsExtension(e) && |path| >= |e| && path[|path| - |e|..] == e
    ensures Ext(path) == e
  {
    assert path[..|path| - |e|] + e == path;
    ExtOfSuffix(path[..|path| - |e|], e);
  }

  /** The filter keeps a path iff its name ends in ".yml" or ".yaml". */
  lemma RecipePathIffSuffix(path: string)
    ensures IsRecipePath(path) <==>
      (|path| >= 4 && path[|path| - 4..] == ".yml") || (|path| >= 5 && path[|path| - 5..] == ".yaml")
  {
    ExtIsSuffix(path);
    RecipeExtensionsAreExtensions();
    if |path| >= 4 && path[|path| - 4..] == ".yml" {
      EndsWithExtension(path, ".yml");
    }
    if |path| >= 5 && path[|path| - 5..] == ".yaml" {
      EndsWithExtension(path, ".yaml");
    }
  }

  /** filepath.Ext as the loop the library runs: scan back to the last dot before a separator. */
  method ExtOf(path: string) returns (ext: string)
    ensures ext == Ext(path)
  {
    var i := |path| - 1;
    assert path[..i + 1] == path && path[i + 1..] == [];
    while i >= 0 && !IsSeparator(path[i])
      invariant -1 <= i < |path|
      invariant Ext(path) == if Ext(path[..i + 1]) == [] then [] else Ext(path[..i + 1]) + path[i + 1..]
    {
      assert path[..i + 1][..i] == path[..i];
      if path[i] == '.' {
        assert Ext(path[..i + 1]) == ".";
        assert path[i..] == "." + path[i + 1..];
        return path[i..];
      }
      assert path[..i] + path[i..i + 1] == path[..i + 1];
      assert Plain(path[i..i + 1]) by {
        assert path[i..i + 1][..0] == [];
      }
      ExtExtend(path[..i], path[i..i + 1]);
      if Ext(path[..i]) != [] {
        assert Ext(path[..i]) + path[i..i + 1] + path[i + 1..] == Ext(path[..i]) + path[i..];
      }
      i := i - 1;
    }
    assert Ext(path[..i + 1]) == [];
    return "";
  }

  /** The paths the walk callback appends: those with a recipe extension, in walk order. */
  function RecipePaths(walked: seq<string>): (paths: seq<string>)
    ensures |paths| <= |walked|
  {
    if walked == [] then []
    else
      var init := RecipePaths(walked[..|walked| - 1]);
      if IsRecipePath(walked[|walked| - 1]) then init + [walked[|walked| - 1]] else init
  }

  /** A path is collected iff it was walked and has a recipe extension. */
  lemma {:induction false} RecipePathsMembers(walked: seq<string>, p: string)
    ensures p in RecipePaths(walked) <==> p in walked && IsRecipePath(p)
  {
    if walked != [] {
      var init := walked[..|walked| - 1];
      RecipePathsMembers(init, p);
      assert walked == init + [walked[|walked| - 1]];
    }
  }

  // ---------------------------------------------------------------------------
  // Loading the collected files

  /**
    One file of the loop: nothing when it cannot be read or its YAML does not decode,
    the recipe when it does, the panic when decoding panics.
   */
  function LoadOne(fs: FileSystem, codec: Codec, path: string): (r: Result<Option<Recipe>, Error>)
    ensures r.Failure? ==> r.error.IsPanic()
  {
    match fs.readFile(path)
    case Failure(_) => Success(None)
    case Success(content) =>
      match Unmarshal(codec, content)
      case Success(recipe) => Success(Some(recipe))
      case Failure(e) => if e.IsPanic() then Failure(e) else Success(None)
  }

  /**
    A file yields a recipe iff it reads and decodes, and the recipe is its decoding;
    it is skipped iff it cannot be read or its decoding fails without a panic.
   */
  lemma LoadOneDecodes(fs: FileSystem, codec: Codec, path: string)
    ensures (LoadOne(fs, codec, path).Success? && LoadOne(fs, codec, path).value.Some?) <==>
      (fs.readFile(path).Success? && Unmarshal(codec, fs.readFile(path).value).Success?)
    ensures LoadOne(fs, codec, path).Success? && LoadOne(fs, codec, path).value.Some? ==>
      LoadOne(fs, codec, path).value.value == Unmarshal(codec, fs.readFile(path).value).value
    ensures LoadOne(fs, codec, path) == Success(None) <==>
      (fs.readFile(path).Failure? || (Unmarshal(codec, fs.readFile(path).value).Failure? && !Unmarshal(codec, fs.readFile(path).value).error.IsPanic()))
  {
  }

  /** The per-file step as a function value. */
  function Loader(fs: FileSystem, codec: Codec): string -> Result<Option<Recipe>, Error>
  {
    p => LoadOne(fs, codec, p)
  }

  /** The second loop of loadRecipesFromDir over any per-file step: the recipes it yields, in path order, or its first failure. */
  function Gather(load: string -> Result<Option<Recipe>, Error>, paths: seq<string>): (r: Result<seq<Recipe>, Error>)
    ensures r.Failure? ==> exists p | p in paths :: load(p) == Failure(r.error)
  {
    if paths == [] then Success([])
    else
      var last := paths[|paths| - 1];
      assert last in paths;
      match Gather(load, paths[..|paths| - 1])
      case Failure(e) => Failure(e)
      case Success(init) =>
        match load(last)
        case Failure(e) => Failure(e)
        case Success(one) => if one.Some? then Success(init + [one.value]) else Success(init)
  }

  /** The recipes of the second loop of loadRecipesFromDir, in path order. */
  function LoadAll(fs: FileSystem, codec: Codec, paths: seq<string>): (r: Result<seq<Recipe>, Error>)
    ensures r.Failure? ==> r.error.IsPanic()
  {
    Gather(Loader(fs, codec), paths)
  }

  lemma {:induction false} GatherBound(load: string -> Result<Option<Recipe>, Error>, paths: seq<string>)
    requires Gather(load, paths).Success?
    ensures |Gather(load, paths).value| <= |paths|
    ensures forall r | r in Gather(load, paths).value :: exists p | p in paths :: load(p) == Success(Some(r))
  {
    if paths != [] {
      var init := paths[..|paths| - 1];
      var last := paths[|paths| - 1];
      GatherBound(load, init);
      forall r | r in Gather(load, paths).value
        ensures exists p | p in paths :: load(p) == Success(Some(r))
      {
        if r in Gather(load, init).value {
          var p :| p in init && load(p) == Success(Some(r));
          assert p in paths;
        } else {
          assert last in paths;
        }
      }
    }
  }

  /** Never more recipes than files, and every recipe is the decoding of one of the files, in order. */
  lemma LoadAllBound(fs: FileSystem, codec: Codec, paths: seq<string>)
    requires LoadAll(fs, codec, paths).Success?
    ensures |LoadAll(fs, codec, paths).value| <= |paths|
    ensures forall r | r in LoadAll(fs, codec, paths).value ::
      exists p | p in paths :: fs.readFile(p).Success? && Unmarshal(codec, fs.readFile(p).value) == Success(r)
  {
    GatherBound(Loader(fs, codec), paths);
    forall r | r in LoadAll(fs, codec, paths).value
      ensures exists p | p in paths :: fs.readFile(p).Success? && Unmarshal(codec, fs.readFile(p).value) == Success(r)
    {
      var p :| p in paths && Loader(fs, codec)(p) == Success(Some(r));
      LoadOneDecodes(fs, codec, p);
    }
  }

  lemma {:induction false} GatherSkip(load: string -> Result<Option<Recipe>, Error>, before: seq<string>, bad: string, after: seq<string>)
    requires load(bad) == Success(None)
    ensures Gather(load, before + [bad] + after) == Gather(load, before + after)
  {
    if after == [] {
      assert before + [bad] + after == before + [bad];
      assert (before + [bad])[..|before + [bad]| - 1] == before;
      assert before + after == before;
    } else {
      var init := after[..|after| - 1];
      GatherSkip(load, before, bad, init);
      assert (before + [bad] + after)[..|before + [bad] + after| - 1] == before + [bad] + init;
      assert (before + after)[..|before + after| - 1] == before + init;
    }
  }

  /** A file that is skipped (unreadable or undecodable without a panic) leaves the result as if it were absent. */
  lemma SkippedFileIsInvisible(fs: FileSystem, codec: Codec, before: seq<string>, bad: string, after: seq<string>)
    requires fs.readFile(bad).Failure? ||
      (Unmarshal(codec, fs.readFile(bad).value).Failure? && !Unmarshal(codec, fs.readFile(bad).value).error.IsPanic())
    ensures LoadAll(fs, codec, before + [bad] + after) == LoadAll(fs, codec, before + after)
  {
    LoadOneDecodes(fs, codec, bad);
    GatherSkip(Loader(fs, codec), before, bad, after);
  }

  lemma {:induction false} GatherEvery(load: string -> Result<Option<Recipe>, Error>, paths: seq<string>, recipes: seq<Recipe>)
    requires |recipes| == |paths|
    requires forall i | 0 <= i < |paths| :: load(paths[i]) == Success(Some(recipes[i]))
    ensures Gather(load, paths) == Success(recipes)
  {
    if paths != [] {
      var n := |paths| - 1;
      GatherEvery(load, paths[..n], recipes[..n]);
      assert recipes[..n] + [recipes[n]] == recipes;
    }
  }

  /** When every file reads and decodes, there is exactly one recipe per file: its decoding, in order. */
  lemma LoadAllComplete(fs: FileSystem, codec: Codec, paths: seq<string>)
    requires forall i | 0 <= i < |paths| :: fs.readFile(paths[i]).Success? && Unmarshal(codec, fs.readFile(paths[i]).value).Success?
    ensures LoadAll(fs, codec, paths).Success?
    ensures |LoadAll(fs, codec, paths).value| == |paths|
    ensures forall i | 0 <= i < |paths| :: LoadAll(fs, codec, paths).value[i] == Unmarshal(codec, fs.readFile(paths[i]).value).value
  {
    var recipes := seq(|paths|, i requires 0 <= i < |paths| => Unmarshal(codec, fs.readFile(paths[i]).value).value);
    forall i | 0 <= i < |paths|
      ensures Loader(fs, codec)(paths[i]) == Success(Some(recipes[i]))
    {
      LoadOneDecodes(fs, codec, paths[i]);
    }
    GatherEvery(Loader(fs, codec), paths, recipes);
  }

  /** Once a file panics, the later files are never read and change nothing. */
  lemma {:induction false} LoadAllPrefixFailure(fs: FileSystem, codec: Codec, paths: seq<string>, n: nat)
    requires n <= |paths|
    requires LoadAll(fs, codec, paths[..n]).Failure?
    ensures LoadAll(fs, codec, paths) == LoadAll(fs, codec, paths[..n])
  {
    if n < |paths| {
      assert paths[..|paths| - 1][..n] == paths[..n];
      LoadAllPrefixFailure(fs, codec, paths[..|paths| - 1], n);
    } else {
      assert paths[..n] == paths;
    }
  }

  /** The body of the load loop: `var r types.OpenInstallationRecipe` and yaml.Unmarshal of the content into it. */
  method DecodeFile(codec: Codec, content: string) returns (r: Result<Recipe, Error>)
    ensures r == Unmarshal(codec, content)
  {
    var recipe := new MutableRecipe();
    var err := recipe.UnmarshalText(codec, content);
    if err.Some? {
      return Failure(err.value);
    }
    return Success(recipe.value);
  }

  /**
    loadRecipesFromDir: the walk callback collects the recipe paths (it never returns
    an error, so neither does the walk), then each file is read and decoded into a
    fresh recipe.
   */
  /** One more file: the load fails with its panic, keeps the recipes, or adds the one it decoded. */
  lemma LoadAllStep(fs: FileSystem, codec: Codec, paths: seq<string>, k: nat)
    requires k < |paths| && LoadAll(fs, codec, paths[..k]).Success?
    ensures LoadOne(fs, codec, paths[k]).Failure? ==>
      LoadAll(fs, codec, paths[..k + 1]) == Failure(LoadOne(fs, codec, paths[k]).error)
    ensures LoadOne(fs, codec, paths[k]) == Success(None) ==>
      LoadAll(fs, codec, paths[..k + 1]) == LoadAll(fs, codec, paths[..k])
    ensures LoadOne(fs, codec, paths[k]).Success? && LoadOne(fs, codec, paths[k]).value.Some? ==>
      LoadAll(fs, codec, paths[..k + 1]) ==
        Success(LoadAll(fs, codec, paths[..k]).value + [LoadOne(fs, codec, paths[k]).value.value])
  {
    assert paths[..k + 1][..k] == paths[..k];
    assert Loader(fs, codec)(paths[k]) == LoadOne(fs, codec, paths[k]);
  }

  /** The walk loop of loadRecipesFromDir: the walked paths with a recipe extension, in walk order. */
  method FilterRecipePaths(walked: seq<string>) returns (recipePaths: seq<string>)
    ensures recipePaths == RecipePaths(walked)
  {
    recipePaths := [];
    for i := 0 to |walked|
      invariant recipePaths == RecipePaths(walked[..i])
    {
      assert walked[..i + 1][..i] == walked[..i];
      var ext := ExtOf(walked[i]);
      if ext == ".yml" || ext == ".yaml" {
        recipePaths := recipePaths + [walked[i]];
      }
    }
    assert walked[..|walked|] == walked;
  }

  /**
    The read loop of loadRecipesFromDir: each file is read and decoded in order, an
    unreadable or undecodable file is skipped, and a panic stops the load.
   */
  method LoadFiles(fs: FileSystem, codec: Codec, recipePaths: seq<string>) returns (r: Result<seq<Recipe>, Error>)
    ensures r == LoadAll(fs, codec, recipePaths)
  {
    var recipes := [];
    for i := 0 to |recipePaths|
      invariant LoadAll(fs, codec, recipePaths[..i]) == Success(recipes)
    {
      LoadAllStep(fs, codec, recipePaths, i);
      var content := fs.readFile(recipePaths[i]);
      if content.Success? {
        var decoded := DecodeFile(codec, content.value);
        if decoded.Success? {
          recipes := recipes + [decoded.value];
        } else if decoded.error.IsPanic() {
          LoadAllPrefixFailure(fs, codec, recipePaths, i + 1);
          return Failure(decoded.error);
        }
      }
    }
    assert recipePaths[..|recipePaths|] == recipePaths;
    return Success(recipes);
  }

  /** loadRecipesFromDir: the recipe files under the directory, loaded in walk order. */
  method LoadRecipesFromDir(fs: FileSystem, codec: Codec, path: string) returns (r: Result<seq<Recipe>, Error>)
    ensures r == LoadAll(fs, codec, RecipePaths(fs.walk(path)))
  {
    var recipePaths := FilterRecipePaths(fs.walk(path));
    r := LoadFiles(fs, codec, recipePaths);
  }


  // ---------------------------------------------------------------------------
  // The fetcher's operations

  /** What FetchRecipes produces: an error for an empty path, else the directory's recipes. */
  function LocalRecipes(f: LocalRecipeFetcher, fs: FileSystem, codec: Codec): (r: Result<seq<Recipe>, Error>)
    ensures f.path == "" ==> r == Failure(EmptyPath)
    ensures f.path != "" ==> r == LoadAll(fs, codec, RecipePaths(fs.walk(f.path)))
  {
    if f.path == "" then Failure(EmptyPath) else LoadAll(fs, codec, RecipePaths(fs.walk(f.path)))
  }

  /** What FetchRecommendations produces: the recipes narrowed by the manifest's ConstrainRecipes. */
  function Recommended(f: LocalRecipeFetcher, fs: FileSystem, codec: Codec,
                       constrain: seq<Recipe> -> seq<Recipe>): (r: Result<seq<Recipe>, Error>)
    ensures LocalRecipes(f, fs, codec).Failure? ==> r == Failure(LocalRecipes(f, fs, codec).error)
    ensures LocalRecipes(f, fs, codec).Success? ==> r == Success(constrain(LocalRecipes(f, fs, codec).value))
  {
    var recipes :- LocalRecipes(f, fs, codec);
    Success(constrain(recipes))
  }

  method FetchRecipes(f: LocalRecipeFetcher, fs: FileSystem, codec: Codec) returns (r: Result<seq<Recipe>, Error>)
    ensures r == LocalRecipes(f, fs, codec)
    ensures f.path == "" ==> r == Failure(EmptyPath)
  {
    if f.path == "" {
      return Failure(EmptyPath);
    }
    r := LoadRecipesFromDir(fs, codec, f.path);
  }

  method FetchRecommendations(f: LocalRecipeFetcher, fs: FileSystem, codec: Codec,
                              constrain: seq<Recipe> -> seq<Recipe>) returns (r: Result<seq<Recipe>, Error>)
    ensures r == Recommended(f, fs, codec, constrain)
  {
    var recipes := FetchRecipes(f, fs, codec);
    if recipes.Failure? {
      return Failure(recipes.error);
    }
    return Success(constrain(recipes.value));
  }

  /**
    FetchRecipe: the first recommended recipe whose name is the requested one, the
    not-found error naming it when there is none, and any fetch error as is.
   */
  method FetchRecipe(f: LocalRecipeFetcher, fs: FileSystem, codec: Codec,
                     constrain: seq<Recipe> -> seq<Recipe>, friendlyName: string) returns (r: Result<Recipe, Error>)
    ensures Recommended(f, fs, codec, constrain).Failure? ==> r == Failure(Recommended(f, fs, codec, constrain).error)
    ensures Recommended(f, fs, codec, constrain).Success? ==>
      var recipes := Recommended(f, fs, codec, constrain).value;
      && (r.Success? ==>
            exists k | 0 <= k < |recipes| ::
              r.value == recipes[k] && recipes[k].name == friendlyName &&
              forall j | 0 <= j < k :: recipes[j].name != friendlyName)
      && (r.Failure? ==>
            r.error == RecipeNotFound(friendlyName) &&
            forall j | 0 <= j < |recipes| :: recipes[j].name != friendlyName)
  {
    var recipes := FetchRecommendations(f, fs, codec, constrain);
    if recipes.Failure? {
      return Failure(recipes.error);
    }
    var all := recipes.value;
    for i := 0 to |all|
      invariant forall j | 0 <= j < i :: all[j].name != friendlyName
    {
      if all[i].name == friendlyName {
        return Success(all[i]);
      }
    }
    return Failure(RecipeNotFound(friendlyName));
  }
}
