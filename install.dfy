/**
  install/install.go: the batch installer. `install` discovers, fetches the recipes
  and executes them in order; `executeRecipeSteps` prepares a recipe's task file,
  sets the licence key and resolves each input variable from the environment or a
  prompt before running the recipe's tasks.

  Discovery, fetching, writing and parsing the Taskfile, the credentials store, the
  environment, the prompt and the Taskfile executor are oracles. Taskfile variables are a
  map from name to value; merging a set of variables overwrites the names it holds.
 */
module Installer {
  import opened Wrappers
  import opened Errors
  import opened Yaml
  import opened RecipeTypes

  /** The recipe executeRecipeSteps receives: its name, its install section and its input variables. */
  datatype StepRecipe = StepRecipe(name: string, install: StrMap, inputVars: seq<InputVariable>)

  /** What a prompt shows: its message and, when one is preset, its default answer. */
  datatype PromptRequest = PromptRequest(message: string, default: Option<string>)

  /** The Taskfile variable that carries the licence key. */
  const LicenseKeyVar := "NR_LICENSE_KEY"

  type Vars = map<string, string>

  /** The collaborators executeRecipeSteps calls. */
  datatype Environment = Environment(
    /**
      Marshalling the install section, writing the temporary task file, the executor's
      Setup and re-reading the file: the first error, or the variables the Taskfile declares.
     */
    prepare: StrMap -> Result<Vars, Error>,
    /** The global variables taskargs.ParseV3 reads from the command line. */
    globals: Vars,
    /** The licence key of the default profile ("" when there is none). */
    licenseKey: string,
    /** os.Getenv ("" for an unset variable). */
    getenv: string -> string,
    /** promptui's Prompt.Run: the answer, or an error. */
    prompt: PromptRequest -> Result<string, Error>,
    /** The executor's Run with the final task variables. */
    run: Vars -> Option<Error>)

  // ---------------------------------------------------------------------------
  // Input variables

  /**
    The prompt for a variable the environment does not set: the variable's own prompt
    text if it has one, else "value for <name> required"; its default is preset only
    when it is not empty.
   */
  function PromptFor(v: InputVariable): (p: PromptRequest)
    ensures v.prompt != "" ==> p.message == v.prompt
    ensures v.prompt == "" ==> p.message == "value for " + v.name + " required"
    ensures p.default.Some? <==> v.default != ""
    ensures p.default.Some? ==> p.default.value == v.default
  {
    var message := if v.prompt != "" then v.prompt else "value for " + v.name + " required";
    PromptRequest(message, if v.default != "" then Some(v.default) else None)
  }

  /** Whether the environment leaves `v` unset, so that it must be prompted for. */
  predicate NeedsPrompt(env: Environment, v: InputVariable) {
    env.getenv(v.name) == ""
  }

  /** The value one variable receives: its environment value, else the prompt's answer. */
  function Answer(env: Environment, v: InputVariable): Result<string, Error>
  {
    if !NeedsPrompt(env, v) then Success(env.getenv(v.name))
    else match env.prompt(PromptFor(v))
      case Failure(e) => Failure(PromptFailed(e))
      case Success(s) => Success(s)
  }

  /** The prompts shown for a list of variables when none of them fails: one per unset variable, in order. */
  function Prompts(env: Environment, inputs: seq<InputVariable>): seq<PromptRequest>
  {
    if inputs == [] then []
    else
      var v := inputs[|inputs| - 1];
      Prompts(env, inputs[..|inputs| - 1]) + (if NeedsPrompt(env, v) then [PromptFor(v)] else [])
  }

  /** The outcome of resolving input variables: the Taskfile variables, the prompts shown, and the error that stopped it. */
  datatype InputResolution = InputResolution(vars: Vars, prompts: seq<PromptRequest>, err: Option<Error>)

  /** The input-variable loop of executeRecipeSteps, one variable at a time from `vars`. */
  function ResolveInputs(env: Environment, vars: Vars, inputs: seq<InputVariable>): InputResolution
  {
    if inputs == [] then InputResolution(vars, [], None)
    else
      var prior := ResolveInputs(env, vars, inputs[..|inputs| - 1]);
      var v := inputs[|inputs| - 1];
      if prior.err.Some? then prior
      else
        var shown := prior.prompts + (if NeedsPrompt(env, v) then [PromptFor(v)] else []);
        match Answer(env, v)
        case Failure(e) => InputResolution(prior.vars, shown, Some(e))
        case Success(s) => InputResolution(prior.vars[v.name := s], shown, None)
  }

  /**
    Without an error, the prompts shown are exactly one per unset variable in
    declaration order (none for a variable the environment sets).
   */
  lemma {:induction false} ResolveInputsPrompts(env: Environment, vars: Vars, inputs: seq<InputVariable>)
    requires ResolveInputs(env, vars, inputs).err.None?
    ensures ResolveInputs(env, vars, inputs).prompts == Prompts(env, inputs)
    ensures |ResolveInputs(env, vars, inputs).prompts| <= |inputs|
  {
    if inputs != [] {
      var init := inputs[..|inputs| - 1];
      var v := inputs[|inputs| - 1];
      var prior := ResolveInputs(env, vars, init);
      assert prior.err.None?;
      assert ResolveInputs(env, vars, inputs).prompts ==
        prior.prompts + (if NeedsPrompt(env, v) then [PromptFor(v)] else []);
      ResolveInputsPrompts(env, vars, init);
    }
  }

  /** Without an error, the earlier variables resolved without one and the last got a value. */
  lemma ResolveInputsLast(env: Environment, vars: Vars, inputs: seq<InputVariable>)
    requires inputs != [] && ResolveInputs(env, vars, inputs).err.None?
    ensures ResolveInputs(env, vars, inputs[..|inputs| - 1]).err.None?
    ensures Answer(env, inputs[|inputs| - 1]).Success?
  {
  }

  /** Without an error, every variable got a value: from the environment or from its prompt. */
  lemma {:induction false} ResolveInputsAnswered(env: Environment, vars: Vars, inputs: seq<InputVariable>, k: nat)
    requires ResolveInputs(env, vars, inputs).err.None?
    requires k < |inputs|
    ensures Answer(env, inputs[k]).Success?
  {
    var init := inputs[..|inputs| - 1];
    ResolveInputsLast(env, vars, inputs);
    if k < |init| {
      ResolveInputsAnswered(env, vars, init, k);
      assert init[k] == inputs[k];
    }
  }

  /** The names a list of input variables declares. */
  function NamesOf(inputs: seq<InputVariable>): set<string>
  {
    set v | v in inputs :: v.name
  }

  lemma NamesOfAppend(init: seq<InputVariable>, v: InputVariable)
    ensures NamesOf(init + [v]) == NamesOf(init) + {v.name}
  {
    assert forall w | w in init + [v] :: w in init || w == v;
  }

  /**
    Without an error, the variables are the starting ones plus one per declared name.
   */
  lemma {:induction false} ResolveInputsKeys(env: Environment, vars: Vars, inputs: seq<InputVariable>)
    requires ResolveInputs(env, vars, inputs).err.None?
    ensures ResolveInputs(env, vars, inputs).vars.Keys == vars.Keys + NamesOf(inputs)
  {
    if inputs != [] {
      var init := inputs[..|inputs| - 1];
      var v := inputs[|inputs| - 1];
      var prior := ResolveInputs(env, vars, init);
      assert prior.err.None?;
      assert ResolveInputs(env, vars, inputs).vars == prior.vars[v.name := Answer(env, v).value];
      ResolveInputsKeys(env, vars, init);
      assert inputs == init + [v];
      NamesOfAppend(init, v);
    }
  }

  /** A variable no input names keeps the value it had before. */
  lemma {:induction false} ResolveInputsKeepsOthers(env: Environment, vars: Vars, inputs: seq<InputVariable>, n: string)
    requires ResolveInputs(env, vars, inputs).err.None?
    requires n in vars && n !in NamesOf(inputs)
    ensures n in ResolveInputs(env, vars, inputs).vars && ResolveInputs(env, vars, inputs).vars[n] == vars[n]
  {
    if inputs != [] {
      var init := inputs[..|inputs| - 1];
      var v := inputs[|inputs| - 1];
      var prior := ResolveInputs(env, vars, init);
      assert prior.err.None?;
      assert ResolveInputs(env, vars, inputs).vars == prior.vars[v.name := Answer(env, v).value];
      assert inputs == init + [v];
      NamesOfAppend(init, v);
      ResolveInputsKeepsOthers(env, vars, init, n);
    }
  }

  /** When the names are distinct, each variable holds its own answer: the environment value or the prompt's. */
  lemma {:induction false} ResolveInputsValues(env: Environment, vars: Vars, inputs: seq<InputVariable>)
    requires ResolveInputs(env, vars, inputs).err.None?
    requires forall j, k | 0 <= j < k < |inputs| :: inputs[j].name != inputs[k].name
    ensures forall k | 0 <= k < |inputs| ::
      && inputs[k].name in ResolveInputs(env, vars, inputs).vars
      && Answer(env, inputs[k]) == Success(ResolveInputs(env, vars, inputs).vars[inputs[k].name])
  {
    if inputs != [] {
      var init := inputs[..|inputs| - 1];
      ResolveInputsValues(env, vars, init);
      assert forall k | 0 <= k < |init| :: init[k] == inputs[k];
    }
  }

  /** A variable the environment sets is never prompted for: if none is unset, nothing is prompted and nothing fails. */
  lemma {:induction false} EnvironmentSetMeansNoPrompt(env: Environment, vars: Vars, inputs: seq<InputVariable>)
    requires forall k | 0 <= k < |inputs| :: !NeedsPrompt(env, inputs[k])
    ensures ResolveInputs(env, vars, inputs).err.None?
    ensures ResolveInputs(env, vars, inputs).prompts == []
  {
    if inputs != [] {
      var init := inputs[..|inputs| - 1];
      assert forall k | 0 <= k < |init| :: init[k] == inputs[k];
      EnvironmentSetMeansNoPrompt(env, vars, init);
    }
  }

  /**
    An error comes from a prompt: the prompt of an unset variable failed, everything
    before it resolved, the error wraps the prompt's cause, and the prompts shown are
    those of the variables before it plus its own.
   */
  lemma {:induction false} ResolveInputsFails(env: Environment, vars: Vars, inputs: seq<InputVariable>)
    requires ResolveInputs(env, vars, inputs).err.Some?
    ensures var res := ResolveInputs(env, vars, inputs);
      exists m | 0 <= m < |inputs| ::
        && ResolveInputs(env, vars, inputs[..m]).err.None?
        && NeedsPrompt(env, inputs[m])
        && env.prompt(PromptFor(inputs[m])).Failure?
        && res.err == Some(PromptFailed(env.prompt(PromptFor(inputs[m])).error))
        && res.prompts == Prompts(env, inputs[..m]) + [PromptFor(inputs[m])]
  {
    var init := inputs[..|inputs| - 1];
    var prior := ResolveInputs(env, vars, init);
    if prior.err.Some? {
      ResolveInputsFails(env, vars, init);
      var m :| 0 <= m < |init|
        && ResolveInputs(env, vars, init[..m]).err.None?
        && NeedsPrompt(env, init[m])
        && env.prompt(PromptFor(init[m])).Failure?
        && prior.err == Some(PromptFailed(env.prompt(PromptFor(init[m])).error))
        && prior.prompts == Prompts(env, init[..m]) + [PromptFor(init[m])];
      assert init[..m] == inputs[..m];
      assert init[m] == inputs[m];
    } else {
      ResolveInputsPrompts(env, vars, init);
      assert inputs[..|inputs| - 1] == init;
    }
  }

  /** Once a prompt fails, the later variables are never looked at. */
  lemma {:induction false} ResolveInputsPrefixFailure(env: Environment, vars: Vars, inputs: seq<InputVariable>, n: nat)
    requires n <= |inputs|
    requires ResolveInputs(env, vars, inputs[..n]).err.Some?
    ensures ResolveInputs(env, vars, inputs) == ResolveInputs(env, vars, inputs[..n])
  {
    if n < |inputs| {
      assert inputs[..|inputs| - 1][..n] == inputs[..n];
      ResolveInputsPrefixFailure(env, vars, inputs[..|inputs| - 1], n);
    } else {
      assert inputs[..n] == inputs;
    }
  }

  // ---------------------------------------------------------------------------
  // executeRecipeSteps

  /** What executing one recipe does: its error, the prompts it showed, and the variables it ran its tasks with, if it got that far. */
  datatype StepsOutcome = StepsOutcome(err: Option<Error>, prompts: seq<PromptRequest>, ran: Option<Vars>)

  /** executeRecipeSteps as a function of its collaborators. */
  function ExecuteSteps(env: Environment, r: StepRecipe): StepsOutcome
  {
    match env.prepare(r.install)
    case Failure(e) => StepsOutcome(Some(e), [], None)
    case Success(fileVars) =>
      if env.licenseKey == "" then StepsOutcome(Some(LicenseKeyNotFound), [], None)
      else
        var withKey := (fileVars + env.globals)[LicenseKeyVar := env.licenseKey];
        var res := ResolveInputs(env, withKey, r.inputVars);
        if res.err.Some? then StepsOutcome(res.err, res.prompts, None)
        else StepsOutcome(env.run(res.vars), res.prompts, Some(res.vars))
  }

  /**
    executeRecipeSteps: a preparation error is returned at once; an empty licence key
    is an error before any input variable is looked at; the input variables are
    resolved in order and a failed prompt stops the loop; the recipe's tasks run with the
    resolved variables and their error is returned.
   */
  method ExecuteRecipeSteps(env: Environment, r: StepRecipe) returns (err: Option<Error>, prompts: seq<PromptRequest>, ran: Option<Vars>)
    ensures StepsOutcome(err, prompts, ran) == ExecuteSteps(env, r)
  {
    prompts, ran := [], None;
    var prepared := env.prepare(r.install);
    if prepared.Failure? {
      return Some(prepared.error), prompts, ran;
    }
    var vars := prepared.value + env.globals;

    err := None;
    var licenseKey := env.licenseKey;
    if licenseKey == "" {
      err := Some(LicenseKeyNotFound);
    }
    vars := vars[LicenseKeyVar := licenseKey];
    if err.Some? {
      return err, prompts, ran;
    }

    ghost var start := vars;
    var inputs := r.inputVars;
    for k := 0 to |inputs|
      invariant InputResolution(vars, prompts, None) == ResolveInputs(env, start, inputs[..k])
    {
      assert inputs[..k + 1][..k] == inputs[..k];
      var v := inputs[k];
      var envValue := env.getenv(v.name);
      var value := envValue;
      if envValue == "" {
        var request := PromptFor(v);
        prompts := prompts + [request];
        var result := env.prompt(request);
        if result.Failure? {
          ResolveInputsPrefixFailure(env, start, inputs, k + 1);
          return Some(PromptFailed(result.error)), prompts, None;
        }
        value := result.value;
      }
      vars := vars[v.name := value];
    }
    assert inputs[..|inputs|] == inputs;

    err := env.run(vars);
    ran := Some(vars);
  }

  /** A missing licence key stops the recipe before any prompt and before the recipe's tasks run. */
  lemma MissingLicenseKeyStopsEarly(env: Environment, r: StepRecipe)
    requires env.prepare(r.install).Success? && env.licenseKey == ""
    ensures ExecuteSteps(env, r) == StepsOutcome(Some(LicenseKeyNotFound), [], None)
  {
  }

  /**
    When the recipe's tasks run, they see the licence key (unless an input variable of the
    same name replaces it), every input variable, and the command-line globals
    over the Taskfile's own variables.
   */
  lemma RunSeesResolvedVars(env: Environment, r: StepRecipe)
    requires ExecuteSteps(env, r).ran.Some?
    ensures env.prepare(r.install).Success? && env.licenseKey != ""
    ensures var vars := ExecuteSteps(env, r).ran.value;
      && vars.Keys == env.prepare(r.install).value.Keys + env.globals.Keys + {LicenseKeyVar} + NamesOf(r.inputVars)
      && (LicenseKeyVar !in NamesOf(r.inputVars) ==> vars[LicenseKeyVar] == env.licenseKey)
      && (forall n | n in env.globals && n != LicenseKeyVar && n !in NamesOf(r.inputVars) :: vars[n] == env.globals[n])
  {
    var withKey := (env.prepare(r.install).value + env.globals)[LicenseKeyVar := env.licenseKey];
    ResolveInputsKeys(env, withKey, r.inputVars);
    if LicenseKeyVar !in NamesOf(r.inputVars) {
      ResolveInputsKeepsOthers(env, withKey, r.inputVars, LicenseKeyVar);
    }
    forall n | n in env.globals && n != LicenseKeyVar && n !in NamesOf(r.inputVars)
      ensures ExecuteSteps(env, r).ran.value[n] == env.globals[n]
    {
      ResolveInputsKeepsOthers(env, withKey, r.inputVars, n);
    }
  }

  /** A failed prompt stops the recipe: its error is "prompt failed" with the cause, and its tasks do not run. */
  lemma PromptFailureStopsRecipe(env: Environment, r: StepRecipe)
    requires env.prepare(r.install).Success? && env.licenseKey != ""
    requires ExecuteSteps(env, r).ran.None?
    ensures ExecuteSteps(env, r).err.Some? && ExecuteSteps(env, r).err.value.PromptFailed?
  {
    var withKey := (env.prepare(r.install).value + env.globals)[LicenseKeyVar := env.licenseKey];
    ResolveInputsFails(env, withKey, r.inputVars);
  }

  // ---------------------------------------------------------------------------
  // install

  /**
    install: a discovery error or a fetch error is returned before any recipe is
    executed; otherwise the recipes are executed in order and the first one that fails
    stops the rest, its error returned. `executed` lists the recipes executed.
   */
  method Install<M>(configFiles: seq<string>, discover: Result<M, Error>,
                    fetch: (seq<string>, M) -> Result<seq<StepRecipe>, Error>, env: Environment)
    returns (err: Option<Error>, executed: seq<StepRecipe>)
    ensures discover.Failure? ==> err == Some(discover.error) && executed == []
    ensures discover.Success? && fetch(configFiles, discover.value).Failure? ==>
      err == Some(fetch(configFiles, discover.value).error) && executed == []
    ensures discover.Success? && fetch(configFiles, discover.value).Success? ==>
      var recipes := fetch(configFiles, discover.value).value;
      && |executed| <= |recipes| && executed == recipes[..|executed|]
      && (forall j | 0 <= j < |executed| - 1 :: ExecuteSteps(env, executed[j]).err.None?)
      && (err.None? ==> executed == recipes && forall j | 0 <= j < |recipes| :: ExecuteSteps(env, recipes[j]).err.None?)
      && (err.Some? ==> executed != [] && err == ExecuteSteps(env, executed[|executed| - 1]).err)
  {
    executed := [];
    if discover.Failure? {
      return Some(discover.error), executed;
    }
    var manifest := discover.value;
    var fetched := fetch(configFiles, manifest);
    if fetched.Failure? {
      return Some(fetched.error), executed;
    }
    var recipes := fetched.value;
    for i := 0 to |recipes|
      invariant executed == recipes[..i]
      invariant forall j | 0 <= j < i :: ExecuteSteps(env, recipes[j]).err.None?
    {
      var stepErr, _, _ := ExecuteRecipeSteps(env, recipes[i]);
      executed := executed + [recipes[i]];
      if stepErr.Some? {
        return stepErr, executed;
      }
    }
    assert recipes[..|recipes|] == recipes;
    return None, executed;
  }
}
