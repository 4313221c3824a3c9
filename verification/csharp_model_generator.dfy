/** The C# model generator: validates its arguments, asks the DbContext
    generator for the context class, asks the entity type generator for one
    class per entity type, and names and places the resulting files.
 */
module CSharpModelGenerator {
  import opened Scaffolding
  import opened Paths

  /** The extension of every file this generator names. */
  const FileExtension: string := ".cs"

  /** A constructed generator: its two (non-null) collaborators. */
  datatype Generator = Generator(dbContextGenerator: DbContextGenerator, entityTypeGenerator: EntityTypeGenerator)

  /** The constructor: either collaborator being null is an `ArgumentNull`
      naming it, the DbContext generator checked first. */
  function New(dbContextGenerator: Option<DbContextGenerator>, entityTypeGenerator: Option<EntityTypeGenerator>)
    : (r: Result<Generator>)
    ensures r.Success? <==> dbContextGenerator.Some? && entityTypeGenerator.Some?
    ensures r.Success? ==>
      r.value.dbContextGenerator == dbContextGenerator.value && r.value.entityTypeGenerator == entityTypeGenerator.value
    ensures dbContextGenerator.None? ==> r == Failure(ArgumentNull("cSharpDbContextGenerator"))
    ensures dbContextGenerator.Some? && entityTypeGenerator.None? ==> r == Failure(ArgumentNull("cSharpEntityTypeGenerator"))
  {
    if dbContextGenerator.None? then Failure(ArgumentNull("cSharpDbContextGenerator"))
    else if entityTypeGenerator.None? then Failure(ArgumentNull("cSharpEntityTypeGenerator"))
    else Success(Generator(dbContextGenerator.value, entityTypeGenerator.value))
  }

  // ---------------------------------------------------------------------------
  // Argument validation
  // ---------------------------------------------------------------------------

  /** The parameters `GenerateModel` checks (`rootNamespace` is not one of them). */
  datatype Parameter =
    | ModelParam
    | ModelNamespaceParam
    | ContextNamespaceParam
    | ContextDirParam
    | ContextNameParam
    | ConnectionStringParam
    | OptionsParam
  {
    /** The name the exception reports for this parameter. */
    function Name(): string {
      match this
      case ModelParam => "model"
      case ModelNamespaceParam => "modelNamespace"
      case ContextNamespaceParam => "contextNamespace"
      case ContextDirParam => "contextDir"
      case ContextNameParam => "contextName"
      case ConnectionStringParam => "connectionString"
      case OptionsParam => "options"
    }
  }

  /** The order in which the parameters are checked. */
  const CheckOrder: seq<Parameter> :=
    [ModelParam, ModelNamespaceParam, ContextNamespaceParam, ContextDirParam,
     ContextNameParam, ConnectionStringParam, OptionsParam]

  /** A string argument that is present and not empty. */
  predicate NonEmpty(s: Option<string>) {
    s.Some? && |s.value| > 0
  }

  /** The arguments `GenerateModel` accepts: the model, the context directory
      and the options must not be null; the model namespace, context
      namespace, context name and connection string must not be null or
      empty. The context directory may be empty, and the root namespace is
      unconstrained. */
  predicate Acceptable(a: Arguments) {
    && a.model.Some?
    && NonEmpty(a.modelNamespace)
    && NonEmpty(a.contextNamespace)
    && a.contextDir.Some?
    && NonEmpty(a.contextName)
    && NonEmpty(a.connectionString)
    && a.options.Some?
  }

  /** The exception one parameter's own rule raises, if any: a null-only rule
      for the model, context directory and options, a null-or-empty rule for
      the four strings. */
  function Violation(a: Arguments, p: Parameter): Option<Exception> {
    match p
    case ModelParam => if a.model.None? then Some(ArgumentNull(p.Name())) else None
    case ContextDirParam => if a.contextDir.None? then Some(ArgumentNull(p.Name())) else None
    case OptionsParam => if a.options.None? then Some(ArgumentNull(p.Name())) else None
    case ModelNamespaceParam => EmptinessViolation(a.modelNamespace, p)
    case ContextNamespaceParam => EmptinessViolation(a.contextNamespace, p)
    case ContextNameParam => EmptinessViolation(a.contextName, p)
    case ConnectionStringParam => EmptinessViolation(a.connectionString, p)
  }

  function EmptinessViolation(s: Option<string>, p: Parameter): Option<Exception> {
    if s.None? then Some(ArgumentNull(p.Name()))
    else if |s.value| == 0 then Some(ArgumentEmpty(p.Name()))
    else None
  }

  /** The argument checks of `GenerateModel`, run one after the other; the
      first that fails decides the exception. */
  function CheckArguments(a: Arguments): (r: Option<Exception>)
    ensures r.None? <==> Acceptable(a)
    ensures r.Some? ==>
      exists i :: 0 <= i < |CheckOrder| && Violation(a, CheckOrder[i]) == r
        && forall j :: 0 <= j < i ==> Violation(a, CheckOrder[j]).None?
  {
    if a.model.None? then
      assert Violation(a, CheckOrder[0]) == Some(ArgumentNull("model"));
      Some(ArgumentNull("model"))
    else if a.modelNamespace.None? then
      assert Violation(a, CheckOrder[1]) == Some(ArgumentNull("modelNamespace"));
      Some(ArgumentNull("modelNamespace"))
    else if |a.modelNamespace.value| == 0 then
      assert Violation(a, CheckOrder[1]) == Some(ArgumentEmpty("modelNamespace"));
      Some(ArgumentEmpty("modelNamespace"))
    else if a.contextNamespace.None? then
      assert Violation(a, CheckOrder[2]) == Some(ArgumentNull("contextNamespace"));
      Some(ArgumentNull("contextNamespace"))
    else if |a.contextNamespace.value| == 0 then
      assert Violation(a, CheckOrder[2]) == Some(ArgumentEmpty("contextNamespace"));
      Some(ArgumentEmpty("contextNamespace"))
    else if a.contextDir.None? then
      assert Violation(a, CheckOrder[3]) == Some(ArgumentNull("contextDir"));
      Some(ArgumentNull("contextDir"))
    else if a.contextName.None? then
      assert Violation(a, CheckOrder[4]) == Some(ArgumentNull("contextName"));
      Some(ArgumentNull("contextName"))
    else if |a.contextName.value| == 0 then
      assert Violation(a, CheckOrder[4]) == Some(ArgumentEmpty("contextName"));
      Some(ArgumentEmpty("contextName"))
    else if a.connectionString.None? then
      assert Violation(a, CheckOrder[5]) == Some(ArgumentNull("connectionString"));
      Some(ArgumentNull("connectionString"))
    else if |a.connectionString.value| == 0 then
      assert Violation(a, CheckOrder[5]) == Some(ArgumentEmpty("connectionString"));
      Some(ArgumentEmpty("connectionString"))
    else if a.options.None? then
      assert Violation(a, CheckOrder[6]) == Some(ArgumentNull("options"));
      Some(ArgumentNull("options"))
    else
      None
  }

  // ---------------------------------------------------------------------------
  // Reference definitions of what a successful run produces
  // ---------------------------------------------------------------------------

  /** The single request made of the DbContext generator. */
  function ContextRequestFor(a: Arguments): ContextRequest
    requires Acceptable(a)
  {
    var options := a.options.value;
    ContextRequest(a.model.value, a.contextNamespace.value, a.contextName.value, a.connectionString.value,
                   options.useDataAnnotations, options.suppressConnectionStringWarning)
  }

  /** The entity type generator's answer for one entity type. */
  function EntityCode(g: Generator, e: EntityType, modelNamespace: string, useDataAnnotations: bool): Result<string> {
    g.entityTypeGenerator(EntityRequest(e, modelNamespace, useDataAnnotations))
  }

  /** The collaborator's answer to a call. */
  function Answer(g: Generator, c: Call): Result<string> {
    match c
    case ContextCall(req) => g.dbContextGenerator(req)
    case EntityCall(req) => g.entityTypeGenerator(req)
  }

  /** One entity type call per entity type, in the model's order. */
  function EntitySchedule(entityTypes: seq<EntityType>, modelNamespace: string, useDataAnnotations: bool): (calls: seq<Call>)
    ensures |calls| == |entityTypes|
  {
    seq(|entityTypes|, k requires 0 <= k < |entityTypes| =>
      EntityCall(EntityRequest(entityTypes[k], modelNamespace, useDataAnnotations)))
  }

  /** Every call a complete run makes: the context call first, then the
      entity type calls. */
  function Schedule(a: Arguments): (calls: seq<Call>)
    requires Acceptable(a)
  {
    [ContextCall(ContextRequestFor(a))]
      + EntitySchedule(a.model.value.entityTypes, a.modelNamespace.value, a.options.value.useDataAnnotations)
  }

  /** `m` is what scaffolding must produce for these arguments: the context
      file at `Combine(contextDir, contextName + ".cs")` holding the DbContext
      generator's text, then exactly one file per entity type, in the model's
      order, at the bare path `DisplayName + ".cs"` holding that entity type's
      generated text. */
  ghost predicate IsScaffoldOf(g: Generator, s: Services, a: Arguments, m: ScaffoldedModel)
    requires Acceptable(a)
  {
    var entityTypes := a.model.value.entityTypes;
    && m.contextFile.path == Combine(s.joinPath, a.contextDir.value, a.contextName.value + FileExtension)
    && g.dbContextGenerator(ContextRequestFor(a)) == Success(m.contextFile.code)
    && |m.additionalFiles| == |entityTypes|
    && forall k :: 0 <= k < |entityTypes| ==>
         && m.additionalFiles[k].path == s.displayName(entityTypes[k]) + FileExtension
         && EntityCode(g, entityTypes[k], a.modelNamespace.value, a.options.value.useDataAnnotations)
              == Success(m.additionalFiles[k].code)
  }

  // ---------------------------------------------------------------------------
  // GenerateModel
  // ---------------------------------------------------------------------------

  /** The entity files and the calls made while writing them. */
  datatype EntityRun = EntityRun(files: Result<seq<ScaffoldedFile>>, calls: seq<Call>)

  /** The `foreach` over the entity types: one generator call and one file per
      entity type, stopping at the first exception. */
  function WriteEntityFiles(g: Generator, s: Services, entityTypes: seq<EntityType>, modelNamespace: string,
                            useDataAnnotations: bool): (r: EntityRun)
    ensures |r.calls| <= |entityTypes|
    ensures r.calls == EntitySchedule(entityTypes, modelNamespace, useDataAnnotations)[..|r.calls|]
    ensures forall k :: 0 <= k < |r.calls| - 1 ==> EntityCode(g, entityTypes[k], modelNamespace, useDataAnnotations).Success?
    ensures r.files.Success? <==>
      forall k :: 0 <= k < |entityTypes| ==> EntityCode(g, entityTypes[k], modelNamespace, useDataAnnotations).Success?
    ensures r.files.Success? ==>
      && |r.calls| == |entityTypes|
      && |r.files.value| == |entityTypes|
      && forall k :: 0 <= k < |entityTypes| ==>
           && r.files.value[k].path == s.displayName(entityTypes[k]) + FileExtension
           && EntityCode(g, entityTypes[k], modelNamespace, useDataAnnotations) == Success(r.files.value[k].code)
    ensures r.files.Failure? ==>
      && 0 < |r.calls|
      && EntityCode(g, entityTypes[|r.calls| - 1], modelNamespace, useDataAnnotations) == Failure(r.files.error)
    decreases |entityTypes|
  {
    if |entityTypes| == 0 then
      EntityRun(Success([]), [])
    else
      var request := EntityRequest(entityTypes[0], modelNamespace, useDataAnnotations);
      match g.entityTypeGenerator(request)
      case Failure(e) => EntityRun(Failure(e), [EntityCall(request)])
      case Success(code) =>
        var file := ScaffoldedFile(s.displayName(entityTypes[0]) + FileExtension, code);
        var rest := WriteEntityFiles(g, s, entityTypes[1..], modelNamespace, useDataAnnotations);
        var files := match rest.files
          case Success(fs) => Success([file] + fs)
          case Failure(e) => Failure(e);
        EntityRun(files, [EntityCall(request)] + rest.calls)
  }

  /** `GenerateModel`: validate, write the context file, then one file per
      entity type. Exceptions from either collaborator end the run and are
      passed on unchanged. */
  function GenerateModel(g: Generator, s: Services, a: Arguments): (run: Run)
    // A rejected argument is reported before any collaborator is called.
    ensures !Acceptable(a) ==> run.calls == [] && run.outcome.Failure? && CheckArguments(a) == Some(run.outcome.error)
    // Otherwise the calls made are a non-empty prefix of the full schedule,
    // so the context generator is called first and exactly once.
    ensures Acceptable(a) ==> 0 < |run.calls| <= |Schedule(a)| && run.calls == Schedule(a)[..|run.calls|]
    // Every call but the last succeeded; a failed run fails with the last call's exception.
    ensures forall k :: 0 <= k < |run.calls| - 1 ==> Answer(g, run.calls[k]).Success?
    ensures run.outcome.Failure? && 0 < |run.calls| ==>
      Answer(g, run.calls[|run.calls| - 1]) == Failure(run.outcome.error)
    ensures run.outcome.Success? <==>
      Acceptable(a) && forall k :: 0 <= k < |Schedule(a)| ==> Answer(g, Schedule(a)[k]).Success?
    ensures run.outcome.Success? ==> run.calls == Schedule(a) && IsScaffoldOf(g, s, a, run.outcome.value)
  {
    match CheckArguments(a)
    case Some(e) => Run(Failure(e), [])
    case None =>
      var request := ContextRequestFor(a);
      match g.dbContextGenerator(request)
      case Failure(e) => Run(Failure(e), [ContextCall(request)])
      case Success(code) =>
        var contextFile := ScaffoldedFile(Combine(s.joinPath, a.contextDir.value, a.contextName.value + FileExtension), code);
        var entities := WriteEntityFiles(g, s, a.model.value.entityTypes, a.modelNamespace.value,
                                         a.options.value.useDataAnnotations);
        var outcome := match entities.files
          case Success(files) => Success(ScaffoldedModel(contextFile, files))
          case Failure(e) => Failure(e);
        Run(outcome, [ContextCall(request)] + entities.calls)
  }

  /** The same operation written as the source writes it: a result built up
      by a `foreach` loop over the entity types, returning as soon as a
      collaborator throws. */
  method GenerateModelLoop(g: Generator, s: Services, a: Arguments) returns (run: Run)
    ensures run == GenerateModel(g, s, a)
  {
    var rejected := CheckArguments(a);
    if rejected.Some? {
      return Run(Failure(rejected.value), []);
    }
    var modelNamespace := a.modelNamespace.value;
    var useDataAnnotations := a.options.value.useDataAnnotations;
    var request := ContextRequestFor(a);
    var calls := [ContextCall(request)];
    var generatedCode := g.dbContextGenerator(request);
    if generatedCode.Failure? {
      return Run(Failure(generatedCode.error), calls);
    }
    var contextFile := ScaffoldedFile(Combine(s.joinPath, a.contextDir.value, a.contextName.value + FileExtension),
                                      generatedCode.value);

    var entityTypes := a.model.value.entityTypes;
    ghost var schedule := EntitySchedule(entityTypes, modelNamespace, useDataAnnotations);
    var additionalFiles: seq<ScaffoldedFile> := [];
    var i := 0;
    while i < |entityTypes|
      invariant 0 <= i <= |entityTypes|
      invariant calls == [ContextCall(request)] + schedule[..i]
      invariant forall k :: 0 <= k < i ==> EntityCode(g, entityTypes[k], modelNamespace, useDataAnnotations).Success?
      invariant |additionalFiles| == i
      invariant forall k :: 0 <= k < i ==>
        && additionalFiles[k].path == s.displayName(entityTypes[k]) + FileExtension
        && EntityCode(g, entityTypes[k], modelNamespace, useDataAnnotations) == Success(additionalFiles[k].code)
    {
      var entityRequest := EntityRequest(entityTypes[i], modelNamespace, useDataAnnotations);
      calls := calls + [EntityCall(entityRequest)];
      assert schedule[..i + 1] == schedule[..i] + [EntityCall(entityRequest)];
      generatedCode := g.entityTypeGenerator(entityRequest);
      if generatedCode.Failure? {
        ghost var written := WriteEntityFiles(g, s, entityTypes, modelNamespace, useDataAnnotations);
        assert |written.calls| == i + 1;
        return Run(Failure(generatedCode.error), calls);
      }
      additionalFiles := additionalFiles + [ScaffoldedFile(s.displayName(entityTypes[i]) + FileExtension, generatedCode.value)];
      i := i + 1;
    }
    ghost var written := WriteEntityFiles(g, s, entityTypes, modelNamespace, useDataAnnotations);
    assert written.files.value == additionalFiles;
    assert schedule[..i] == schedule;
    return Run(Success(ScaffoldedModel(contextFile, additionalFiles)), calls);
  }
}
