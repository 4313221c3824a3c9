/** Properties of `GenerateModel` that relate several of its facts or several
    of its runs: all-or-nothing failure, the naming policy, and which
    arguments do not matter.
 */
module GenerationProperties {
  import opened Scaffolding
  import opened Paths
  import opened CSharpModelGenerator

  /** The specification of a successful run leaves no freedom: two scaffolds
      that both meet it are the same. */
  lemma ScaffoldIsUnique(g: Generator, s: Services, a: Arguments, m1: ScaffoldedModel, m2: ScaffoldedModel)
    requires Acceptable(a)
    requires IsScaffoldOf(g, s, a, m1) && IsScaffoldOf(g, s, a, m2)
    ensures m1 == m2
  {
  }

  /** If the DbContext generator throws, its exception is the result and the
      entity type generator is never called. */
  lemma ContextFailureStopsRun(g: Generator, s: Services, a: Arguments)
    requires Acceptable(a)
    requires g.dbContextGenerator(ContextRequestFor(a)).Failure?
    ensures GenerateModel(g, s, a)
         == Run(Failure(g.dbContextGenerator(ContextRequestFor(a)).error), [ContextCall(ContextRequestFor(a))])
  {
  }

  /** If the entity type generator throws for the entity type at index `k`
      while everything before it succeeded, the run fails with that exception
      after exactly the context call and the first `k + 1` entity calls. */
  lemma EntityFailureStopsRun(g: Generator, s: Services, a: Arguments, k: nat)
    requires Acceptable(a)
    requires g.dbContextGenerator(ContextRequestFor(a)).Success?
    requires k < |a.model.value.entityTypes|
    requires forall j :: 0 <= j < k ==>
      EntityCode(g, a.model.value.entityTypes[j], a.modelNamespace.value, a.options.value.useDataAnnotations).Success?
    requires EntityCode(g, a.model.value.entityTypes[k], a.modelNamespace.value, a.options.value.useDataAnnotations).Failure?
    ensures GenerateModel(g, s, a).calls == Schedule(a)[..k + 2]
    ensures GenerateModel(g, s, a).outcome
         == Failure(EntityCode(g, a.model.value.entityTypes[k], a.modelNamespace.value, a.options.value.useDataAnnotations).error)
  {
  }

  /** Every path the generator produces ends with the `.cs` extension: the
      entity files always, the context file whenever the platform join keeps
      the file name at the end of the path. */
  lemma AllPathsHaveExtension(g: Generator, s: Services, a: Arguments)
    requires GenerateModel(g, s, a).outcome.Success?
    ensures KeepsFileName(s.joinPath) ==> EndsWith(GenerateModel(g, s, a).outcome.value.contextFile.path, FileExtension)
    ensures forall f :: f in GenerateModel(g, s, a).outcome.value.additionalFiles ==> EndsWith(f.path, FileExtension)
  {
  }

  /** An empty context directory passes validation when every other checked
      argument does, and the context file is then the bare `contextName + ".cs"`. */
  lemma EmptyContextDirAccepted(g: Generator, s: Services, a: Arguments)
    requires a.contextDir == Some("")
    requires a.model.Some? && NonEmpty(a.modelNamespace) && NonEmpty(a.contextNamespace)
    requires NonEmpty(a.contextName) && NonEmpty(a.connectionString) && a.options.Some?
    ensures CheckArguments(a).None?
    ensures GenerateModel(g, s, a).calls != []
    ensures GenerateModel(g, s, a).outcome.Success? ==>
      GenerateModel(g, s, a).outcome.value.contextFile.path == a.contextName.value + FileExtension
  {
  }

  /** The entity files do not depend on the context directory: it places the
      context file only. */
  lemma EntityFilesIgnoreContextDir(g: Generator, s: Services, a: Arguments, dir: string)
    requires a.contextDir.Some?
    ensures var other := GenerateModel(g, s, a.(contextDir := Some(dir)));
      && GenerateModel(g, s, a).calls == other.calls
      && GenerateModel(g, s, a).outcome.Success? == other.outcome.Success?
      && (other.outcome.Success? ==>
            GenerateModel(g, s, a).outcome.value.additionalFiles == other.outcome.value.additionalFiles)
  {
  }

  /** The root namespace is never read: any value, null included, gives the
      same run. */
  lemma RootNamespaceIgnored(g: Generator, s: Services, a: Arguments, rootNamespace: Option<string>)
    ensures GenerateModel(g, s, a.(rootNamespace := rootNamespace)) == GenerateModel(g, s, a)
  {
  }

  /** A worked instance: a model enumerating `Blog` then `Post`, the context
      directory `Models`, a join that puts a `/` between directory and name,
      and generators that always succeed, give the context file
      `Models/AppDbContext.cs` and the bare entity files `Blog.cs` then
      `Post.cs`. */
  lemma BlogPostExample(contextCode: string, entityCode: string)
    ensures var g := Generator(_ => Success(contextCode), _ => Success(entityCode));
      var s := Services((e: EntityType) => e.name, (dir: string, name: string) => dir + "/" + name);
      var a := Arguments(Some(Model([EntityType("Blog"), EntityType("Post")])), None, Some("App.Models"),
                         Some("App"), Some("Models"), Some("AppDbContext"), Some("Server=."),
                         Some(ModelCodeGenerationOptions(false, false)));
      GenerateModel(g, s, a).outcome == Success(ScaffoldedModel(
        ScaffoldedFile("Models/AppDbContext.cs", contextCode),
        [ScaffoldedFile("Blog.cs", entityCode), ScaffoldedFile("Post.cs", entityCode)]))
  {
    var g := Generator(_ => Success(contextCode), _ => Success(entityCode));
    var s := Services((e: EntityType) => e.name, (dir: string, name: string) => dir + "/" + name);
    var a := Arguments(Some(Model([EntityType("Blog"), EntityType("Post")])), None, Some("App.Models"),
                       Some("App"), Some("Models"), Some("AppDbContext"), Some("Server=."),
                       Some(ModelCodeGenerationOptions(false, false)));
    var expected := ScaffoldedModel(
      ScaffoldedFile("Models/AppDbContext.cs", contextCode),
      [ScaffoldedFile("Blog.cs", entityCode), ScaffoldedFile("Post.cs", entityCode)]);
    assert Acceptable(a);
    forall k | 0 <= k < |Schedule(a)|
      ensures Answer(g, Schedule(a)[k]).Success?
    {
    }
    var m := GenerateModel(g, s, a).outcome.value;
    assert "Blog" + FileExtension == "Blog.cs";
    assert "Post" + FileExtension == "Post.cs";
    assert "Models" + "/" + ("AppDbContext" + FileExtension) == "Models/AppDbContext.cs";
    assert IsScaffoldOf(g, s, a, expected);
    ScaffoldIsUnique(g, s, a, m, expected);
  }
}
