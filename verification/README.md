# C# model generator of the EF Core scaffolder, in Dafny

This project models `CSharpModelGenerator`, the orchestrator at the heart of
Entity Framework Core's reverse-engineering ("scaffolding") pipeline. Given a
logical model and naming options, `GenerateModel` validates its arguments, asks
the DbContext generator once for the context class, asks the entity type
generator once per entity type for that entity's class, and returns a
`ScaffoldedModel`. The result holds one distinguished context file at
`Path.Combine(contextDir, contextName + ".cs")` and one additional file per
entity type, in the model's order, at the bare path `DisplayName + ".cs"`.

Layout:

- `scaffolding.dfy` (module `Scaffolding`): the values involved. These are the
  model and its entity types, the options, the requests sent to the two
  collaborators, the record of calls made, and the scaffolded files.
- `paths.dfy` (module `Paths`): the `.cs` suffix predicate and an abstract
  `Path.Combine`.
- `csharp_model_generator.dfy` (module `CSharpModelGenerator`): the
  constructor, the argument checks, `GenerateModel` as a function, and
  `GenerateModelLoop`, the same operation as a `foreach` loop. The loop is
  proved equal to the function.
- `properties.dfy` (module `GenerationProperties`): lemmas relating runs,
  covering all-or-nothing failure, naming, and the arguments that do not matter,
  plus a worked two-entity instance. Most of these lemmas are direct
  corollaries of `GenerateModel`'s contract.

Modelling choices:

- A C# null is `Option.None`.
- An exception is the `Failure` arm of `Result`.
- The two code generators are arbitrary functions from their request to
  `Result<string>`, so they may also throw. `DisplayName` and the platform's
  directory join are arbitrary functions too, held in `Services`.
- Every run records the collaborator calls it made, in order (`Run.calls`).
  This record is what states "no collaborator is called before validation
  passes", "the context generator is called first and once", and "the run
  stops at the first exception".
- `Path.Combine(dir, name)` is `name` when `dir` is empty. Otherwise it is
  the abstract `joinPath(dir, name)`. The `.cs` suffix of the context path is
  proved only under `KeepsFileName`, which assumes that join keeps the file
  name at the end of the path.
- `GenerateModel` is a Dafny function, so two calls with the same inputs and
  the same collaborators give the same result by construction.

## Model

| member | source | states |
|---|---|---|
| CSharpModelGenerator.New | src/EFCore.Design/Scaffolding/Internal/CSharpModelGenerator.cs:41-52 | Construction succeeds exactly when both generators are non-null, and then stores them. A null DbContext generator is reported first as `ArgumentNull("cSharpDbContextGenerator")`. Otherwise a null entity type generator is reported as `ArgumentNull("cSharpEntityTypeGenerator")`. |
| CSharpModelGenerator.CheckArguments | src/EFCore.Design/Scaffolding/Internal/CSharpModelGenerator.cs:80-86 | Validation passes exactly for `Acceptable` arguments: model, contextDir and options non-null; modelNamespace, contextNamespace, contextName and connectionString non-null and non-empty. contextDir may be empty and rootNamespace is unconstrained. A failure is the violation of the earliest parameter in source order that breaks its own rule, with every earlier parameter passing. |
| CSharpModelGenerator.WriteEntityFiles | src/EFCore.Design/Scaffolding/Internal/CSharpModelGenerator.cs:100-112 | The loop's calls are a prefix of one entity call per entity type, in order. It succeeds iff every entity type's generation succeeds. It then yields exactly one file per entity type, with the k-th at `DisplayName(e_k) + ".cs"` holding `e_k`'s generated code. On failure it ends with the first failing entity type's exception. |
| CSharpModelGenerator.GenerateModel | src/EFCore.Design/Scaffolding/Internal/CSharpModelGenerator.cs:70-115 | Rejected arguments fail with the validation exception, with no collaborator called. Otherwise the calls made are a non-empty prefix of the schedule: the context call, then one entity call per entity type in order. Every call but the last succeeded, and a failure carries the last call's exception unchanged. The run succeeds iff every scheduled call succeeds. A success satisfies `IsScaffoldOf`: the context file at `Combine(contextDir, contextName + ".cs")` with the context generator's text, then exactly one bare-named file per entity type in order. |
| CSharpModelGenerator.GenerateModelLoop | src/EFCore.Design/Scaffolding/Internal/CSharpModelGenerator.cs:88-114 | The imperative `foreach` version, with its result built file by file, returns exactly what `GenerateModel` returns. |
| Paths.Combine | src/EFCore.Design/Scaffolding/Internal/CSharpModelGenerator.cs:96 | With an empty directory the path is the bare file name. Under a join that keeps the name, the path ends with the file name. |
| GenerationProperties.ScaffoldIsUnique | src/EFCore.Design/Scaffolding/Internal/CSharpModelGenerator.cs:88-112 | The success specification `IsScaffoldOf` fixes the scaffold completely: no two different results meet it. |
| GenerationProperties.ContextFailureStopsRun | src/EFCore.Design/Scaffolding/Internal/CSharpModelGenerator.cs:90-100 | If the DbContext generator throws, the run fails with that exception. The context call is then the only call, and the entity type generator is never invoked. |
| GenerationProperties.EntityFailureStopsRun | src/EFCore.Design/Scaffolding/Internal/CSharpModelGenerator.cs:100-112 | Suppose the entity type generator throws for entity k and everything before it succeeded. Then the run fails with that exception after exactly the context call and entity calls 0..k, and no result is returned. |
| GenerationProperties.AllPathsHaveExtension | src/EFCore.Design/Scaffolding/Internal/CSharpModelGenerator.cs:54-109 | In every successful run, every produced path ends with `.cs`. For entity files this holds with no assumption on the platform join. For the context file it holds whenever the join keeps the file name at the end of the path. |
| GenerationProperties.EmptyContextDirAccepted | src/EFCore.Design/Scaffolding/Internal/CSharpModelGenerator.cs:80-96 | An empty contextDir passes validation whenever the other checked arguments do, so the context generator is then called. A successful run then places the context file at the bare `contextName + ".cs"`. |
| GenerationProperties.EntityFilesIgnoreContextDir | src/EFCore.Design/Scaffolding/Internal/CSharpModelGenerator.cs:93-109 | contextDir places only the context file. Changing it leaves the calls, success and entity files unchanged, so entity files carry no directory. |
| GenerationProperties.RootNamespaceIgnored | src/EFCore.Design/Scaffolding/Internal/CSharpModelGenerator.cs:70-86 | rootNamespace is never checked or used: any value, null included, gives the same run. |
| GenerationProperties.BlogPostExample | src/EFCore.Design/Scaffolding/Internal/CSharpModelGenerator.cs:88-114 | Worked instance: entity types enumerated as `Blog`, `Post`, contextDir `Models`, a `/`-joining platform and succeeding generators. The result is the context file `Models/AppDbContext.cs` with the bare entity files `Blog.cs` and `Post.cs`, each holding the generated text. This shows the context file under the directory and the entity files without one. |

## Left out

- `Check.NotEmpty`'s exact emptiness test: `Check` (src/EFCore/Utilities/Check.cs) is not part of this model. "Empty" is taken to mean the empty string. A whitespace-only `modelNamespace`, `contextNamespace`, `contextName` or `connectionString` is therefore accepted here. EF Core's `Check.NotEmpty` tests the trimmed length, so it would reject such a value. The exception is identified only by kind and parameter name, not by message text.
- `ICSharpDbContextGenerator.WriteCode` and `ICSharpEntityTypeGenerator.WriteCode`: code emission belongs to other components. They are arbitrary functions of their arguments.
- `DisplayName()` and the order of `IModel.GetEntityTypes()`: these are metadata internals. The entity types are given as a sequence in enumeration order, and the display name is given as an arbitrary function.
- Paths.Combine: the separator and rooting rules of `System.IO.Path.Combine` are platform behaviour. Only the empty-directory case is fixed, and the join is otherwise abstract. `Combine` never fails. On .NET Framework, `Path.Combine` throws `ArgumentException` for invalid path characters in `contextDir` or `contextName`. That exception would come after the context generator call and before any entity call, and it is not modelled.
- `ModelCodeGeneratorDependencies`, the base class and the `Language` property: they carry no behaviour of this component.
- CSharpModelGenerator.New: the `[NotNull] dependencies` argument and the base constructor's handling of it are not modelled. Both run before the two generator checks. So "construction succeeds exactly when both generators are non-null" holds only for a valid `dependencies` argument.
- Writing files to disk: the generator performs no I/O, and its caller writes the files.
- Options other than `UseDataAnnotations` and `SuppressConnectionStringWarning`: the generator reads no others.
