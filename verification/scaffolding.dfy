/** The values the C# model generator consumes and produces: the logical model
    handed to it, its options, the calls it makes to its two code generators,
    and the scaffolded files it returns.
 */
module Scaffolding {

  /** A C# reference that may be null. */
  datatype Option<+T> = None | Some(value: T)

  /** An exception, identified by its kind and the parameter or message it carries.
      `ArgumentNull` and `ArgumentEmpty` are what the argument checks throw;
      a collaborator may throw any of the three. */
  datatype Exception =
    | ArgumentNull(paramName: string)
    | ArgumentEmpty(paramName: string)
    | Other(message: string)

  /** Either a value or the exception that was thrown instead of producing it. */
  datatype Result<+T> = Success(value: T) | Failure(error: Exception)

  /** One entity type of the model. Its metadata is not inspected by the
      generator itself; it is only passed on and named. */
  datatype EntityType = EntityType(name: string)

  /** The logical model; `entityTypes` is the order in which the model enumerates
      its entity types. */
  datatype Model = Model(entityTypes: seq<EntityType>)

  /** The two flags of the generation options that the C# generator reads. */
  datatype ModelCodeGenerationOptions =
    ModelCodeGenerationOptions(useDataAnnotations: bool, suppressConnectionStringWarning: bool)

  /** One generated source file: a relative path and its text. */
  datatype ScaffoldedFile = ScaffoldedFile(path: string, code: string)

  /** The result of scaffolding: the distinguished context file and one
      additional file per entity type. */
  datatype ScaffoldedModel = ScaffoldedModel(contextFile: ScaffoldedFile, additionalFiles: seq<ScaffoldedFile>)

  /** The arguments of one call to the DbContext code generator. */
  datatype ContextRequest = ContextRequest(
    model: Model,
    contextNamespace: string,
    contextName: string,
    connectionString: string,
    useDataAnnotations: bool,
    suppressConnectionStringWarning: bool)

  /** The arguments of one call to the entity type code generator. */
  datatype EntityRequest = EntityRequest(entityType: EntityType, modelNamespace: string, useDataAnnotations: bool)

  /** One call made to a collaborator, in the order it was made. */
  datatype Call = ContextCall(context: ContextRequest) | EntityCall(entity: EntityRequest)

  /** The code generators: functions from their arguments to the source text
      they write, or the exception they throw. Their bodies are not modelled. */
  type DbContextGenerator = ContextRequest -> Result<string>
  type EntityTypeGenerator = EntityRequest -> Result<string>

  /** Metadata and platform functions the generator relies on but whose
      definitions are not modelled: an entity type's display name and the
      platform's directory join used by `Path.Combine`. */
  datatype Services = Services(displayName: EntityType -> string, joinPath: (string, string) -> string)

  /** The arguments of `GenerateModel`, each possibly null. */
  datatype Arguments = Arguments(
    model: Option<Model>,
    rootNamespace: Option<string>,
    modelNamespace: Option<string>,
    contextNamespace: Option<string>,
    contextDir: Option<string>,
    contextName: Option<string>,
    connectionString: Option<string>,
    options: Option<ModelCodeGenerationOptions>)

  /** What one call to `GenerateModel` amounts to: its outcome and the
      collaborator calls it made on the way. */
  datatype Run = Run(outcome: Result<ScaffoldedModel>, calls: seq<Call>)
}
