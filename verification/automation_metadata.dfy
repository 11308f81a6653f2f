/** The handler descriptor shapes of src/metadata/automationMetadata.ts that request hydration reads. */
module AutomationMetadata {
  import opened Wrappers

  /** A declared command parameter. */
  datatype Parameter = Parameter(
    name: string,
    required: bool,
    pattern: Option<string>,
    description: Option<string>,
    defaultValue: Option<string>)

  /** A mapped parameter: filled from the chat context under `local_key`. */
  datatype MappedParameterDeclaration = MappedParameterDeclaration(localKey: string, foreignKey: string)

  /** A secret the handler needs, addressed by `path`. */
  datatype SecretDeclaration = SecretDeclaration(name: string, path: string)

  datatype CommandHandlerMetadata = CommandHandlerMetadata(
    name: string,
    description: string,
    parameters: seq<Parameter>,
    mappedParameters: seq<MappedParameterDeclaration>,
    secrets: seq<SecretDeclaration>)

  datatype IngestorMetadata = IngestorMetadata(name: string, description: string, route: string)
}
