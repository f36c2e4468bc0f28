/**
 * What reflection shows the MCP server about the application: the beans, their
 * declared methods, the `@Tool` and `@ToolParam` annotations on them and the
 * Java parameter types; and the descriptors (`ToolMetadata`,
 * `ParameterMetadata`) the server keeps for each registered tool.
 */
module ToolModel {
  import opened Wrappers

  /** The `Class<?>` of a parameter, as far as the server distinguishes classes. */
  datatype JavaType =
    | StringClass
    | IntegerClass | IntPrimitive
    | LongClass | LongPrimitive
    | BooleanClass | BooleanPrimitive
    | DoubleClass | DoublePrimitive
    | FloatClass | FloatPrimitive
    | OtherClass(name: string)

  /** The `java.lang.reflect.Method` handles of the tool methods of MCPToolService. */
  datatype MethodRef =
    | GetPatientByName
    | GetPatientById
    | GetAllPatients
    | GetProgressNotes
    | GetCarePlan
    | UpdateCarePlan
    | AddProgressNote
    | CreatePatient
    | ScheduleAppointment
    | GetAppointments
    | CancelAppointment

  /** `@Tool(name, description)`. */
  datatype ToolAnnotation = ToolAnnotation(name: string, description: string)

  /** `@ToolParam(name, description, required)`; `required` defaults to true. */
  datatype ToolParamAnnotation = ToolParamAnnotation(name: string, description: string, required: bool)

  /** A declared parameter: its `@ToolParam`, when present, and its type. */
  datatype ParamDecl = ParamDecl(annotation: Option<ToolParamAnnotation>, paramType: JavaType)

  /** A declared method of a bean: a `@Tool` method with its handle and parameters, or any other method. */
  datatype MethodDecl =
    | Annotated(tool: ToolAnnotation, target: MethodRef, params: seq<ParamDecl>)
    | Unannotated

  /** A bean, seen through `getClass().getDeclaredMethods()`. */
  type Bean = seq<MethodDecl>

  /** `MCPServer.ParameterMetadata`. */
  datatype ParameterMetadata = ParameterMetadata(name: string, description: string, required: bool, paramType: JavaType)

  /** `MCPServer.ToolMetadata`; the `bean` field is always the MCPToolService bean and is left implicit. */
  datatype ToolMetadata = ToolMetadata(name: string, description: string, handler: MethodRef, parameters: seq<ParameterMetadata>)
}
