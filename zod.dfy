/**
 * The part of a Zod schema the workflow code inspects: object shapes,
 * descriptions, the `Optional`/`Default` wrappers and the checks that the
 * tool declaration copies. Every node carries its own `.describe(...)` text,
 * so `z.string().optional().describe(d)` puts `d` on the `Optional` node.
 */
module Zod {
  import opened Wrappers
  import opened Records

  datatype Schema =
    | ZObject(shape: Rec<Schema>, description: Option<string>)
    | ZString(description: Option<string>, includes: Option<string>)
    | ZEnum(values: seq<string>, description: Option<string>)
    | ZNumber(description: Option<string>, min: Option<int>, max: Option<int>)
    | ZOptional(inner: Schema, description: Option<string>)
    | ZDefault(inner: Schema, description: Option<string>)
    | ZOther(typeName: string, description: Option<string>)

  /** `schema._def.typeName` */
  function TypeName(s: Schema): string
  {
    match s
    case ZObject(_, _) => "ZodObject"
    case ZString(_, _) => "ZodString"
    case ZEnum(_, _) => "ZodEnum"
    case ZNumber(_, _, _) => "ZodNumber"
    case ZOptional(_, _) => "ZodOptional"
    case ZDefault(_, _) => "ZodDefault"
    case ZOther(t, _) => t
  }
}
