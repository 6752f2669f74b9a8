/** The parts of the GraphQL introspection schema that the object and scalar renderers read
    (`dagger_core::introspection`). Every member the JSON may omit is an `Option`, as in the
    Rust structs. */
module Introspection {
  import opened Wrappers

  /** `__TypeKind`. */
  datatype TypeKind = SCALAR | OBJECT | INTERFACE | UNION | ENUM | INPUT_OBJECT | LIST | NON_NULL

  /** A type usage site; `LIST` and `NON_NULL` wrap one inner reference. */
  datatype TypeRef = TypeRef(kind: Option<TypeKind>, name: Option<string>, ofType: Option<TypeRef>)

  /** An argument or input-object member. `defaultValue` is kept opaque. */
  datatype InputValue = InputValue(name: string, description: Option<string>, typeRef: TypeRef,
                                   defaultValue: Option<string>)

  /** `FullTypeFields`. Each entry of `args` is a `FullTypeFieldsArgs`, a one-member wrapper
      around an `InputValue`; the wrapper is dropped here. `typeRef` stands for the
      `FullTypeFieldsType` wrapper around the field's output type. */
  datatype Field = Field(name: Option<string>, description: Option<string>,
                         args: Option<seq<Option<InputValue>>>, typeRef: Option<TypeRef>,
                         isDeprecated: Option<bool>, deprecationReason: Option<string>)

  /** `FullType`: one top-level schema type. */
  datatype FullType = FullType(kind: Option<TypeKind>, name: Option<string>, description: Option<string>,
                               fields: Option<seq<Field>>, inputFields: Option<seq<InputValue>>)
}
