/** The output shape of the `handlers` pipeline and the helpers it calls but that are not
    part of this model.

    Tokens are pretty-printed by genco; here a generated file is a sequence of declarations,
    and a piece of code that the model does not look into (a rendered type, a doc comment,
    a block of input fields) is a `Code` value. */
module Codegen {
  import opened Wrappers
  import opened Introspection

  type Code = string

  /** An `eyre::Report`; only its message is kept. */
  datatype Error = Error(message: string)

  /** The message `Object::render` fails with when the type has no name. */
  const MissingName: string := "could not find name"

  /** A struct member: `pub name: ty,` with an optional doc comment, or a block of members
      rendered elsewhere (the input fields of an object). */
  datatype Member = Named(doc: Option<Code>, name: Code, ty: Code) | Block(code: Code)

  /** One generated accessor `pub fn name(&self, [args: &Holder]) -> returnType`: its body selects
      `selectLiteral`, calls `query.args(args)` when `callsArgs`, and builds a `returnType`. */
  datatype Accessor = Accessor(name: Code, argsParam: Option<Code>, selectLiteral: Code,
                               callsArgs: bool, returnType: Code)

  /** A top-level declaration: `pub struct name { members }` or `impl name { fns }`. */
  datatype Decl = Struct(doc: Option<Code>, name: Code, members: seq<Member>)
                | Impl(name: Code, fns: seq<Accessor>)

  /** The functions the handlers call whose code is outside this model. They are left
      uninterpreted: the model only ever applies them, and nothing is assumed about them.
      - `snake`, `pascal`: `to_case(Case::Snake)` and `to_case(Case::Pascal)` of convert_case;
      - `renderTypeRef`: `type_ref::render_type_ref`;
      - `fieldDescription`: `render_description_from_field`;
      - `inputValueDescription`: `render_description_from_input_value(arg, name)`;
      - `typeDescription`: `utility::render_description`;
      - `isObjectType`: `predicates::is_object_type`;
      - `renderInputFields`: `input_field::render_input_fields`. */
  datatype Helpers = Helpers(
    snake: string -> Code,
    pascal: string -> Code,
    renderTypeRef: TypeRef -> Result<Code, Error>,
    fieldDescription: Field -> Option<Code>,
    inputValueDescription: (InputValue, string) -> Option<Code>,
    typeDescription: FullType -> Option<Code>,
    isObjectType: FullType -> bool,
    renderInputFields: seq<InputValue> -> Result<Option<Code>, Error>)
}
