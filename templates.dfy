/** The output shape of the `rust::templates` pipeline and the formatting functions it calls
    but that are not part of this model. This pipeline is separate from the `handlers` one
    and is modelled on its own. */
module Templates {
  import opened Wrappers
  import opened Introspection
  import opened Codegen

  /** A member of an options struct: `pub name: Option<innerType>,`. */
  datatype OptionsMember = OptionsMember(name: Code, innerType: Code)

  /** A declaration of the templates pipeline:
      - `pub struct name { members }`: an object struct (no members) or an options struct;
      - `impl name { fns }`: each function is what `render_function` returned;
      - `pub struct name(wrapped);`: a tuple struct with a single field.
      A name piped from an absent type name is `None` and renders as nothing. */
  datatype TDecl = TStruct(name: Option<Code>, members: seq<OptionsMember>)
                 | TImpl(name: Option<Code>, fns: seq<Option<Code>>)
                 | TNewtype(name: Option<Code>, wrapped: Code)

  /** The functions the templates call whose code is outside this model, left uninterpreted:
      `format_name`, `format_struct_name`, `format_function(funcs, _)`,
      `field_options_struct_name`, `type_ref_is_optional` and `funcs.format_output_type`. */
  datatype Formatters = Formatters(
    formatName: string -> Code,
    formatStructName: string -> Code,
    formatFunction: Field -> Code,
    fieldOptionsStructName: Field -> Code,
    typeRefIsOptional: TypeRef -> bool,
    formatOutputType: TypeRef -> Code)

  /** `name.pipe(|n| format_name(n))`: the formatted name, absent when the name is. */
  function PipeName(fmt: Formatters, name: Option<string>): (r: Option<Code>)
    ensures r.Some? <==> name.Some?
    ensures r.Some? ==> r.value == fmt.formatName(name.value)
  {
    match name
    case None => None
    case Some(n) => Some(fmt.formatName(n))
  }
}
