/** The scalar template (rust/templates/scalar_tmpl.rs): a custom scalar becomes a newtype
    over `String`. */
module ScalarTemplate {
  import opened Wrappers
  import opened Introspection
  import opened Codegen
  import opened Templates

  /** `render_scalar`: it never fails and emits one tuple struct, named by `format_name` of the
      type's name, whose single field is a `String`. */
  function RenderScalar(fmt: Formatters, t: FullType): (r: Result<seq<TDecl>, Error>)
    ensures r.Success? && |r.value| == 1
    ensures r.value[0].TNewtype? && r.value[0].wrapped == "String"
    ensures t.name.Some? ==> r.value[0].name == Some(fmt.formatName(t.name.value))
    ensures t.name.None? ==> r.value[0].name.None?
  {
    Success([TNewtype(PipeName(fmt, t.name), "String")])
  }

  /** The newtype depends on the type's name alone (through `format_name`): kind, description,
      fields and input fields are ignored. */
  lemma ScalarDependsOnlyOnName(fmt1: Formatters, fmt2: Formatters, t1: FullType, t2: FullType)
    requires t1.name == t2.name
    requires t1.name.Some? ==> fmt1.formatName(t1.name.value) == fmt2.formatName(t1.name.value)
    ensures RenderScalar(fmt1, t1) == RenderScalar(fmt2, t2)
  {
  }
}
