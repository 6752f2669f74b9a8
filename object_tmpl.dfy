/** The object template (rust/templates/object_tmpl.rs). Unlike the `handlers` pipeline, it
    gives each field an options struct holding only the field's optional arguments, and
    leaves the functions themselves to `format_function`. */
module ObjectTemplate {
  import opened Wrappers
  import opened Seqs
  import opened Introspection
  import opened Codegen
  import opened Templates

  /** `filter(|t| type_ref_is_optional(&t.input_value.type_))`: the optional arguments, in order. */
  function OptionalOnly(fmt: Formatters, args: seq<InputValue>): (r: seq<InputValue>)
    ensures |r| <= |args|
    ensures forall k :: 0 <= k < |r| ==> r[k] in args && fmt.typeRefIsOptional(r[k].typeRef)
    ensures forall i :: 0 <= i < |args| && fmt.typeRefIsOptional(args[i].typeRef) ==> args[i] in r
  {
    if |args| == 0 then []
    else
      var rest := OptionalOnly(fmt, args[1..]);
      assert forall i :: 1 <= i < |args| ==> args[i] == args[1..][i - 1];
      if fmt.typeRefIsOptional(args[0].typeRef) then [args[0]] + rest else rest
  }

  /** Filtering keeps the order: the optional arguments of a prefix come first. */
  lemma {:induction false} OptionalOnlyAppend(fmt: Formatters, a: seq<InputValue>, b: seq<InputValue>)
    ensures OptionalOnly(fmt, a + b) == OptionalOnly(fmt, a) + OptionalOnly(fmt, b)
  {
    if |a| == 0 {
      assert a + b == b;
    } else {
      assert (a + b)[1..] == a[1..] + b;
      OptionalOnlyAppend(fmt, a[1..], b);
    }
  }

  /** `render_optional_field_args`: nothing for no arguments, otherwise one member
      `pub <format_struct_name(name)>: Option<format_output_type(type)>,` per argument, in order. */
  function RenderOptionalFieldArgs(fmt: Formatters, args: seq<InputValue>): (r: Option<seq<OptionsMember>>)
    ensures r.None? <==> |args| == 0
    ensures r.Some? ==> |r.value| == |args|
    ensures r.Some? ==> forall k :: 0 <= k < |args| ==>
              r.value[k].name == fmt.formatStructName(args[k].name) &&
              r.value[k].innerType == fmt.formatOutputType(args[k].typeRef)
  {
    if |args| == 0 then None
    else
      Some(seq(|args|, k requires 0 <= k < |args| =>
                 OptionsMember(fmt.formatStructName(args[k].name), fmt.formatOutputType(args[k].typeRef))))
  }

  /** Some argument of the field is present and optional. */
  predicate HasOptionalArg(fmt: Formatters, f: Field) {
    f.args.Some? &&
    exists i :: 0 <= i < |f.args.value| && f.args.value[i].Some? && fmt.typeRefIsOptional(f.args.value[i].value.typeRef)
  }

  /** `render_optional_arg`: the options struct of a field, named `field_options_struct_name`.
      It exists exactly when the field has a present optional argument (so not for a field
      without arguments), and its members are the present optional arguments, in order. */
  function RenderOptionalArg(fmt: Formatters, f: Field): (r: Option<TDecl>)
    ensures r.Some? <==> HasOptionalArg(fmt, f)
    ensures r.Some? ==> r.value.TStruct? && r.value.name == Some(fmt.fieldOptionsStructName(f))
    ensures r.Some? ==> var opts := OptionalOnly(fmt, Flatten(f.args.value));
              |r.value.members| == |opts| &&
              forall k :: 0 <= k < |opts| ==>
                r.value.members[k] == OptionsMember(fmt.formatStructName(opts[k].name), fmt.formatOutputType(opts[k].typeRef))
  {
    var outputType := fmt.fieldOptionsStructName(f);
    var optionalArgs := match f.args
                        case None => None
                        case Some(args) => Some(OptionalOnly(fmt, Flatten(args)));
    var fields := match optionalArgs
                  case None => None
                  case Some(args) => RenderOptionalFieldArgs(fmt, args);
    if fields.Some? then
      var args := f.args.value;
      var opts := optionalArgs.value;
      assert Some(opts[0]) in args;
      Some(TStruct(Some(outputType), fields.value))
    else
      assert f.args.Some? ==> forall i :: 0 <= i < |f.args.value| && f.args.value[i].Some? ==>
               f.args.value[i].value in Flatten(f.args.value);
      None
  }

  /** The options structs of a list of fields: each field's, when it has one, in field order. */
  function OptionsStructs(fmt: Formatters, fields: seq<Field>): (r: seq<TDecl>)
    ensures forall k :: 0 <= k < |fields| && RenderOptionalArg(fmt, fields[k]).Some? ==>
              RenderOptionalArg(fmt, fields[k]).value in r
    ensures forall j :: 0 <= j < |r| ==> exists k :: 0 <= k < |fields| && RenderOptionalArg(fmt, fields[k]) == Some(r[j])
    ensures r == [] <==> forall k :: 0 <= k < |fields| ==> !HasOptionalArg(fmt, fields[k])
    ensures |r| <= |fields|
  {
    var rendered := seq(|fields|, k requires 0 <= k < |fields| => RenderOptionalArg(fmt, fields[k]));
    assert forall k :: 0 <= k < |fields| ==> rendered[k] == RenderOptionalArg(fmt, fields[k]);
    Flatten(rendered)
  }

  /** The options structs keep field order: those of a prefix of the fields come first. */
  lemma OptionsStructsInFieldOrder(fmt: Formatters, a: seq<Field>, b: seq<Field>)
    ensures OptionsStructs(fmt, a + b) == OptionsStructs(fmt, a) + OptionsStructs(fmt, b)
  {
    var ra := seq(|a|, k requires 0 <= k < |a| => RenderOptionalArg(fmt, a[k]));
    var rb := seq(|b|, k requires 0 <= k < |b| => RenderOptionalArg(fmt, b[k]));
    var rab := seq(|a + b|, k requires 0 <= k < |a + b| => RenderOptionalArg(fmt, (a + b)[k]));
    assert rab == ra + rb;
    FlattenAppend(ra, rb);
  }

  /** `render_optional_args`: nothing when no field has an options struct, otherwise the
      options structs in field order. */
  function RenderOptionalArgs(fmt: Formatters, fields: seq<Field>): (r: Option<seq<TDecl>>)
    ensures r.None? <==> forall k :: 0 <= k < |fields| ==> RenderOptionalArg(fmt, fields[k]).None?
    ensures r.Some? ==> r.value == OptionsStructs(fmt, fields)
  {
    var renderedFields := OptionsStructs(fmt, fields);
    if |renderedFields| == 0 then None else Some(renderedFields)
  }

  /** `render_function`: always some tokens, those of `format_function`. */
  function RenderFunction(fmt: Formatters, f: Field): (r: Option<Code>)
    ensures r.Some?
    ensures r.value == fmt.formatFunction(f)
  {
    Some(fmt.formatFunction(f))
  }

  /** `render_functions`: nothing for no fields, otherwise exactly one function per field, in
      field order, since `render_function` never returns `None`. */
  function RenderFunctions(fmt: Formatters, fields: seq<Field>): (r: Option<seq<Option<Code>>>)
    ensures r.None? <==> |fields| == 0
    ensures r.Some? ==> |r.value| == |fields| && |Flatten(r.value)| == |fields|
    ensures r.Some? ==> forall k :: 0 <= k < |fields| ==> Flatten(r.value)[k] == fmt.formatFunction(fields[k])
  {
    var renderedFunctions := seq(|fields|, k requires 0 <= k < |fields| => RenderFunction(fmt, fields[k]));
    FlattenAllPresent(renderedFunctions);
    if |renderedFunctions| > 0 then Some(renderedFunctions) else None
  }

  /** `render_object`: it never fails. It emits the struct with an empty body, then the options
      structs of the fields, then the `impl` block holding one function per field; a type
      without fields gets neither options structs nor functions. */
  function RenderObject(fmt: Formatters, t: FullType): (r: Result<seq<TDecl>, Error>)
    ensures r.Success? && |r.value| >= 2
    ensures r.value[0] == TStruct(PipeName(fmt, t.name), [])
    ensures r.value[1..|r.value| - 1] == if t.fields.Some? then OptionsStructs(fmt, t.fields.value) else []
    ensures r.value[|r.value| - 1].TImpl? && r.value[|r.value| - 1].name == PipeName(fmt, t.name)
    ensures |r.value[|r.value| - 1].fns| == if t.fields.Some? then |t.fields.value| else 0
    ensures var fns := Flatten(r.value[|r.value| - 1].fns);
            if t.fields.Some? then
              |fns| == |t.fields.value| && forall k :: 0 <= k < |fns| ==> fns[k] == fmt.formatFunction(t.fields.value[k])
            else fns == []
  {
    var name := PipeName(fmt, t.name);
    var optionalArgs := match t.fields
                        case None => None
                        case Some(fields) => RenderOptionalArgs(fmt, fields);
    var functions := match t.fields
                     case None => None
                     case Some(fields) => RenderFunctions(fmt, fields);
    var out := [TStruct(name, [])]
               + (if optionalArgs.Some? then optionalArgs.value else [])
               + [TImpl(name, if functions.Some? then functions.value else [])];
    assert out[1..|out| - 1] == if optionalArgs.Some? then optionalArgs.value else [];
    Success(out)
  }
}
