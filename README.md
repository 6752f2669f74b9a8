# Rendering of object and scalar types in the dagger-rs code generator

This project models, in Dafny, how the Rust code generator of dagger-rs turns one schema
type (a GraphQL introspection `FullType`) into generated Rust declarations, and proves
properties of that model. Two pipelines are modelled, each as written:

- the `handlers` pipeline (`handlers/object.rs`, `handlers/fields.rs`): an object type
  becomes its argument-holder structs `<Pascal(field)>Args` (one per field with a present
  argument, holding all of its present arguments), then a `pub struct` with the input fields and the `conn`, `proc` and
  `selection` members, then an `impl` block with one accessor per field;
- the `rust::templates` pipeline (`object_tmpl.rs`, `scalar_tmpl.rs`): an object type becomes an
  empty struct, one options struct per field with a present optional argument, holding only
  those arguments, and
  an `impl` block of functions rendered by `format_function`; a custom scalar becomes
  `pub struct Name(String);`.

Output is modelled as structured declarations (`Codegen.Decl`, `Templates.TDecl`), not text:
the properties are about which declarations appear, in which order, with which members, and
when rendering fails. Pieces of code the model does not look into (rendered types, doc
comments, the rendered input-field block) are opaque `Code` strings.

Files: `wrappers.dfy` (Option, Result), `seqs.dfy` (`flatten` over options),
`introspection.dfy` (the schema types), `codegen.dfy` (handler output and helpers),
`fields.dfy`, `object.dfy`, `templates.dfy`, `object_tmpl.dfy`, `scalar_tmpl.dfy`.

`render_fields` and `render_args` build their output by pushing into local vectors, so they
are methods with loops (`Fields.RenderFields`, `Fields.RenderArgs`), each proved equal to a
specification function (`Fields.FieldsRendering`, `Fields.HolderArgs`) about which the
properties are proved; `Object::render` and the templates are expression code and are
functions.

The functions the core calls but whose code is not part of this model are fields of function
type in two records (`Codegen.Helpers`, `Templates.Formatters`): case conversion, `render_type_ref`,
the description renderers, `is_object_type`, `input_field::render_input_fields`,
`type_ref_is_optional` and the `format_*` functions. The model applies them and assumes nothing
about what they return.

What the code does, as modelled:
- the `handlers` pipeline does not split arguments into required and optional ones: every
  present argument goes into the one `…Args` holder, with the type `render_type_ref` gives it;
- the `rust::templates` pipeline keeps only the optional arguments, in an options struct;
- a field's description becomes the doc comment of its holder, not of its accessor, so a
  field without arguments gets no doc comment at all;
- `render_object` and `render_scalar` do not fail on a type without a name; the name then
  renders as nothing.

## Model

| member | source | states |
|---|---|---|
| Seqs.Flatten | crates/dagger-codegen/src/rust/templates/object_tmpl.rs:31-35 | `flatten` keeps exactly the present values; it is empty iff every entry is `None` |
| Seqs.FlattenAppend | crates/dagger-codegen/src/rust/templates/object_tmpl.rs:31-35 | `flatten` keeps order: a prefix's values come before a suffix's |
| Fields.HolderArgs | crates/dagger-codegen/src/handlers/fields.rs:79-120 | `render_args` is `None` iff no argument is present; otherwise one member per present argument, in order: `pub <snake(name)>: <render_type_ref(type)>` documented by the argument's rendered description; every such type renders; the holder has no description |
| Fields.RenderArgs | crates/dagger-codegen/src/handlers/fields.rs:79-120 | the loops of `render_args` (keep present arguments, lay out members, clear the empty description) compute `HolderArgs` |
| Fields.Holder | crates/dagger-codegen/src/handlers/fields.rs:19-35 | a holder `Pascal(name) ++ "Args"` exists iff the field has a present argument; it carries the field's description and the members `render_args` laid out |
| Fields.FieldAccessor | crates/dagger-codegen/src/handlers/fields.rs:36-55 | the accessor is named by the snake-cased field name, selects the unconverted name in quotes, and has an `args: &Holder` parameter and a `query.args(args)` call iff the field has a holder |
| Fields.RenderFieldOutput | crates/dagger-codegen/src/handlers/fields.rs:122-125 | the output type is `render_type_ref` of the field's type, its error included; nothing else of the field plays a part |
| Fields.RenderFields | crates/dagger-codegen/src/handlers/fields.rs:10-66 | the loop of `render_fields` returns `Ok(Some(..))` with the specified blocks, or the specified error; never `Ok(None)`, also for no fields |
| Fields.RenderingSucceedsIff | crates/dagger-codegen/src/handlers/fields.rs:15-22 | `render_fields` succeeds iff every field's output type and arguments render |
| Fields.RenderingFailsAtFirstError | crates/dagger-codegen/src/handlers/fields.rs:15-17 | the `?` on `render_field_output` (fields.rs:122-125) returns early: a failure is the output-type error of the first failing field, all earlier fields having rendered |
| Fields.AccessorPerField | crates/dagger-codegen/src/handlers/fields.rs:36-64 | on success there is exactly one accessor per field, in field order |
| Fields.HoldersInFieldOrder | crates/dagger-codegen/src/handlers/fields.rs:24-35 | on success the holders are those of the fields that have one, in field order |
| ObjectHandler.Predicate | crates/dagger-codegen/src/handlers/object.rs:11-13 | the handler accepts exactly the types `is_object_type` accepts |
| ObjectHandler.Render | crates/dagger-codegen/src/handlers/object.rs:15-54 | fails with "could not find name" when the name is absent, then with the fields' error, then with the input fields'; otherwise holders, then the struct (input fields first, then `conn`, `proc`, `selection`), then the `impl`; no fields gives no holders and an empty `impl` |
| ObjectHandler.RenderedObjectLayout | crates/dagger-codegen/src/handlers/object.rs:37-50 | a rendered object's holders are its fields' holders in field order and its `impl` holds one accessor per field, in field order |
| ObjectHandler.CanRenderObject | crates/dagger-codegen/src/handlers/object.rs:70-132 | the `CacheVolume` test: no holder, the three handles, one accessor `id(&self) -> CacheID` selecting `"id"` |
| ObjectHandler.ContainerHolderArgs | crates/dagger-codegen/src/handlers/object.rs:145-170 | the `container` arguments become the members `id: Option<ContainerID>`, `platform: Option<Platform>`, in that order |
| ObjectHandler.ContainerFieldRendering | crates/dagger-codegen/src/handlers/object.rs:135-233 | the `container` field yields the `ContainerArgs` holder and an accessor taking `&ContainerArgs` that calls `query.args` |
| ObjectHandler.CanRenderQueryContainer | crates/dagger-codegen/src/handlers/object.rs:135-233 | the `Query` test: `ContainerArgs` documented with the field's description, then `Query`, then its `impl` |
| Templates.PipeName | crates/dagger-codegen/src/rust/templates/object_tmpl.rs:15 | the piped name is `format_name` of the name, and absent when the name is |
| ObjectTemplate.OptionalOnly | crates/dagger-codegen/src/rust/templates/object_tmpl.rs:51-55 | the filter keeps exactly the arguments for which `type_ref_is_optional` holds |
| ObjectTemplate.OptionalOnlyAppend | crates/dagger-codegen/src/rust/templates/object_tmpl.rs:51-55 | the filter keeps argument order |
| ObjectTemplate.RenderOptionalFieldArgs | crates/dagger-codegen/src/rust/templates/object_tmpl.rs:70-86 | `None` iff there are no arguments; otherwise one `Option<format_output_type(type)>` member named `format_struct_name(name)` per argument, in order |
| ObjectTemplate.RenderOptionalArg | crates/dagger-codegen/src/rust/templates/object_tmpl.rs:46-68 | an options struct named `field_options_struct_name` exists iff the field has a present optional argument; its members are the present optional arguments, in order |
| ObjectTemplate.OptionsStructs | crates/dagger-codegen/src/rust/templates/object_tmpl.rs:31-35 | the options structs are exactly those of the fields that have one; none iff no field has an optional argument |
| ObjectTemplate.OptionsStructsInFieldOrder | crates/dagger-codegen/src/rust/templates/object_tmpl.rs:31-43 | the options structs keep field order |
| ObjectTemplate.RenderOptionalArgs | crates/dagger-codegen/src/rust/templates/object_tmpl.rs:27-44 | `None` iff no field yields an options struct, otherwise the options structs in field order |
| ObjectTemplate.RenderFunction | crates/dagger-codegen/src/rust/templates/object_tmpl.rs:103-107 | always `Some`, the tokens of `format_function` |
| ObjectTemplate.RenderFunctions | crates/dagger-codegen/src/rust/templates/object_tmpl.rs:88-101 | `None` iff there are no fields; otherwise exactly one function per field, in field order |
| ObjectTemplate.RenderObject | crates/dagger-codegen/src/rust/templates/object_tmpl.rs:13-25 | never fails; the empty struct, then the options structs, then the `impl` with one function per field (none without fields) |
| ScalarTemplate.RenderScalar | crates/dagger-codegen/src/rust/templates/scalar_tmpl.rs:8-11 | never fails; exactly one tuple struct, named `format_name(name)`, wrapping a `String` |
| ScalarTemplate.ScalarDependsOnlyOnName | crates/dagger-codegen/src/rust/templates/scalar_tmpl.rs:8-11 | the output depends only on the type's name: kind, description and fields are ignored |

## Left out

- Token assembly and pretty-printing by genco (`quote!`, `to_file_string`, whitespace joins), and the collection and sorting of `use` imports: a foreign library; the model's output is structured declarations.
- The bodies of generated accessors beyond what they select, whether they call `query.args`, and what they return (`clone()` calls, `todo!()`): fixed text with no decision in it.
- Case conversion (convert_case), `render_type_ref`, `type_ref_is_optional`, `format_name`, `format_struct_name`, `format_function`, `field_options_struct_name`, `format_output_type`, the description renderers, `is_object_type` and `input_field::render_input_fields`: their code is not part of this model; they are uninterpreted function-typed parameters.
- The two unit tests are stated for any helpers that render the test's names and types as its expected text shows; the text itself (doc-comment lines, imports) is not modelled.
- Panics: an `unwrap` on a missing field name or type, or on an argument type `render_type_ref` rejects, is a precondition (`Fields.FieldsRenderable`, `Fields.ArgsRenderable`), stated only for the fields the loop reaches before its first error.
- `FullType` members `interfaces`, `enum_values` and `possible_types` are not read by the modelled code; the `FullTypeFieldsArgs` / `FullTypeFieldsType` wrappers are read through, and the model leaves them out and keeps what they contain (`input_value`, `type_ref`).
- In the templates pipeline, an absent optional block (`None` from `render_optional_args` or `render_functions`) renders as nothing; `ObjectTemplate.RenderObject` places it in the output as an empty sequence.
- The enum and input-object handlers, handler dispatch, the generator driver (`lib.rs` delegates to a generator that is not part of this model) and the CI script `ci/src/main.rs` (engine connection and containers): outside the modelled core.
