/** The object handler of the `handlers` pipeline (handlers/object.rs): `Object::predicate`
    and `Object::render`, which turns one object type into its argument holders, its
    struct and the `impl` block of its accessors. */
module ObjectHandler {
  import opened Wrappers
  import opened Seqs
  import opened Introspection
  import opened Codegen
  import opened Fields

  /** `Object::predicate`: the handler takes exactly the types `is_object_type` accepts. */
  function Predicate(h: Helpers, t: FullType): (r: bool)
    ensures r <==> h.isObjectType(t)
  {
    h.isObjectType(t)
  }

  /** The members every generated object struct ends with: the connection parameters, the
      engine process and the accumulated selection. */
  function Handles(): seq<Member>
  {
    [Named(None, "conn", "ConnectParams"), Named(None, "proc", "Arc<Child>"), Named(None, "selection", "Selection")]
  }

  /** `render` panics only inside `render_fields`, which it reaches when the type has a name. */
  predicate Renderable(h: Helpers, t: FullType) {
    t.name.Some? && t.fields.Some? ==> FieldsRenderable(h, t.fields.value)
  }

  /** `render_fields` of the type's fields, or nothing when it has none. */
  function FieldsOf(h: Helpers, t: FullType): Result<Option<FieldBlocks>, Error>
    requires t.fields.Some? ==> FieldsRenderable(h, t.fields.value)
  {
    match t.fields
    case None => Success(None)
    case Some(i) =>
      match FieldsRendering(h, i)
      case Failure(e) => Failure(e)
      case Success(b) => Success(Some(b))
  }

  /** `render_input_fields` of the type's input fields, or nothing when it has none. */
  function InputFieldsOf(h: Helpers, t: FullType): Result<Option<Code>, Error>
  {
    match t.inputFields
    case None => Success(None)
    case Some(i) => h.renderInputFields(i)
  }

  /** The order of `render`'s output: the holders, then the struct, then the `impl` block. */
  function Assemble(holders: seq<Decl>, objectStruct: Decl, impl: Decl): (r: seq<Decl>)
    ensures |r| == |holders| + 2
    ensures r[..|holders|] == holders && r[|holders|] == objectStruct && r[|holders| + 1] == impl
  {
    holders + [objectStruct, impl]
  }

  /** `Object::render`. It fails when the type has no name, then with the error of the fields,
      then with that of the input fields. Otherwise it emits the holders of the fields, the
      struct (input fields first, then `conn`, `proc`, `selection`) and the `impl` block with
      the accessors; a type without fields gets no holders and an empty `impl`. */
  function Render(h: Helpers, t: FullType): (r: Result<seq<Decl>, Error>)
    requires Renderable(h, t)
    ensures t.name.None? ==> r == Failure(Error(MissingName))
    ensures t.name.Some? && FieldsOf(h, t).Failure? ==> r == Failure(FieldsOf(h, t).error)
    ensures t.name.Some? && FieldsOf(h, t).Success? && InputFieldsOf(h, t).Failure? ==>
              r == Failure(InputFieldsOf(h, t).error)
    ensures r.Success? <==> t.name.Some? && FieldsOf(h, t).Success? && InputFieldsOf(h, t).Success?
    ensures r.Success? ==>
              var n := |r.value|;
              n >= 2 &&
              r.value[n - 2] == Struct(h.typeDescription(t), t.name.value,
                                       (if InputFieldsOf(h, t).value.Some? then [Block(InputFieldsOf(h, t).value.value)] else [])
                                       + Handles()) &&
              r.value[n - 1].Impl? && r.value[n - 1].name == t.name.value
    ensures r.Success? && t.fields.None? ==> |r.value| == 2 && r.value[1] == Impl(t.name.value, [])
    ensures r.Success? && t.fields.Some? ==>
              var b := FieldsOf(h, t).value.value;
              r.value[..|r.value| - 2] == b.holders && r.value[|r.value| - 1] == Impl(t.name.value, b.accessors)
  {
    if t.name.None? then Failure(Error(MissingName))
    else
      var name := t.name.value;
      var description := h.typeDescription(t);
      match FieldsOf(h, t)
      case Failure(e) => Failure(e)
      case Success(fields) =>
        match InputFieldsOf(h, t)
        case Failure(e) => Failure(e)
        case Success(inputFields) =>
          var holders := if fields.Some? then fields.value.holders else [];
          var members := (if inputFields.Some? then [Block(inputFields.value)] else []) + Handles();
          var accessors := if fields.Some? then fields.value.accessors else [];
          Success(Assemble(holders, Struct(description, name, members), Impl(name, accessors)))
  }

  /** A rendered object with fields: the holders are those of its fields in field order, and
      the `impl` block holds one accessor per field, in field order. */
  lemma RenderedObjectLayout(h: Helpers, t: FullType)
    requires Renderable(h, t)
    requires Render(h, t).Success? && t.fields.Some?
    ensures AllFieldsOk(h, t.fields.value)
    ensures var r := Render(h, t).value;
            var fields := t.fields.value;
            r[..|r| - 2] == Flatten(HolderOptions(h, fields)) &&
            |r[|r| - 1].fns| == |fields| &&
            forall k :: 0 <= k < |fields| ==>
              r[|r| - 1].fns[k] == FieldAccessor(h, fields[k], RenderFieldOutput(h, fields[k]).value)
  {
    var fields := t.fields.value;
    HoldersInFieldOrder(h, fields);
    AccessorPerField(h, fields);
  }

  /* ---------------- the two rendering tests of object.rs ---------------- */

  function NonNullScalar(name: string): TypeRef
  {
    TypeRef(Some(NON_NULL), None, Some(TypeRef(Some(SCALAR), Some(name), None)))
  }

  function NullableScalar(name: string): TypeRef
  {
    TypeRef(Some(SCALAR), Some(name), None)
  }

  /** The `CacheVolume` type of `can_render_object`: one argument-less `id: CacheID!` field. */
  function CacheVolume(): FullType
  {
    FullType(Some(OBJECT), Some("CacheVolume"), Some("A directory whose contents persists across sessions"),
             Some([Field(Some("id"), None, None, Some(NonNullScalar("CacheID")), Some(false), None)]),
             None)
  }

  function IdAccessor(): Accessor
  {
    Accessor("id", None, "\"id\"", false, "CacheID")
  }

  lemma CacheVolumeFieldRendering(h: Helpers)
    requires h.renderTypeRef(NonNullScalar("CacheID")) == Success("CacheID")
    requires h.snake("id") == "id"
    ensures FieldsRenderable(h, CacheVolume().fields.value)
    ensures FieldsRendering(h, CacheVolume().fields.value) == Success(FieldBlocks([], [IdAccessor()]))
  {
    var fields := CacheVolume().fields.value;
    assert fields[1..] == [];
    assert RenderFieldOutput(h, fields[0]) == Success("CacheID");
    assert Holder(h, fields[0]) == None;
    assert FieldAccessor(h, fields[0], "CacheID") == IdAccessor();
    assert FieldsRendering(h, fields[1..]) == Success(FieldBlocks([], []));
    RenderingStep(h, fields, 0);
    assert fields[0..] == fields;
    assert FieldsRendering(h, fields) == Extend([], [IdAccessor()], Success(FieldBlocks([], [])));
    ExtendDone([], [IdAccessor()]);
  }

  /** `can_render_object`: no holder, the three handles, and a single accessor `id(&self) -> CacheID`
      selecting `"id"`. The helpers are only assumed to render the names and type as the test's
      expected text shows. */
  lemma CanRenderObject(h: Helpers)
    requires h.renderTypeRef(NonNullScalar("CacheID")) == Success("CacheID")
    requires h.snake("id") == "id"
    ensures Render(h, CacheVolume()) ==
              Success([Struct(h.typeDescription(CacheVolume()), "CacheVolume", Handles()),
                       Impl("CacheVolume", [Accessor("id", None, "\"id\"", false, "CacheID")])])
  {
    CacheVolumeFieldRendering(h);
    var t := CacheVolume();
    assert FieldsOf(h, t) == Success(Some(FieldBlocks([], [IdAccessor()])));
    assert InputFieldsOf(h, t) == Success(None);
    var st := Struct(h.typeDescription(t), "CacheVolume", Handles());
    assert [] + Handles() == Handles();
    assert Render(h, t) == Success(Assemble([], st, Impl("CacheVolume", [IdAccessor()])));
    assert Assemble([], st, Impl("CacheVolume", [IdAccessor()])) == [st, Impl("CacheVolume", [IdAccessor()])];
  }

  function ContainerArg(name: string, typeName: string): InputValue
  {
    InputValue(name, None, NullableScalar(typeName), None)
  }

  function ContainerArgs(): seq<Option<InputValue>>
  {
    [Some(ContainerArg("id", "ContainerID")), Some(ContainerArg("platform", "Platform"))]
  }

  /** The `Query` type of `can_render_query_container`: one field `container(id: ContainerID,
      platform: Platform): CacheID!` with a description. */
  function QueryType(description: string): FullType
  {
    FullType(Some(OBJECT), Some("Query"), None,
             Some([Field(Some("container"), Some(description), Some(ContainerArgs()),
                         Some(NonNullScalar("CacheID")), Some(false), None)]),
             None)
  }

  /** The helper behaviour the expected text of `can_render_query_container` shows. */
  predicate ContainerHelpers(h: Helpers)
  {
    && h.renderTypeRef(NonNullScalar("CacheID")) == Success("CacheID")
    && h.renderTypeRef(NullableScalar("ContainerID")) == Success("Option<ContainerID>")
    && h.renderTypeRef(NullableScalar("Platform")) == Success("Option<Platform>")
    && h.snake("container") == "container" && h.pascal("container") == "Container"
    && h.snake("id") == "id" && h.snake("platform") == "platform"
    && h.inputValueDescription(ContainerArg("id", "ContainerID"), "id") == None
    && h.inputValueDescription(ContainerArg("platform", "Platform"), "platform") == None
  }

  function ContainerMembers(): seq<Member>
  {
    [Named(None, "id", "Option<ContainerID>"), Named(None, "platform", "Option<Platform>")]
  }

  lemma ContainerHolderArgs(h: Helpers)
    requires ContainerHelpers(h)
    ensures ArgsRenderable(h, ContainerArgs())
    ensures HolderArgs(h, ContainerArgs()) == Some(CollectedArgs(None, ContainerMembers()))
  {
    var args := ContainerArgs();
    assert Flatten(args) == [ContainerArg("id", "ContainerID"), ContainerArg("platform", "Platform")];
    assert KeptArgs(h, args) == [Arg("id", None, "Option<ContainerID>"), Arg("platform", None, "Option<Platform>")];
    var collected := HolderArgs(h, args).value.args;
    assert |collected| == 2 && collected[0] == ContainerMembers()[0] && collected[1] == ContainerMembers()[1];
    assert collected == ContainerMembers();
  }

  lemma ContainerFieldRendering(h: Helpers, description: string)
    requires ContainerHelpers(h)
    ensures var fields := QueryType(description).fields.value;
            FieldsRenderable(h, fields) &&
            FieldsRendering(h, fields) ==
              Success(FieldBlocks([Struct(h.fieldDescription(fields[0]), "ContainerArgs", ContainerMembers())],
                                  [Accessor("container", Some("ContainerArgs"), "\"container\"", true, "CacheID")]))
  {
    ContainerHolderArgs(h);
    var fields := QueryType(description).fields.value;
    var f := fields[0];
    var holder := Struct(h.fieldDescription(f), "ContainerArgs", ContainerMembers());
    var container := Accessor("container", Some("ContainerArgs"), "\"container\"", true, "CacheID");
    assert FieldArgs(h, f) == Some(CollectedArgs(None, ContainerMembers()));
    assert HolderName(h, f) == "ContainerArgs";
    assert Holder(h, f) == Some(holder);
    assert FieldAccessor(h, f, "CacheID") == container;
    assert fields[1..] == [];
    assert FieldsRendering(h, fields[1..]) == Success(FieldBlocks([], []));
    RenderingStep(h, fields, 0);
    assert fields[0..] == fields;
    assert Flatten([Holder(h, f)]) == [holder];
    assert FieldsRendering(h, fields) == Extend([holder], [container], Success(FieldBlocks([], [])));
    ExtendDone([holder], [container]);
  }

  /** `can_render_query_container`: a `ContainerArgs` holder documented with the field's
      description, with `id` then `platform`, the `Query` struct, and an accessor taking
      `args: &ContainerArgs` and calling `query.args(args)`. */
  lemma CanRenderQueryContainer(h: Helpers, description: string)
    requires ContainerHelpers(h)
    ensures var t := QueryType(description);
            Render(h, t) ==
              Success([Struct(h.fieldDescription(t.fields.value[0]), "ContainerArgs", ContainerMembers()),
                       Struct(h.typeDescription(t), "Query", Handles()),
                       Impl("Query", [Accessor("container", Some("ContainerArgs"), "\"container\"", true, "CacheID")])])
  {
    ContainerFieldRendering(h, description);
    var t := QueryType(description);
    var holder := Struct(h.fieldDescription(t.fields.value[0]), "ContainerArgs", ContainerMembers());
    var container := Accessor("container", Some("ContainerArgs"), "\"container\"", true, "CacheID");
    assert FieldsOf(h, t) == Success(Some(FieldBlocks([holder], [container])));
    assert InputFieldsOf(h, t) == Success(None);
    var st := Struct(h.typeDescription(t), "Query", Handles());
    assert [] + Handles() == Handles();
    assert Render(h, t) == Success(Assemble([holder], st, Impl("Query", [container])));
    assert Assemble([holder], st, Impl("Query", [container])) == [holder, st, Impl("Query", [container])];
  }
}
