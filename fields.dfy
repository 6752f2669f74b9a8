/** The field and argument renderer of the `handlers` pipeline (handlers/fields.rs).

    `render_fields` walks the fields of an object once, pushing one accessor per field and,
    for each field whose arguments render to something, one argument-holder struct
    `<Pascal(field)>Args`. `render_args` gathers the present arguments of a field and lays
    them out as the holder's members. Both work by updating local vectors, so both are
    methods here, each proved equal to a specification function (`FieldsRendering`,
    `HolderArgs`) about which the properties are stated. */
module Fields {
  import opened Wrappers
  import opened Seqs
  import opened Introspection
  import opened Codegen

  /** `Arg`: one present argument with its name, rendered description and rendered type. */
  datatype Arg = Arg(name: string, description: Option<Code>, ty: Code)

  /** `CollectedArgs`: a holder's description and its members. */
  datatype CollectedArgs = CollectedArgs(description: Option<Code>, args: seq<Member>)

  /** The two blocks `render_fields` returns: the holder structs, then the accessors. */
  datatype FieldBlocks = FieldBlocks(holders: seq<Decl>, accessors: seq<Accessor>)

  /* ---------------- render_args ---------------- */

  /** `render_args` unwraps `render_type_ref` of every present argument, so it panics
      unless all of them render. */
  predicate ArgsRenderable(h: Helpers, args: seq<Option<InputValue>>) {
    forall i :: 0 <= i < |args| && args[i].Some? ==> h.renderTypeRef(args[i].value.typeRef).Success?
  }

  /** An argument of `render_args` kept with its rendered description and type. */
  function ArgOf(h: Helpers, a: InputValue): Arg
    requires h.renderTypeRef(a.typeRef).Success?
  {
    Arg(a.name, h.inputValueDescription(a, a.name), h.renderTypeRef(a.typeRef).value)
  }

  /** The holder member for one kept argument: `pub <snake(name)>: <type>,`. */
  function ArgMember(h: Helpers, a: Arg): Member
  {
    Named(a.description, h.snake(a.name), a.ty)
  }

  /** Every present argument of a renderable list renders. */
  lemma PresentArgsRender(h: Helpers, args: seq<Option<InputValue>>)
    requires ArgsRenderable(h, args)
    ensures forall k :: 0 <= k < |Flatten(args)| ==> h.renderTypeRef(Flatten(args)[k].typeRef).Success?
  {
  }

  /** The arguments `render_args` keeps: the present ones, in order. */
  function KeptArgs(h: Helpers, args: seq<Option<InputValue>>): seq<Arg>
    requires ArgsRenderable(h, args)
  {
    PresentArgsRender(h, args);
    var present := Flatten(args);
    seq(|present|, k requires 0 <= k < |present| => ArgOf(h, present[k]))
  }

  /** What `render_args` returns: nothing when no argument is present, otherwise one member
      per present argument, in argument order, and no description. */
  function HolderArgs(h: Helpers, args: seq<Option<InputValue>>): (r: Option<CollectedArgs>)
    requires ArgsRenderable(h, args)
    ensures r.None? <==> forall i :: 0 <= i < |args| ==> args[i].None?
    ensures r.Some? ==> r.value.description.None?
    ensures r.Some? ==> |r.value.args| == |Flatten(args)|
    ensures r.Some? ==> forall k :: 0 <= k < |r.value.args| ==>
              var a := Flatten(args)[k];
              h.renderTypeRef(a.typeRef).Success? &&
              r.value.args[k] == Named(h.inputValueDescription(a, a.name), h.snake(a.name), h.renderTypeRef(a.typeRef).value)
  {
    var kept := KeptArgs(h, args);
    if |kept| > 0 then
      Some(CollectedArgs(None, seq(|kept|, k requires 0 <= k < |kept| => ArgMember(h, kept[k]))))
    else
      None
  }

  /** One more argument extends the kept arguments by at most that one. */
  lemma KeptArgsStep(h: Helpers, args: seq<Option<InputValue>>, i: nat)
    requires i < |args| && ArgsRenderable(h, args)
    ensures ArgsRenderable(h, args[..i]) && ArgsRenderable(h, args[..i + 1])
    ensures KeptArgs(h, args[..i + 1]) ==
              KeptArgs(h, args[..i]) + if args[i].Some? then [ArgOf(h, args[i].value)] else []
  {
    assert args[..i + 1] == args[..i] + [args[i]];
    FlattenAppend(args[..i], [args[i]]);
  }

  /** `render_args`: a first loop keeps the present arguments, a second lays them out as
      members of a holder whose description starts as empty tokens and is then cleared. */
  method RenderArgs(h: Helpers, args: seq<Option<InputValue>>) returns (r: Option<CollectedArgs>)
    requires ArgsRenderable(h, args)
    ensures r == HolderArgs(h, args)
  {
    var collectedArgs: seq<Arg> := [];
    var i := 0;
    while i < |args|
      invariant 0 <= i <= |args|
      invariant ArgsRenderable(h, args[..i])
      invariant collectedArgs == KeptArgs(h, args[..i])
    {
      KeptArgsStep(h, args, i);
      if args[i].Some? {
        var arg := args[i].value;
        var name := arg.name;
        var description := h.inputValueDescription(arg, name);
        var t := h.renderTypeRef(arg.typeRef).value;
        collectedArgs := collectedArgs + [Arg(name, description, t)];
      }
      i := i + 1;
    }
    assert args[..|args|] == args;

    if |collectedArgs| > 0 {
      var collectedArg := CollectedArgs(Some(""), []);
      var j := 0;
      while j < |collectedArgs|
        invariant 0 <= j <= |collectedArgs|
        invariant collectedArg.description == Some("")
        invariant |collectedArg.args| == j
        invariant forall k :: 0 <= k < j ==> collectedArg.args[k] == ArgMember(h, collectedArgs[k])
      {
        var arg := collectedArgs[j];
        collectedArg := collectedArg.(args := collectedArg.args + [Named(arg.description, h.snake(arg.name), arg.ty)]);
        j := j + 1;
      }
      if collectedArg.description.Some? && collectedArg.description.value == "" {
        collectedArg := collectedArg.(description := None);
      }
      assert collectedArg.args == HolderArgs(h, args).value.args;
      r := Some(collectedArg);
    } else {
      r := None;
    }
  }

  /* ---------------- one field ---------------- */

  /** `render_fields` unwraps the field's name and `render_field_output` its type. */
  predicate Unwrappable(f: Field) {
    f.name.Some? && f.typeRef.Some?
  }

  /** `render_field_output`: the rendered output type of the field. It panics on a field
      without a type, and otherwise is `render_type_ref` of that type alone, its error included. */
  function RenderFieldOutput(h: Helpers, f: Field): (r: Result<Code, Error>)
    requires f.typeRef.Some?
    ensures r == h.renderTypeRef(f.typeRef.value)
  {
    h.renderTypeRef(f.typeRef.value)
  }

  /** The arguments of the field, if it has any, render without a panic. */
  predicate ArgsOk(h: Helpers, f: Field) {
    f.args.Some? ==> ArgsRenderable(h, f.args.value)
  }

  /** The field is rendered completely: no panic and no error. */
  predicate FieldOk(h: Helpers, f: Field) {
    Unwrappable(f) && RenderFieldOutput(h, f).Success? && ArgsOk(h, f)
  }

  predicate AllFieldsOk(h: Helpers, fields: seq<Field>) {
    forall k :: 0 <= k < |fields| ==> FieldOk(h, fields[k])
  }

  /** The holder arguments of a field: `render_args` of its arguments, or nothing without them. */
  function FieldArgs(h: Helpers, f: Field): Option<CollectedArgs>
    requires ArgsOk(h, f)
  {
    match f.args
    case None => None
    case Some(a) => HolderArgs(h, a)
  }

  function HolderName(h: Helpers, f: Field): Code
    requires f.name.Some?
  {
    h.pascal(f.name.value) + "Args"
  }

  /** A string literal: the text between double quotes. */
  function Quoted(s: string): (r: Code)
    ensures |r| == |s| + 2 && r[0] == '"' && r[|r| - 1] == '"'
    ensures r[1..|r| - 1] == s
  {
    "\"" + s + "\""
  }

  /** The argument holder of a field. It exists exactly when the field has at least one present
      argument; it carries the field's description and the members `render_args` laid out. */
  function Holder(h: Helpers, f: Field): (r: Option<Decl>)
    requires f.name.Some? && ArgsOk(h, f)
    ensures r.Some? <==> f.args.Some? && exists i :: 0 <= i < |f.args.value| && f.args.value[i].Some?
    ensures r.Some? ==> r.value.Struct? && r.value.doc == h.fieldDescription(f) && r.value.name == HolderName(h, f)
    ensures r.Some? ==> r.value.members == FieldArgs(h, f).value.args
  {
    var args := FieldArgs(h, f);
    if args.Some? then Some(Struct(h.fieldDescription(f), HolderName(h, f), args.value.args)) else None
  }

  /** The accessor of a field. Its name is the snake-cased field name, it selects the field's
      own name, and it takes `args: &Holder` and passes them to `query.args` exactly when the
      field has a holder. */
  function FieldAccessor(h: Helpers, f: Field, output: Code): (r: Accessor)
    requires f.name.Some? && ArgsOk(h, f)
    ensures r.name == h.snake(f.name.value)
    ensures r.selectLiteral == Quoted(f.name.value)
    ensures r.callsArgs <==> Holder(h, f).Some?
    ensures r.argsParam == if Holder(h, f).Some? then Some(Holder(h, f).value.name) else None
    ensures r.returnType == output
  {
    var args := FieldArgs(h, f);
    Accessor(h.snake(f.name.value), if args.Some? then Some(HolderName(h, f)) else None,
             Quoted(f.name.value), args.Some?, output)
  }

  /* ---------------- render_fields ---------------- */

  /** `render_fields` does not panic: every field it reaches (all of them up to the first one
      whose output type fails to render) has a name and a type, and the arguments of every
      field whose output type renders render too. */
  predicate FieldsRenderable(h: Helpers, fields: seq<Field>)
    decreases |fields|
  {
    |fields| == 0 ||
    (Unwrappable(fields[0]) &&
     (RenderFieldOutput(h, fields[0]).Success? ==> ArgsOk(h, fields[0]) && FieldsRenderable(h, fields[1..])))
  }

  /** Puts blocks already produced in front of what the rest of the fields produce. */
  function Extend(holders: seq<Decl>, accessors: seq<Accessor>, rest: Result<FieldBlocks, Error>): Result<FieldBlocks, Error>
  {
    match rest
    case Failure(e) => Failure(e)
    case Success(b) => Success(FieldBlocks(holders + b.holders, accessors + b.accessors))
  }

  /** What `render_fields` produces, field by field, stopping at the first error. */
  function FieldsRendering(h: Helpers, fields: seq<Field>): Result<FieldBlocks, Error>
    requires FieldsRenderable(h, fields)
    decreases |fields|
  {
    if |fields| == 0 then Success(FieldBlocks([], []))
    else
      var f := fields[0];
      match RenderFieldOutput(h, f)
      case Failure(e) => Failure(e)
      case Success(output) =>
        Extend(Flatten([Holder(h, f)]), [FieldAccessor(h, f, output)], FieldsRendering(h, fields[1..]))
  }

  lemma ExtendNothing(x: Result<FieldBlocks, Error>)
    ensures Extend([], [], x) == x
  {
    if x.Success? {
      assert [] + x.value.holders == x.value.holders;
      assert [] + x.value.accessors == x.value.accessors;
    }
  }

  lemma ExtendDone(holders: seq<Decl>, accessors: seq<Accessor>)
    ensures Extend(holders, accessors, Success(FieldBlocks([], []))) == Success(FieldBlocks(holders, accessors))
  {
    assert holders + [] == holders && accessors + [] == accessors;
  }

  lemma ExtendTwice(a: seq<Decl>, b: seq<Accessor>, c: seq<Decl>, d: seq<Accessor>, x: Result<FieldBlocks, Error>)
    ensures Extend(a, b, Extend(c, d, x)) == Extend(a + c, b + d, x)
  {
    if x.Success? {
      assert a + (c + x.value.holders) == (a + c) + x.value.holders;
      assert b + (d + x.value.accessors) == (b + d) + x.value.accessors;
    }
  }

  /** What the field at `i` contributes, ahead of the fields after it. */
  lemma RenderingStep(h: Helpers, fields: seq<Field>, i: nat)
    requires i < |fields| && FieldsRenderable(h, fields[i..])
    ensures Unwrappable(fields[i])
    ensures RenderFieldOutput(h, fields[i]).Failure? ==>
              FieldsRendering(h, fields[i..]) == Failure(RenderFieldOutput(h, fields[i]).error)
    ensures RenderFieldOutput(h, fields[i]).Success? ==>
              ArgsOk(h, fields[i]) && FieldsRenderable(h, fields[i + 1..]) &&
              FieldsRendering(h, fields[i..]) ==
                Extend(Flatten([Holder(h, fields[i])]), [FieldAccessor(h, fields[i], RenderFieldOutput(h, fields[i]).value)],
                       FieldsRendering(h, fields[i + 1..]))
  {
    assert fields[i..][1..] == fields[i + 1..];
  }

  /** `render_fields`: one pass over the fields, pushing holders and accessors; the `?` on
      `render_field_output` returns the first error. On success the result is always `Some`,
      even for an empty field list. */
  method RenderFields(h: Helpers, fields: seq<Field>) returns (r: Result<Option<FieldBlocks>, Error>)
    requires FieldsRenderable(h, fields)
    ensures r.Success? ==> r.value.Some?
    ensures FieldsRendering(h, fields).Success? ==> r == Success(Some(FieldsRendering(h, fields).value))
    ensures FieldsRendering(h, fields).Failure? ==> r == Failure(FieldsRendering(h, fields).error)
  {
    var collectedFields: seq<Accessor> := [];
    var collectedArgs: seq<Decl> := [];
    var i := 0;
    assert fields[i..] == fields;
    ExtendNothing(FieldsRendering(h, fields));
    while i < |fields|
      invariant 0 <= i <= |fields|
      invariant FieldsRenderable(h, fields[i..])
      invariant FieldsRendering(h, fields) == Extend(collectedArgs, collectedFields, FieldsRendering(h, fields[i..]))
    {
      RenderingStep(h, fields, i);
      var field := fields[i];
      var name := h.snake(field.name.value);
      var output := RenderFieldOutput(h, field);
      if output.Failure? {
        return Failure(output.error);
      }
      var description := h.fieldDescription(field);
      var args: Option<CollectedArgs> := None;
      if field.args.Some? {
        args := RenderArgs(h, field.args.value);
      }
      var holder := h.pascal(field.name.value) + "Args";
      var newHolders: seq<Decl> := [];
      if args.Some? {
        newHolders := [Struct(description, holder, args.value.args)];
      }
      var accessor := Accessor(name, if args.Some? then Some(holder) else None,
                               "\"" + field.name.value + "\"", args.Some?, output.value);
      assert newHolders == Flatten([Holder(h, field)]);
      assert accessor == FieldAccessor(h, field, output.value);
      ExtendTwice(collectedArgs, collectedFields, newHolders, [accessor], FieldsRendering(h, fields[i + 1..]));
      collectedArgs := collectedArgs + newHolders;
      collectedFields := collectedFields + [accessor];
      i := i + 1;
    }
    assert fields[i..] == [];
    assert collectedArgs + [] == collectedArgs && collectedFields + [] == collectedFields;
    return Success(Some(FieldBlocks(collectedArgs, collectedFields)));
  }

  /* ---------------- properties of render_fields ---------------- */

  /** `render_fields` succeeds exactly when every field renders. */
  lemma {:induction false} RenderingSucceedsIff(h: Helpers, fields: seq<Field>)
    requires FieldsRenderable(h, fields)
    ensures FieldsRendering(h, fields).Success? <==> AllFieldsOk(h, fields)
  {
    if |fields| > 0 && RenderFieldOutput(h, fields[0]).Success? {
      RenderingSucceedsIff(h, fields[1..]);
      assert forall k :: 1 <= k < |fields| ==> fields[k] == fields[1..][k - 1];
    }
  }

  /** When `render_fields` fails, it fails with the error of the first field whose output type
      does not render, every field before it having rendered. */
  lemma {:induction false} RenderingFailsAtFirstError(h: Helpers, fields: seq<Field>)
    requires FieldsRenderable(h, fields)
    requires FieldsRendering(h, fields).Failure?
    ensures exists k :: 0 <= k < |fields| && AllFieldsOk(h, fields[..k]) && Unwrappable(fields[k]) &&
                        RenderFieldOutput(h, fields[k]) == Failure(FieldsRendering(h, fields).error)
  {
    if RenderFieldOutput(h, fields[0]).Failure? {
      assert AllFieldsOk(h, fields[..0]);
    } else {
      RenderingFailsAtFirstError(h, fields[1..]);
      var k :| 0 <= k < |fields[1..]| && AllFieldsOk(h, fields[1..][..k]) && Unwrappable(fields[1..][k]) &&
               RenderFieldOutput(h, fields[1..][k]) == Failure(FieldsRendering(h, fields[1..]).error);
      assert fields[..k + 1] == [fields[0]] + fields[1..][..k];
      assert AllFieldsOk(h, fields[..k + 1]);
      assert fields[k + 1] == fields[1..][k];
    }
  }

  /** On success there is exactly one accessor per field, in field order. */
  lemma {:induction false} AccessorPerField(h: Helpers, fields: seq<Field>)
    requires FieldsRenderable(h, fields)
    requires FieldsRendering(h, fields).Success?
    ensures AllFieldsOk(h, fields)
    ensures |FieldsRendering(h, fields).value.accessors| == |fields|
    ensures forall k :: 0 <= k < |fields| ==>
              FieldsRendering(h, fields).value.accessors[k] == FieldAccessor(h, fields[k], RenderFieldOutput(h, fields[k]).value)
  {
    RenderingSucceedsIff(h, fields);
    if |fields| > 0 {
      AccessorPerField(h, fields[1..]);
      assert forall k :: 1 <= k < |fields| ==> fields[k] == fields[1..][k - 1];
    }
  }

  /** The holder option of every field, in field order. */
  function HolderOptions(h: Helpers, fields: seq<Field>): seq<Option<Decl>>
    requires AllFieldsOk(h, fields)
  {
    seq(|fields|, k requires 0 <= k < |fields| => Holder(h, fields[k]))
  }

  lemma HolderOptionsCons(h: Helpers, fields: seq<Field>)
    requires |fields| > 0 && AllFieldsOk(h, fields)
    ensures AllFieldsOk(h, fields[1..])
    ensures HolderOptions(h, fields) == [Holder(h, fields[0])] + HolderOptions(h, fields[1..])
  {
    assert forall k :: 1 <= k < |fields| ==> fields[k] == fields[1..][k - 1];
  }

  /** On success the holders are those of the fields that have one, in field order. */
  lemma {:induction false} HoldersInFieldOrder(h: Helpers, fields: seq<Field>)
    requires FieldsRenderable(h, fields)
    requires FieldsRendering(h, fields).Success?
    ensures AllFieldsOk(h, fields)
    ensures FieldsRendering(h, fields).value.holders == Flatten(HolderOptions(h, fields))
  {
    RenderingSucceedsIff(h, fields);
    if |fields| > 0 {
      var f := fields[0];
      HoldersInFieldOrder(h, fields[1..]);
      HolderOptionsCons(h, fields);
      var rest := FieldsRendering(h, fields[1..]);
      assert FieldsRendering(h, fields).value.holders == Flatten([Holder(h, f)]) + rest.value.holders;
      FlattenAppend([Holder(h, f)], HolderOptions(h, fields[1..]));
    }
  }
}
