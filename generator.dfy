/** The generator object: it takes one class definition, extracts the class
    name, namespace, path and pattern flags into its fields, and appends the
    class text to its buffer section by section. */
module Generator {
  import opened Wrappers
  import opened Text
  import opened GenerateConfig
  import opened ClassSpec
  import opened ClassText
  import opened ClassFacts

  /** A file the generator writes: where, and what. */
  datatype GeneratedFile = GeneratedFile(path: string, contents: string)

  lemma MethodLinesSnoc(props: seq<Property>, idx: nat, immutable: bool, builder: bool)
    requires idx < |props|
    ensures MethodLines(props[..idx + 1], immutable, builder) ==
            MethodLines(props[..idx], immutable, builder) + PropertyMethodLines(props[idx], immutable, builder)
  {
    assert props[..idx + 1][..idx] == props[..idx];
  }

  lemma BuilderAssignmentsSnoc(props: seq<Property>, idx: nat)
    requires idx < |props|
    ensures BuilderAssignments(props[..idx + 1]) == BuilderAssignments(props[..idx]) + [BuilderAssignment(props[idx])]
  {
    assert props[..idx + 1][..idx] == props[..idx];
  }

  class GeneratePHPClass {
    /** The class definition; `props` holds the normalized list once the
        constructor has finished. */
    var config: ClassDefinition
    /** The class text generated so far. */
    var cls: string
    var namespace: string
    var className: string
    var path: string
    var immutable: bool
    var builderClass: string
    var builder: bool
    var builtClass: string

    /** What the rendering methods read. */
    function Resolved(): ResolvedClass
      reads this
    {
      ResolvedClass(className, namespace, path, config.props.GetOr([]), config.construct,
                    immutable, builderClass, builder, builtClass)
    }

    function PatternFields(): Patterns
      reads this
    {
      Patterns(immutable, builderClass, builder, builtClass)
    }

    /** The object as the constructor finds it: the definition stored and every
        other field at its default. */
    constructor Init(def: ClassDefinition)
      ensures config == def && cls == ""
      ensures namespace == "" && className == "" && path == ""
      ensures PatternFields() == NO_PATTERNS
    {
      config := def;
      cls := "";
      namespace := "";
      className := "";
      path := "";
      immutable := false;
      builderClass := "";
      builder := false;
      builtClass := "";
    }

    /** The constructor: validation, extraction and the property merge. The
        exceptions it throws are returned as `Failure`. */
    static method Create(input: Input) returns (r: Result<GeneratePHPClass, GenError>)
      ensures r.Failure? ==> Extract(input) == Failure(r.error)
      ensures r.Success? ==> fresh(r.value) && r.value.cls == "" && Extract(input) == Success(r.value.Resolved())
    {
      if input.NotMapping? || input.definition == EMPTY_DEFINITION {
        return Failure(InvalidConfig);
      }
      var def := input.definition;
      if def.fqn.None? || def.fqn.value == "" {
        return Failure(MissingFqn);
      }
      var g := new GeneratePHPClass.Init(def);
      var o := g.ExtractClassDetails();
      if o.Fail? {
        return Failure(o.error);
      }
      g.MergeProps();
      return Success(g);
    }

    /** `props` defaulted to the empty list, then `construct` put in front. */
    method MergeProps()
      modifies this
      ensures config == old(config).(props := Some(NormalizedProps(old(config))))
      ensures cls == old(cls) && namespace == old(namespace) && className == old(className) && path == old(path)
      ensures PatternFields() == old(PatternFields())
    {
      if config.props.None? {
        config := config.(props := Some([]));
      }
      if config.construct.Some? {
        config := config.(props := Some([config.construct.value] + config.props.value));
      }
    }

    /** Splits the fqn into class name, namespace and path, then reads the
        class patterns. */
    method ExtractClassDetails() returns (o: Outcome<GenError>)
      requires config.fqn.Some?
      requires namespace == "" && path == "" && PatternFields() == NO_PATTERNS
      modifies this
      ensures config == old(config) && cls == old(cls)
      ensures Identity(className, namespace, path) == SplitFqn(config.fqn.value)
      ensures var rp := ReadPatterns(config.classPatterns.GetOr([]), config.classMetadata);
              && (o.Fail? <==> rp.Failure?)
              && (o.Fail? ==> o.error == rp.error)
              && (o.Pass? ==> PatternFields() == rp.value)
    {
      var parts := Explode(NAMESPACE_SEPARATOR, config.fqn.value);
      var numParts := |parts|;
      className := parts[numParts - 1];
      var idx := 0;
      while idx < numParts
        invariant 0 <= idx <= numParts
        invariant var done := if idx < numParts then idx else numParts - 1;
                  && namespace == ConcatEach(parts[..done], [NAMESPACE_SEPARATOR])
                  && path == ConcatEach(parts[..done], DIRECTORY_SEPARATOR)
        invariant className == parts[numParts - 1] && PatternFields() == NO_PATTERNS
        invariant config == old(config) && cls == old(cls)
      {
        if idx != numParts - 1 {
          assert parts[..idx + 1][..idx] == parts[..idx];
          namespace := namespace + parts[idx] + [NAMESPACE_SEPARATOR];
          path := path + parts[idx] + DIRECTORY_SEPARATOR;
        }
        idx := idx + 1;
      }
      namespace := RTrim(namespace, NAMESPACE_SEPARATOR);
      o := ReadClassPatterns();
    }

    /** Applies each listed pattern in order; a pattern whose companion class
        is not in `class-metadata` stops the reading with its error. */
    method ReadClassPatterns() returns (o: Outcome<GenError>)
      requires PatternFields() == NO_PATTERNS
      modifies this
      ensures var rp := ReadPatterns(config.classPatterns.GetOr([]), config.classMetadata);
              && (o.Fail? <==> rp.Failure?)
              && (o.Fail? ==> o.error == rp.error)
              && (o.Pass? ==> PatternFields() == rp.value)
      ensures config == old(config) && cls == old(cls)
      ensures namespace == old(namespace) && className == old(className) && path == old(path)
    {
      if config.classPatterns.None? || config.classPatterns.value == [] {
        return Pass;
      }
      var names, meta := config.classPatterns.value, config.classMetadata;
      var idx := 0;
      while idx < |names|
        invariant 0 <= idx <= |names|
        invariant ReadPatterns(names[..idx], meta) == Success(PatternFields())
        invariant config == old(config) && cls == old(cls)
        invariant namespace == old(namespace) && className == old(className) && path == old(path)
      {
        var name := names[idx];
        assert names[..idx + 1][..idx] == names[..idx];
        if name == "immutable" {
          if !(meta.Some? && meta.value.builderClass.Some?) {
            ReadPatternsFailureFinal(names, idx + 1, meta);
            return Fail(MissingBuilderClass);
          }
          immutable := true;
          builderClass := meta.value.builderClass.value;
        } else if name == "builder" {
          if !(meta.Some? && meta.value.builtClass.Some?) {
            ReadPatternsFailureFinal(names, idx + 1, meta);
            return Fail(MissingBuiltClass);
          }
          builder := true;
          builtClass := meta.value.builtClass.value;
        }
        idx := idx + 1;
      }
      assert names[..idx] == names;
      o := Pass;
    }

    /** Appends each line followed by PHP_EOL. */
    method Emit(lines: seq<string>)
      modifies this
      ensures cls == old(cls) + Unlines(lines)
      ensures config == old(config) && Resolved() == old(Resolved())
    {
      var i := 0;
      while i < |lines|
        invariant 0 <= i <= |lines|
        invariant cls == old(cls) + Unlines(lines[..i])
        invariant config == old(config) && Resolved() == old(Resolved())
      {
        assert lines[..i + 1][..i] == lines[..i];
        cls := cls + lines[i] + EOL;
        i := i + 1;
      }
      assert lines[..i] == lines;
    }

    /** The generated text: the five sections, in order. */
    method Generate()
      modifies this
      ensures cls == old(cls) + Render(Resolved())
      ensures config == old(config) && Resolved() == old(Resolved())
    {
      BeginClass();
      AddProperties();
      AddConstructor();
      AddMethods();
      CloseClass();
      RenderSections(old(cls), Resolved());
    }

    /** The opening tag, the namespace declaration, a blank line and the
        class header. */
    method BeginClass()
      modifies this
      ensures cls == old(cls) + Unlines(HeaderLines(Resolved()))
      ensures config == old(config) && Resolved() == old(Resolved())
    {
      Emit(["<?php", "namespace " + namespace + ";", "", "class " + className + " {"]);
    }

    /** One field per normalized property, then a blank line. */
    method AddProperties()
      modifies this
      ensures cls == old(cls) + Unlines(PropertiesLines(Resolved().props))
      ensures config == old(config) && Resolved() == old(Resolved())
    {
      var props := config.props.GetOr([]);
      var idx := 0;
      while idx < |props|
        invariant 0 <= idx <= |props|
        invariant cls == old(cls) + Unlines(FieldLines(props[..idx]))
        invariant config == old(config) && Resolved() == old(Resolved())
      {
        assert props[..idx + 1][..idx] == props[..idx];
        Emit([FieldLine(props[idx])]);
        UnlinesAppend(old(cls), FieldLines(props[..idx]), [FieldLine(props[idx])]);
        idx := idx + 1;
      }
      assert props[..idx] == props;
      Emit([""]);
      UnlinesAppend(old(cls), FieldLines(props), [""]);
    }

    /** Nothing without `construct` or the immutable pattern; for an immutable
        class, a constructor copying every property from the builder followed
        by `createBuilder`; otherwise a constructor taking the `construct`
        property. */
    method AddConstructor()
      modifies this
      ensures cls == old(cls) + Unlines(ConstructorLines(Resolved()))
      ensures config == old(config) && Resolved() == old(Resolved())
    {
      var rc := Resolved();
      if config.construct.None? && !immutable {
        return;
      }
      if immutable {
        var hdr := ImmutableConstructorHeader(rc);
        Emit([hdr]);
        ghost var start := cls;
        var props := config.props.GetOr([]);
        var idx := 0;
        while idx < |props|
          invariant 0 <= idx <= |props|
          invariant cls == start + Unlines(BuilderAssignments(props[..idx]))
          invariant config == old(config) && Resolved() == rc
        {
          Emit([BuilderAssignment(props[idx])]);
          BuilderAssignmentsSnoc(props, idx);
          UnlinesAppend(start, BuilderAssignments(props[..idx]), [BuilderAssignment(props[idx])]);
          idx := idx + 1;
        }
        assert props[..idx] == props;
        UnlinesAppend(old(cls), [hdr], BuilderAssignments(props));
        var body := [hdr] + BuilderAssignments(props);
        Emit([BLOCK_END, ""]);
        UnlinesAppend(old(cls), body, [BLOCK_END, ""]);
        Emit(CreateBuilderLines(rc));
        UnlinesAppend(old(cls), body + [BLOCK_END, ""], CreateBuilderLines(rc));
      } else {
        Emit([PlainConstructorHeader(rc), Assignment(ConstructName(rc)), BLOCK_END, ""]);
      }
    }

    /** The methods of one property: its accessor and, unless immutable, its
        setter, which returns `$this` for a builder. */
    method AddPropertyMethods(prop: Property)
      modifies this
      ensures cls == old(cls) + Unlines(PropertyMethodLines(prop, immutable, builder))
      ensures config == old(config) && Resolved() == old(Resolved())
    {
      Emit(AccessorLines(prop));
      if !immutable {
        ghost var acc := cls;
        var head := [SetterHeader(prop), Assignment(prop.name)];
        var fluent: seq<string> := if builder then [FLUENT_RETURN] else [];
        Emit(head);
        if builder {
          Emit([FLUENT_RETURN]);
        } else {
          assert cls == cls + Unlines(fluent);
        }
        ghost var mid := cls;
        Emit([BLOCK_END, ""]);
        UnlinesAppend(acc, head, fluent);
        assert mid == acc + Unlines(head + fluent);
        UnlinesAppend(acc, head + fluent, [BLOCK_END, ""]);
        assert cls == acc + Unlines(SetterLines(prop, builder));
        UnlinesAppend(old(cls), AccessorLines(prop), SetterLines(prop, builder));
      } else {
        assert AccessorLines(prop) + [] == AccessorLines(prop);
      }
    }

    /** Per normalized property an accessor and, unless immutable, a setter
        (returning `$this` for a builder); then `build()` for a builder. */
    method AddMethods()
      modifies this
      ensures cls == old(cls) + Unlines(AllMethodLines(Resolved()))
      ensures config == old(config) && Resolved() == old(Resolved())
    {
      var rc := Resolved();
      var props := config.props.GetOr([]);
      var idx := 0;
      while idx < |props|
        invariant 0 <= idx <= |props|
        invariant cls == old(cls) + Unlines(MethodLines(props[..idx], rc.immutable, rc.builder))
        invariant config == old(config) && Resolved() == rc
      {
        AddPropertyMethods(props[idx]);
        MethodLinesSnoc(props, idx, rc.immutable, rc.builder);
        UnlinesAppend(old(cls), MethodLines(props[..idx], rc.immutable, rc.builder),
                      PropertyMethodLines(props[idx], rc.immutable, rc.builder));
        idx := idx + 1;
      }
      assert props[..idx] == props;
      if builder {
        Emit(BuildLines(rc));
      }
      UnlinesAppend(old(cls), MethodLines(props, rc.immutable, rc.builder), BuildLines(rc));
    }

    /** The file written: `<path><className>.php` with the generated text. The
        existing-file warning does not change what is written. */
    method SaveClass() returns (file: GeneratedFile)
      ensures file.path == TargetFile(Resolved()) && file.contents == cls
    {
      var filePath := path + className + ".php";
      file := GeneratedFile(filePath, cls);
    }

    /** The class's closing brace and a blank line. */
    method CloseClass()
      modifies this
      ensures cls == old(cls) + Unlines(CLOSING_LINES)
      ensures config == old(config) && Resolved() == old(Resolved())
    {
      Emit(["}", ""]);
    }
  }

  /** One class of the batch: construct the generator, generate the text and
      save it. */
  method GenerateClass(input: Input) returns (r: Result<GeneratedFile, GenError>)
    ensures Extract(input).Failure? ==> r == Failure(Extract(input).error)
    ensures Extract(input).Success? ==>
              var rc := Extract(input).value; r == Success(GeneratedFile(TargetFile(rc), Render(rc)))
  {
    var created := GeneratePHPClass.Create(input);
    if created.Failure? {
      return Failure(created.error);
    }
    var gen := created.value;
    gen.Generate();
    assert gen.cls == "" + Render(gen.Resolved()) == Render(gen.Resolved());
    var file := gen.SaveClass();
    return Success(file);
  }

  /** `file` is what the generator writes for `input`. */
  predicate Generates(input: Input, file: GeneratedFile) {
    Extract(input).Success? && file == GeneratedFile(TargetFile(Extract(input).value), Render(Extract(input).value))
  }

  /** The batch: every class definition in order; the first one the
      constructor rejects stops the run with its error, after the files of
      the classes before it. */
  method GenerateAll(inputs: seq<Input>) returns (files: seq<GeneratedFile>, err: Option<GenError>)
    ensures |files| <= |inputs|
    ensures forall i :: 0 <= i < |files| ==> Generates(inputs[i], files[i])
    ensures err.None? <==> |files| == |inputs|
    ensures err.Some? ==> Extract(inputs[|files|]) == Failure(err.value)
  {
    files := [];
    var idx := 0;
    while idx < |inputs|
      invariant 0 <= idx <= |inputs| && |files| == idx
      invariant forall i :: 0 <= i < idx ==> Generates(inputs[i], files[i])
    {
      var r := GenerateClass(inputs[idx]);
      if r.Failure? {
        return files, Some(r.error);
      }
      assert Generates(inputs[idx], r.value);
      files := files + [r.value];
      idx := idx + 1;
    }
    err := None;
  }
}
