/** The class definition the generator reads and what it extracts from it:
    class name, namespace and output path from the `fqn`, the normalized
    property list, and the flags of the `class-patterns`. */
module ClassSpec {
  import opened Wrappers
  import opened Text
  import opened GenerateConfig

  /** One entry of `props` (or the `construct` entry): a bare name, or a
      mapping with `prop`, an optional `fqn` and an optional `type`. */
  datatype Property =
    | Bare(name: string)
    | Structured(name: string, fqn: Option<string>, typ: Option<string>)

  /** The `class-metadata` mapping: the companion class names. */
  datatype Metadata = Metadata(builderClass: Option<string>, builtClass: Option<string>)

  /** One class-definition mapping; a key that is absent is `None`. */
  datatype ClassDefinition = ClassDefinition(
    fqn: Option<string>,
    props: Option<seq<Property>>,
    construct: Option<Property>,
    classPatterns: Option<seq<string>>,
    classMetadata: Option<Metadata>)

  /** What the constructor receives: a scalar or a mapping. */
  datatype Input = NotMapping | Mapping(definition: ClassDefinition)

  /** The exceptions the constructor throws, one per message. */
  datatype GenError =
    | InvalidConfig        // empty or not a mapping
    | MissingFqn           // `fqn` unset or empty
    | MissingBuilderClass  // `immutable` without `class-metadata.builderClass`
    | MissingBuiltClass    // `builder` without `class-metadata.builtClass`

  /** The four pattern fields; names are "" while their flag is unset. */
  datatype Patterns = Patterns(immutable: bool, builderClass: string, builder: bool, builtClass: string)

  const NO_PATTERNS := Patterns(false, "", false, "")

  const EMPTY_DEFINITION := ClassDefinition(None, None, None, None, None)

  /** Class name, namespace and relative output directory. */
  datatype Identity = Identity(className: string, namespace: string, path: string)

  /** Everything rendering reads: the identity, the normalized properties,
      the constructor property and the pattern fields. */
  datatype ResolvedClass = ResolvedClass(
    className: string,
    namespace: string,
    path: string,
    props: seq<Property>,
    construct: Option<Property>,
    immutable: bool,
    builderClass: string,
    builder: bool,
    builtClass: string)

  // ---------------------------------------------------------------------
  // Splitting the fqn

  /** The class name is the last `\`-segment; the namespace is the earlier
      segments each followed by `\`, with trailing `\` stripped; the path is
      the earlier segments each followed by the directory separator. */
  function SplitFqn(fqn: string): Identity {
    var parts := Explode(NAMESPACE_SEPARATOR, fqn);
    var init := parts[..|parts| - 1];
    Identity(parts[|parts| - 1],
             RTrim(ConcatEach(init, [NAMESPACE_SEPARATOR]), NAMESPACE_SEPARATOR),
             ConcatEach(init, DIRECTORY_SEPARATOR))
  }

  /** No segment of the fqn is empty (no leading, trailing or doubled `\`). */
  ghost predicate WellFormedFqn(fqn: string) {
    var parts := Explode(NAMESPACE_SEPARATOR, fqn);
    forall i :: 0 <= i < |parts| ==> parts[i] != ""
  }

  /** A name without `\` is a class in the global namespace, written to the
      current directory. */
  lemma SplitFqnSingleSegment(fqn: string)
    requires NAMESPACE_SEPARATOR !in fqn
    ensures SplitFqn(fqn) == Identity(fqn, "", "")
  {
    ExplodeJoin(NAMESPACE_SEPARATOR, [fqn]);
  }

  /** For a well-formed qualified name, namespace and class name put back
      together give the fqn, the class name holds no `\`, and the path spells
      the namespace with directory separators plus a trailing one. */
  lemma SplitFqnReassembles(fqn: string)
    requires NAMESPACE_SEPARATOR in fqn && WellFormedFqn(fqn)
    ensures var id := SplitFqn(fqn);
            && NAMESPACE_SEPARATOR !in id.className
            && id.namespace + [NAMESPACE_SEPARATOR] + id.className == fqn
            && id.path == Replace(id.namespace, NAMESPACE_SEPARATOR, DIRECTORY_SEPARATOR[0]) + DIRECTORY_SEPARATOR
  {
    var d := NAMESPACE_SEPARATOR;
    var parts := Explode(d, fqn);
    var init := parts[..|parts| - 1];
    JoinExplode(d, fqn);
    assert |parts| >= 2;
    assert forall i :: 0 <= i < |init| ==> init[i] == parts[i];
    var j := Join(d, init);
    ConcatEachIsJoin(init, d);
    assert j != [] && j[|j| - 1] != d by {
      JoinEndsWithLast(d, init);
    }
    RTrimOne(j, d);
    assert Join(d, parts) == j + [d] + parts[|parts| - 1];
    ConcatEachIsJoin(init, DIRECTORY_SEPARATOR[0]);
    ReplaceJoin(init, d, DIRECTORY_SEPARATOR[0]);
  }

  /** An `implode` ends with its last part. */
  lemma JoinEndsWithLast(d: char, parts: seq<string>)
    requires |parts| >= 1 && parts[|parts| - 1] != "" && d !in parts[|parts| - 1]
    ensures var j := Join(d, parts); j != [] && j[|j| - 1] == parts[|parts| - 1][|parts[|parts| - 1]| - 1]
  {
  }

  /** The file the class is written to: the path, the class name, `.php`. */
  function TargetFile(rc: ResolvedClass): string {
    rc.path + rc.className + ".php"
  }

  /** The file is the fqn with every `\` turned into the directory
      separator, plus `.php`; empty segments included (`\App\User` gives
      `/App/User.php`). */
  lemma TargetFileMirrorsFqn(fqn: string)
    ensures var id := SplitFqn(fqn);
            id.path + id.className + ".php" == Replace(fqn, NAMESPACE_SEPARATOR, DIRECTORY_SEPARATOR[0]) + ".php"
  {
    var d, e := NAMESPACE_SEPARATOR, DIRECTORY_SEPARATOR[0];
    var parts := Explode(d, fqn);
    var init := parts[..|parts| - 1];
    JoinExplode(d, fqn);
    ReplaceJoin(parts, d, e);
    if |parts| > 1 {
      assert DIRECTORY_SEPARATOR == [e];
      ConcatEachIsJoin(init, e);
      assert Join(e, parts) == Join(e, init) + [e] + parts[|parts| - 1];
    }
  }

  /** Once extraction succeeds, the file written for the definition is its
      fqn with directory separators, plus `.php`. */
  lemma ExtractTargetFile(input: Input)
    requires Extract(input).Success?
    ensures TargetFile(Extract(input).value) ==
            Replace(input.definition.fqn.value, NAMESPACE_SEPARATOR, DIRECTORY_SEPARATOR[0]) + ".php"
  {
    TargetFileMirrorsFqn(input.definition.fqn.value);
  }

  // ---------------------------------------------------------------------
  // Class patterns

  predicate HasBuilderClass(meta: Option<Metadata>) {
    meta.Some? && meta.value.builderClass.Some?
  }

  predicate HasBuiltClass(meta: Option<Metadata>) {
    meta.Some? && meta.value.builtClass.Some?
  }

  /** One pattern name applied to the fields read so far. */
  function ApplyPattern(acc: Patterns, name: string, meta: Option<Metadata>): Result<Patterns, GenError> {
    if name == "immutable" then
      if HasBuilderClass(meta) then Success(acc.(immutable := true, builderClass := meta.value.builderClass.value))
      else Failure(MissingBuilderClass)
    else if name == "builder" then
      if HasBuiltClass(meta) then Success(acc.(builder := true, builtClass := meta.value.builtClass.value))
      else Failure(MissingBuiltClass)
    else Success(acc)
  }

  /** The pattern names applied in order; the first failing one throws. */
  function ReadPatterns(names: seq<string>, meta: Option<Metadata>): Result<Patterns, GenError> {
    if names == [] then Success(NO_PATTERNS)
    else
      match ReadPatterns(names[..|names| - 1], meta)
      case Failure(e) => Failure(e)
      case Success(acc) => ApplyPattern(acc, names[|names| - 1], meta)
  }

  /** The pattern name cannot be honoured with this metadata. */
  predicate Unsatisfied(name: string, meta: Option<Metadata>) {
    (name == "immutable" && !HasBuilderClass(meta)) || (name == "builder" && !HasBuiltClass(meta))
  }

  function ErrorFor(name: string): GenError {
    if name == "immutable" then MissingBuilderClass else MissingBuiltClass
  }

  /** Reading the patterns fails exactly when some listed pattern lacks its
      metadata. */
  lemma {:induction false} ReadPatternsFails(names: seq<string>, meta: Option<Metadata>)
    ensures ReadPatterns(names, meta).Failure? <==>
            exists i :: 0 <= i < |names| && Unsatisfied(names[i], meta)
    decreases |names|
  {
    if names != [] {
      var init, x := names[..|names| - 1], names[|names| - 1];
      ReadPatternsFails(init, meta);
      assert forall i :: 0 <= i < |init| ==> init[i] == names[i];
      if exists i :: 0 <= i < |names| && Unsatisfied(names[i], meta) {
        var i :| 0 <= i < |names| && Unsatisfied(names[i], meta);
        if i < |init| {
          assert Unsatisfied(init[i], meta);
        }
      }
    }
  }

  /** A failure carries the error of the first pattern that lacks its metadata. */
  lemma {:induction false} ReadPatternsFirstError(names: seq<string>, meta: Option<Metadata>)
    requires ReadPatterns(names, meta).Failure?
    ensures exists i :: 0 <= i < |names| && Unsatisfied(names[i], meta) &&
                        (forall j :: 0 <= j < i ==> !Unsatisfied(names[j], meta)) &&
                        ReadPatterns(names, meta).error == ErrorFor(names[i])
    decreases |names|
  {
    var init, x := names[..|names| - 1], names[|names| - 1];
    assert forall i :: 0 <= i < |init| ==> init[i] == names[i];
    if ReadPatterns(init, meta).Failure? {
      ReadPatternsFirstError(init, meta);
      var i :| 0 <= i < |init| && Unsatisfied(init[i], meta) &&
               (forall j :: 0 <= j < i ==> !Unsatisfied(init[j], meta)) &&
               ReadPatterns(init, meta).error == ErrorFor(init[i]);
      assert Unsatisfied(names[i], meta);
    } else {
      ReadPatternsFails(init, meta);
      assert Unsatisfied(names[|init|], meta);
    }
  }

  /** Once reading the patterns has failed, later names change nothing: the
      first failure is the one reported. */
  lemma {:induction false} ReadPatternsFailureFinal(names: seq<string>, i: nat, meta: Option<Metadata>)
    requires i <= |names| && ReadPatterns(names[..i], meta).Failure?
    ensures ReadPatterns(names, meta) == ReadPatterns(names[..i], meta)
    decreases |names| - i
  {
    if i < |names| {
      assert names[..i + 1][..i] == names[..i];
      ReadPatternsFailureFinal(names, i + 1, meta);
    } else {
      assert names[..i] == names;
    }
  }

  /** On success each flag is set iff its pattern is listed, with the
      metadata's class name, and the class name stays empty otherwise. */
  lemma {:induction false} ReadPatternsSucceeds(names: seq<string>, meta: Option<Metadata>)
    requires ReadPatterns(names, meta).Success?
    ensures var p := ReadPatterns(names, meta).value;
            && p.immutable == ("immutable" in names)
            && p.builder == ("builder" in names)
            && (p.immutable ==> HasBuilderClass(meta))
            && (p.builder ==> HasBuiltClass(meta))
            && p.builderClass == (if p.immutable then meta.value.builderClass.value else "")
            && p.builtClass == (if p.builder then meta.value.builtClass.value else "")
    decreases |names|
  {
    if names != [] {
      var init, x := names[..|names| - 1], names[|names| - 1];
      ReadPatternsSucceeds(init, meta);
      assert names == init + [x];
      assert "immutable" in names <==> "immutable" in init || x == "immutable";
      assert "builder" in names <==> "builder" in init || x == "builder";
    }
  }

  predicate Recognised(name: string) {
    name == "immutable" || name == "builder"
  }

  /** The recognised pattern names, in order. */
  function RecognisedOnly(names: seq<string>): (r: seq<string>)
    ensures forall i :: 0 <= i < |r| ==> Recognised(r[i])
    ensures forall x :: Recognised(x) ==> multiset(r)[x] == multiset(names)[x]
  {
    if names == [] then []
    else
      var init := names[..|names| - 1];
      assert names == init + [names[|names| - 1]];
      RecognisedOnly(init) + (if Recognised(names[|names| - 1]) then [names[|names| - 1]] else [])
  }

  /** Unrecognised pattern names change nothing. */
  lemma {:induction false} UnrecognisedPatternsIgnored(names: seq<string>, meta: Option<Metadata>)
    ensures ReadPatterns(names, meta) == ReadPatterns(RecognisedOnly(names), meta)
    decreases |names|
  {
    if names != [] {
      var init, x := names[..|names| - 1], names[|names| - 1];
      UnrecognisedPatternsIgnored(init, meta);
      var r := RecognisedOnly(init);
      if Recognised(x) {
        assert (r + [x])[..|r|] == r;
      } else {
        assert r + [] == r;
      }
    }
  }

  // ---------------------------------------------------------------------
  // Extraction

  /** `construct` (when set) prepended to `props` (empty when unset). */
  function NormalizedProps(def: ClassDefinition): seq<Property> {
    var props := def.props.GetOr([]);
    if def.construct.Some? then [def.construct.value] + props else props
  }

  /** The whole constructor: validation, fqn split, patterns, property merge. */
  function Extract(input: Input): Result<ResolvedClass, GenError> {
    match input
    case NotMapping => Failure(InvalidConfig)
    case Mapping(def) =>
      if def == EMPTY_DEFINITION then Failure(InvalidConfig)
      else if def.fqn.None? || def.fqn.value == "" then Failure(MissingFqn)
      else
        var id := SplitFqn(def.fqn.value);
        match ReadPatterns(def.classPatterns.GetOr([]), def.classMetadata)
        case Failure(e) => Failure(e)
        case Success(p) =>
          Success(ResolvedClass(id.className, id.namespace, id.path, NormalizedProps(def), def.construct,
                                p.immutable, p.builderClass, p.builder, p.builtClass))
  }

  /** Extraction fails exactly on a non-mapping or empty input, a missing or
      empty `fqn`, or a listed pattern whose metadata is missing; when it
      succeeds, the normalized list starts with `construct` and continues
      with `props`, and each flag is set iff its pattern is listed. */
  lemma ExtractOutcome(input: Input)
    ensures Extract(input).Failure? <==>
            || input.NotMapping?
            || input.definition == EMPTY_DEFINITION
            || input.definition.fqn.None? || input.definition.fqn.value == ""
            || exists i :: 0 <= i < |input.definition.classPatterns.GetOr([])| &&
                           Unsatisfied(input.definition.classPatterns.GetOr([])[i], input.definition.classMetadata)
    ensures Extract(input).Success? ==>
            var def, rc := input.definition, Extract(input).value;
            && rc.props == (if def.construct.Some? then [def.construct.value] else []) + def.props.GetOr([])
            && rc.immutable == ("immutable" in def.classPatterns.GetOr([]))
            && rc.builder == ("builder" in def.classPatterns.GetOr([]))
            && (rc.immutable ==> rc.builderClass == def.classMetadata.value.builderClass.value)
            && (rc.builder ==> rc.builtClass == def.classMetadata.value.builtClass.value)
            && rc.className == SplitFqn(def.fqn.value).className
  {
    if input.Mapping? {
      var names, meta := input.definition.classPatterns.GetOr([]), input.definition.classMetadata;
      ReadPatternsFails(names, meta);
      if ReadPatterns(names, meta).Success? {
        ReadPatternsSucceeds(names, meta);
      }
    }
  }
}
