/** What the emitted class contains: for each kind of declaration line, the
    exact list of such lines in the whole output, in order. */
module ClassFacts {
  import opened Wrappers
  import opened Text
  import opened GenerateConfig
  import opened ClassSpec
  import opened ClassText

  datatype LineKind =
    | FieldDeclaration
    | ConstructorDeclaration
    | CreateBuilderDeclaration
    | AccessorDeclaration
    | SetterDeclaration
    | BuildDeclaration
    | FluentReturn
    | OtherLine


  /** Classifies a line by its indentation and the text that follows it:
      class members sit one tab deep, method bodies two. */
  function Kind(line: string): LineKind {
    KindAt(line, 0)
  }

  /** `depth` spaces have been skipped before `text`. */
  function KindAt(text: string, depth: nat): LineKind
    decreases |text|
  {
    if |text| > 0 && text[0] == ' ' then KindAt(text[1..], depth + 1)
    else if depth == |TAB_CHARACTER| then MemberKind(text)
    else if depth == |INDENT2| && text == "return $this;" then FluentReturn
    else OtherLine
  }

  function MemberKind(text: string): LineKind {
    if HasPrefix(text, FIELD_KEYWORD) then FieldDeclaration
    else if HasPrefix(text, FUNCTION_KEYWORD) then FunctionKind(text[|FUNCTION_KEYWORD|..])
    else OtherLine
  }

  /** A `public function` line is classified by the word after the marker. */
  function FunctionKind(rest: string): LineKind {
    if HasPrefix(rest, "__construct(") then ConstructorDeclaration
    else if HasPrefix(rest, "createBuilder(") then CreateBuilderDeclaration
    else if HasPrefix(rest, "get") || HasPrefix(rest, "is") then AccessorDeclaration
    else if HasPrefix(rest, "set") then SetterDeclaration
    else if rest == "build() {" then BuildDeclaration
    else OtherLine
  }

  /** The lines of one kind, in order. */
  function Select(lines: seq<string>, k: LineKind): seq<string> {
    if lines == [] then []
    else Select(lines[..|lines| - 1], k) + (if Kind(lines[|lines| - 1]) == k then [lines[|lines| - 1]] else [])
  }

  lemma {:induction false} SelectAppend(a: seq<string>, b: seq<string>, k: LineKind)
    ensures Select(a + b, k) == Select(a, k) + Select(b, k)
    decreases |b|
  {
    if b == [] {
      assert a + b == a;
    } else {
      SelectAppend(a, b[..|b| - 1], k);
      assert (a + b)[..|a + b| - 1] == a + b[..|b| - 1];
    }
  }

  // Kinds of the template lines

  /** Words whose first characters differ are not prefixes of each other. */
  lemma FirstDiffers(s: string, p: string)
    requires |s| > 0 && |p| > 0 && s[0] != p[0]
    ensures !HasPrefix(s, p)
  {
    NotPrefixAt(s, p, 0);
  }

  lemma Differs(a: string, b: string, k: nat)
    requires k < |a| && k < |b| && a[k] != b[k]
    ensures a != b
  {
  }

  /** Leading spaces only deepen the indentation. */
  lemma {:induction false} SkipSpaces(spaces: string, rest: string, depth: nat)
    requires forall i :: 0 <= i < |spaces| ==> spaces[i] == ' '
    ensures KindAt(spaces + rest, depth) == KindAt(rest, depth + |spaces|)
    decreases |spaces|
  {
    if |spaces| > 0 {
      assert (spaces + rest)[0] == ' ';
      assert (spaces + rest)[1..] == spaces[1..] + rest;
      SkipSpaces(spaces[1..], rest, depth + 1);
    } else {
      assert spaces + rest == rest;
    }
  }

  /** A line two tabs deep declares nothing, unless it is the fluent return. */
  lemma BodyLineKind(rest: string)
    requires |rest| > 0 && rest[0] != ' '
    ensures Kind(INDENT2 + rest) == if rest == "return $this;" then FluentReturn else OtherLine
  {
    SkipSpaces(INDENT2, rest, 0);
  }

  /** A line one tab deep that is neither a field nor a method declares nothing. */
  lemma MemberLineKind(rest: string)
    requires |rest| > 0 && rest[0] != ' '
    ensures Kind(TAB_CHARACTER + rest) == MemberKind(rest)
  {
    SkipSpaces(TAB_CHARACTER, rest, 0);
  }

  lemma FunctionLineKind(rest: string)
    ensures Kind(FUNCTION_DECL + rest) == FunctionKind(rest)
  {
    var text := FUNCTION_KEYWORD + rest;
    assert FUNCTION_DECL + rest == TAB_CHARACTER + text;
    assert text[0] == 'p' && text[1] == 'u';
    MemberLineKind(text);
    NotPrefixAt(text, FIELD_KEYWORD, 1);
    PrefixOfAppend(FUNCTION_KEYWORD, rest);
    assert text[|FUNCTION_KEYWORD|..] == rest;
  }

  /** Lines that do not start with a space declare nothing. */
  lemma UnindentedLineKind(l: string)
    requires |l| > 0 ==> l[0] != ' '
    ensures Kind(l) == OtherLine
  {
  }

  lemma FixedLineKinds()
    ensures Kind("") == OtherLine
    ensures Kind("}") == OtherLine
    ensures Kind(BLOCK_END) == OtherLine
    ensures Kind(FLUENT_RETURN) == FluentReturn
    ensures Kind(BUILD_HEADER) == BuildDeclaration
  {
    UnindentedLineKind("");
    UnindentedLineKind("}");
    MemberLineKind("}");
    NotPrefixAt("}", FIELD_KEYWORD, 0);
    NotPrefixAt("}", FUNCTION_KEYWORD, 0);
    BodyLineKind("return $this;");
    FunctionLineKind("build() {");
    FirstDiffers("build() {", "__construct(");
    FirstDiffers("build() {", "createBuilder(");
    FirstDiffers("build() {", "get");
    FirstDiffers("build() {", "is");
    FirstDiffers("build() {", "set");
  }

  lemma HeaderLineKinds(rc: ResolvedClass)
    ensures forall i :: 0 <= i < |HeaderLines(rc)| ==> Kind(HeaderLines(rc)[i]) == OtherLine
  {
    var h := HeaderLines(rc);
    UnindentedLineKind(h[0]);
    UnindentedLineKind(h[1]);
    UnindentedLineKind(h[2]);
    UnindentedLineKind(h[3]);
  }

  lemma FieldLineKind(p: Property)
    ensures Kind(FieldLine(p)) == FieldDeclaration
  {
    var text := FIELD_KEYWORD + (FieldName(p.name) + ";");
    assert FieldLine(p) == TAB_CHARACTER + text;
    assert text[0] == 'p';
    MemberLineKind(text);
    PrefixOfAppend(FIELD_KEYWORD, FieldName(p.name) + ";");
  }

  lemma ImmutableConstructorHeaderKind(rc: ResolvedClass)
    ensures Kind(ImmutableConstructorHeader(rc)) == ConstructorDeclaration
  {
    var x := "\\" + rc.builderClass + " $builder) {";
    PrefixOfAppend("__construct(", x);
    FunctionLineKind("__construct(" + x);
  }

  lemma PlainConstructorHeaderKind(rc: ResolvedClass)
    ensures Kind(PlainConstructorHeader(rc)) == ConstructorDeclaration
  {
    var x := ConstructHint(rc) + "$" + ConstructName(rc) + " = null) {";
    PrefixOfAppend("__construct(", x);
    FunctionLineKind("__construct(" + x);
  }

  lemma CreateBuilderHeaderKind(rc: ResolvedClass)
    ensures Kind(CreateBuilderHeader(rc)) == CreateBuilderDeclaration
  {
    var r := "createBuilder(" + (CreateBuilderParam(rc) + ") {");
    PrefixOfAppend("createBuilder(", CreateBuilderParam(rc) + ") {");
    assert r[0] == 'c' && r[1] == 'r';
    NotPrefixAt(r, "__construct(", 0);
    FunctionLineKind(r);
  }

  lemma AccessorHeaderKind(p: Property)
    ensures Kind(AccessorHeader(p)) == AccessorDeclaration
  {
    var x := Ucfirst(p.name) + "() {";
    var r := AccessorVerb(p) + x;
    PrefixOfAppend(AccessorVerb(p), x);
    if IsBoolean(p) {
      assert r[0] == 'i';
    } else {
      assert r[0] == 'g';
    }
    NotPrefixAt(r, "__construct(", 0);
    NotPrefixAt(r, "createBuilder(", 0);
    FunctionLineKind(r);
  }

  lemma SetterHeaderKind(p: Property)
    ensures Kind(SetterHeader(p)) == SetterDeclaration
  {
    var x := Ucfirst(p.name) + "(" + TypeHint(p) + "$" + p.name + ") {";
    var r := "set" + x;
    PrefixOfAppend("set", x);
    assert r[0] == 's';
    NotPrefixAt(r, "__construct(", 0);
    NotPrefixAt(r, "createBuilder(", 0);
    NotPrefixAt(r, "get", 0);
    NotPrefixAt(r, "is", 0);
    FunctionLineKind(r);
  }

  /** A body line other than the fluent return, told apart from it at index `k`. */
  lemma PlainBodyKind(x: string, k: nat)
    requires 0 < |x| && x[0] != ' '
    requires k < |x| && k < 13 && x[k] != "return $this;"[k]
    ensures Kind(INDENT2 + x) == OtherLine
  {
    Differs(x, "return $this;", k);
    BodyLineKind(x);
  }

  lemma BuilderAssignmentKind(p: Property)
    ensures Kind(BuilderAssignment(p)) == OtherLine
  {
    var x := "$this->" + FieldName(p.name) + " = $builder->get" + Ucfirst(p.name) + "();";
    assert x[0] == '$';
    PlainBodyKind(x, 0);
  }

  lemma AssignmentKind(name: string)
    ensures Kind(Assignment(name)) == OtherLine
  {
    var x := "$this->" + FieldName(name) + " = $" + name + ";";
    assert x[0] == '$';
    PlainBodyKind(x, 0);
  }

  lemma CreateBuilderReturnKind(rc: ResolvedClass)
    ensures Kind(CreateBuilderReturn(rc)) == OtherLine
  {
    var x := "return new \\" + rc.builderClass + "(" + CreateBuilderArg(rc) + ");";
    assert x[0] == 'r' && x[7] == 'n';
    PlainBodyKind(x, 7);
  }

  lemma AccessorReturnKind(p: Property)
    ensures Kind(AccessorReturn(p)) == OtherLine
  {
    if IsBoolean(p) {
      var x := "return empty($this->" + FieldName(p.name) + ") ? false : true;";
      assert x[0] == 'r' && x[7] == 'e';
      PlainBodyKind(x, 7);
    } else {
      var x := "return $this->" + FieldName(p.name) + ";";
      assert x[0] == 'r' && x[12] == '-';
      PlainBodyKind(x, 12);
    }
  }

  lemma BuildReturnKind(rc: ResolvedClass)
    ensures Kind(BuildReturn(rc)) == OtherLine
  {
    var x := "return new \\" + rc.builtClass + "($this);";
    assert x[0] == 'r' && x[7] == 'n';
    PlainBodyKind(x, 7);
  }

  // ---------------------------------------------------------------------
  // Selecting declarations section by section

  lemma SelectSingleton(l: string, k: LineKind)
    ensures Select([l], k) == if Kind(l) == k then [l] else []
  {
    assert [l][..0] == [];
  }

  lemma {:induction false} SelectNone(ls: seq<string>, k: LineKind)
    requires k != OtherLine
    requires forall i :: 0 <= i < |ls| ==> Kind(ls[i]) == OtherLine
    ensures Select(ls, k) == []
    decreases |ls|
  {
    if ls != [] {
      SelectNone(ls[..|ls| - 1], k);
    }
  }

  // One more line adds itself exactly when it has the kind.

  lemma SelectSnoc2(a: string, b: string, k: LineKind)
    ensures Select([a, b], k) == Select([a], k) + (if Kind(b) == k then [b] else [])
  {
    assert [a, b][..1] == [a];
  }

  lemma SelectSnoc3(a: string, b: string, c: string, k: LineKind)
    ensures Select([a, b, c], k) == Select([a, b], k) + (if Kind(c) == k then [c] else [])
  {
    assert [a, b, c][..2] == [a, b];
  }

  lemma SelectSnoc4(a: string, b: string, c: string, d: string, k: LineKind)
    ensures Select([a, b, c, d], k) == Select([a, b, c], k) + (if Kind(d) == k then [d] else [])
  {
    assert [a, b, c, d][..3] == [a, b, c];
  }

  lemma SelectSnoc5(a: string, b: string, c: string, d: string, e: string, k: LineKind)
    ensures Select([a, b, c, d, e], k) == Select([a, b, c, d], k) + (if Kind(e) == k then [e] else [])
  {
    assert [a, b, c, d, e][..4] == [a, b, c, d];
  }

  /** A four-line method block whose last three lines declare nothing
      selects at most its first line. */
  lemma SelectBlock(a: string, b: string, c: string, d: string, k: LineKind)
    requires k != OtherLine
    requires Kind(b) == OtherLine && Kind(c) == OtherLine && Kind(d) == OtherLine
    ensures Select([a, b, c, d], k) == if Kind(a) == k then [a] else []
  {
    SelectSingleton(a, k);
    SelectSnoc2(a, b, k);
    SelectSnoc3(a, b, c, k);
    SelectSnoc4(a, b, c, d, k);
  }

  /** A five-line block whose third line is the fluent return. */
  lemma SelectFluentBlock(a: string, b: string, c: string, d: string, e: string, k: LineKind)
    requires k != OtherLine && Kind(c) == FluentReturn
    requires Kind(b) == OtherLine && Kind(d) == OtherLine && Kind(e) == OtherLine
    ensures Select([a, b, c, d, e], k) ==
            (if Kind(a) == k then [a] else []) + (if k == FluentReturn then [c] else [])
  {
    SelectSingleton(a, k);
    SelectSnoc2(a, b, k);
    SelectSnoc3(a, b, c, k);
    SelectSnoc4(a, b, c, d, k);
    SelectSnoc5(a, b, c, d, e, k);
  }

  /** `f` applied to each property, in order. */
  function Each(ps: seq<Property>, f: Property -> string): (r: seq<string>)
    ensures |r| == |ps|
  {
    seq(|ps|, i requires 0 <= i < |ps| => f(ps[i]))
  }

  lemma EachSnoc(ps: seq<Property>, f: Property -> string)
    requires ps != []
    ensures Each(ps, f) == Each(ps[..|ps| - 1], f) + [f(ps[|ps| - 1])]
  {
  }

  lemma {:induction false} FieldLinesAre(ps: seq<Property>)
    ensures FieldLines(ps) == Each(ps, FieldLine)
    decreases |ps|
  {
    if ps != [] {
      FieldLinesAre(ps[..|ps| - 1]);
      EachSnoc(ps, FieldLine);
    }
  }

  lemma {:induction false} BuilderAssignmentsAre(ps: seq<Property>)
    ensures BuilderAssignments(ps) == Each(ps, BuilderAssignment)
    decreases |ps|
  {
    if ps != [] {
      BuilderAssignmentsAre(ps[..|ps| - 1]);
      EachSnoc(ps, BuilderAssignment);
    }
  }

  lemma SelectHeader(rc: ResolvedClass, k: LineKind)
    requires k != OtherLine
    ensures Select(HeaderLines(rc), k) == []
  {
    HeaderLineKinds(rc);
    SelectNone(HeaderLines(rc), k);
  }

  lemma {:induction false} SelectFieldLines(ps: seq<Property>, k: LineKind)
    requires k != OtherLine
    ensures Select(FieldLines(ps), k) == if k == FieldDeclaration then FieldLines(ps) else []
    decreases |ps|
  {
    if ps != [] {
      var init := ps[..|ps| - 1];
      SelectFieldLines(init, k);
      SelectAppend(FieldLines(init), [FieldLine(ps[|ps| - 1])], k);
      SelectSingleton(FieldLine(ps[|ps| - 1]), k);
      FieldLineKind(ps[|ps| - 1]);
    }
  }

  lemma SelectProperties(ps: seq<Property>, k: LineKind)
    requires k != OtherLine
    ensures Select(PropertiesLines(ps), k) == if k == FieldDeclaration then Each(ps, FieldLine) else []
  {
    SelectFieldLines(ps, k);
    SelectAppend(FieldLines(ps), [""], k);
    SelectSingleton("", k);
    FixedLineKinds();
    FieldLinesAre(ps);
  }

  /** The constructor section's declarations. */
  function ConstructorDeclared(rc: ResolvedClass, k: LineKind): seq<string> {
    (if k == ConstructorDeclaration && HasConstructor(rc) then [ConstructorHeader(rc)] else []) +
    (if k == CreateBuilderDeclaration && rc.immutable then [CreateBuilderHeader(rc)] else [])
  }

  lemma {:induction false} SelectBuilderAssignments(ps: seq<Property>, k: LineKind)
    requires k != OtherLine
    ensures Select(BuilderAssignments(ps), k) == []
    decreases |ps|
  {
    if ps != [] {
      var init := ps[..|ps| - 1];
      SelectBuilderAssignments(init, k);
      SelectAppend(BuilderAssignments(init), [BuilderAssignment(ps[|ps| - 1])], k);
      SelectSingleton(BuilderAssignment(ps[|ps| - 1]), k);
      BuilderAssignmentKind(ps[|ps| - 1]);
    }
  }

  /** A header line followed by lines that declare nothing. */
  lemma SelectLed(hdr: string, body: seq<string>, tail: seq<string>, k: LineKind)
    requires Select(body, k) == [] && Select(tail, k) == []
    ensures Select([hdr] + body + tail, k) == if Kind(hdr) == k then [hdr] else []
  {
    SelectAppend([hdr] + body, tail, k);
    SelectAppend([hdr], body, k);
    SelectSingleton(hdr, k);
  }

  lemma SelectBuilderConsumingBody(rc: ResolvedClass, k: LineKind)
    requires k != OtherLine
    ensures var hdr := ImmutableConstructorHeader(rc);
            Select([hdr] + BuilderAssignments(rc.props) + [BLOCK_END, ""], k) ==
            if k == ConstructorDeclaration then [hdr] else []
  {
    ImmutableConstructorHeaderKind(rc);
    SelectBuilderAssignments(rc.props, k);
    FixedLineKinds();
    SelectNone([BLOCK_END, ""], k);
    SelectLed(ImmutableConstructorHeader(rc), BuilderAssignments(rc.props), [BLOCK_END, ""], k);
  }

  lemma SelectCreateBuilder(rc: ResolvedClass, k: LineKind)
    requires k != OtherLine
    ensures Select(CreateBuilderLines(rc), k) ==
            if k == CreateBuilderDeclaration then [CreateBuilderHeader(rc)] else []
  {
    FixedLineKinds();
    var cb := CreateBuilderLines(rc);
    CreateBuilderHeaderKind(rc);
    CreateBuilderReturnKind(rc);
    SelectBlock(cb[0], cb[1], cb[2], cb[3], k);
  }

  lemma SelectImmutableConstructor(rc: ResolvedClass, k: LineKind)
    requires k != OtherLine && rc.immutable
    ensures Select(ConstructorLines(rc), k) == ConstructorDeclared(rc, k)
  {
    var body := [ImmutableConstructorHeader(rc)] + BuilderAssignments(rc.props) + [BLOCK_END, ""];
    SelectBuilderConsumingBody(rc, k);
    SelectCreateBuilder(rc, k);
    SelectAppend(body, CreateBuilderLines(rc), k);
  }

  lemma SelectPlainConstructor(rc: ResolvedClass, k: LineKind)
    requires k != OtherLine && !rc.immutable && rc.construct.Some?
    ensures Select(ConstructorLines(rc), k) == ConstructorDeclared(rc, k)
  {
    FixedLineKinds();
    var ls := ConstructorLines(rc);
    PlainConstructorHeaderKind(rc);
    AssignmentKind(ConstructName(rc));
    SelectBlock(ls[0], ls[1], ls[2], ls[3], k);
  }

  lemma SelectConstructor(rc: ResolvedClass, k: LineKind)
    requires k != OtherLine
    ensures Select(ConstructorLines(rc), k) == ConstructorDeclared(rc, k)
  {
    if rc.immutable {
      SelectImmutableConstructor(rc, k);
    } else if rc.construct.Some? {
      SelectPlainConstructor(rc, k);
    }
  }

  lemma SelectAccessorLines(p: Property, k: LineKind)
    requires k != OtherLine
    ensures Select(AccessorLines(p), k) == if k == AccessorDeclaration then [AccessorHeader(p)] else []
  {
    FixedLineKinds();
    var ls := AccessorLines(p);
    AccessorHeaderKind(p);
    AccessorReturnKind(p);
    SelectBlock(ls[0], ls[1], ls[2], ls[3], k);
  }

  lemma SelectSetterLines(p: Property, builder: bool, k: LineKind)
    requires k != OtherLine
    ensures Select(SetterLines(p, builder), k) ==
            (if k == SetterDeclaration then [SetterHeader(p)] else []) +
            (if k == FluentReturn && builder then [FLUENT_RETURN] else [])
  {
    FixedLineKinds();
    var h, a := SetterHeader(p), Assignment(p.name);
    SetterHeaderKind(p);
    AssignmentKind(p.name);
    if builder {
      assert SetterLines(p, builder) == [h, a, FLUENT_RETURN, BLOCK_END, ""];
      SelectFluentBlock(h, a, FLUENT_RETURN, BLOCK_END, "", k);
    } else {
      assert SetterLines(p, builder) == [h, a, BLOCK_END, ""];
      SelectBlock(h, a, BLOCK_END, "", k);
    }
  }

  /** The declarations among one property's methods. */
  function PropertyDeclared(p: Property, immutable: bool, builder: bool, k: LineKind): seq<string> {
    (if k == AccessorDeclaration then [AccessorHeader(p)] else []) +
    (if immutable then []
     else (if k == SetterDeclaration then [SetterHeader(p)] else []) +
          (if k == FluentReturn && builder then [FLUENT_RETURN] else []))
  }

  lemma SelectPropertyMethods(p: Property, immutable: bool, builder: bool, k: LineKind)
    requires k != OtherLine
    ensures Select(PropertyMethodLines(p, immutable, builder), k) == PropertyDeclared(p, immutable, builder, k)
  {
    SelectAccessorLines(p, k);
    var setters := if immutable then [] else SetterLines(p, builder);
    if !immutable {
      SelectSetterLines(p, builder, k);
    }
    SelectAppend(AccessorLines(p), setters, k);
  }

  /** The declarations among all per-property methods, property by property. */
  function MethodsDeclared(ps: seq<Property>, immutable: bool, builder: bool, k: LineKind): seq<string> {
    if ps == [] then []
    else MethodsDeclared(ps[..|ps| - 1], immutable, builder, k) + PropertyDeclared(ps[|ps| - 1], immutable, builder, k)
  }

  lemma {:induction false} SelectMethodLines(ps: seq<Property>, immutable: bool, builder: bool, k: LineKind)
    requires k != OtherLine
    ensures Select(MethodLines(ps, immutable, builder), k) == MethodsDeclared(ps, immutable, builder, k)
    decreases |ps|
  {
    if ps != [] {
      var init, p := ps[..|ps| - 1], ps[|ps| - 1];
      SelectMethodLines(init, immutable, builder, k);
      SelectPropertyMethods(p, immutable, builder, k);
      SelectAppend(MethodLines(init, immutable, builder), PropertyMethodLines(p, immutable, builder), k);
    }
  }

  lemma {:induction false} MethodAccessors(ps: seq<Property>, immutable: bool, builder: bool)
    ensures MethodsDeclared(ps, immutable, builder, AccessorDeclaration) == Each(ps, AccessorHeader)
    decreases |ps|
  {
    if ps != [] {
      MethodAccessors(ps[..|ps| - 1], immutable, builder);
      EachSnoc(ps, AccessorHeader);
    }
  }

  lemma {:induction false} MethodSetters(ps: seq<Property>, immutable: bool, builder: bool)
    ensures MethodsDeclared(ps, immutable, builder, SetterDeclaration) ==
            if immutable then [] else Each(ps, SetterHeader)
    decreases |ps|
  {
    if ps != [] {
      MethodSetters(ps[..|ps| - 1], immutable, builder);
      EachSnoc(ps, SetterHeader);
    }
  }

  lemma {:induction false} MethodFluentReturns(ps: seq<Property>, immutable: bool, builder: bool)
    ensures |MethodsDeclared(ps, immutable, builder, FluentReturn)| ==
            if immutable || !builder then 0 else |ps|
    decreases |ps|
  {
    if ps != [] {
      MethodFluentReturns(ps[..|ps| - 1], immutable, builder);
    }
  }

  /** Fields, constructors and `build()` never come from a per-property method. */
  lemma {:induction false} MethodOthers(ps: seq<Property>, immutable: bool, builder: bool, k: LineKind)
    requires k == FieldDeclaration || k == ConstructorDeclaration || k == CreateBuilderDeclaration || k == BuildDeclaration
    ensures MethodsDeclared(ps, immutable, builder, k) == []
    decreases |ps|
  {
    if ps != [] {
      MethodOthers(ps[..|ps| - 1], immutable, builder, k);
    }
  }

  lemma SelectBuildLines(rc: ResolvedClass, k: LineKind)
    requires k != OtherLine
    ensures Select(BuildLines(rc), k) == if k == BuildDeclaration && rc.builder then [BUILD_HEADER] else []
  {
    FixedLineKinds();
    if rc.builder {
      var ls := BuildLines(rc);
      BuildReturnKind(rc);
      SelectBlock(ls[0], ls[1], ls[2], ls[3], k);
    }
  }

  lemma SelectClosing(k: LineKind)
    requires k != OtherLine
    ensures Select(CLOSING_LINES, k) == []
  {
    FixedLineKinds();
    SelectNone(CLOSING_LINES, k);
  }

  // ---------------------------------------------------------------------
  // The whole class

  /** Sections between a leading and a trailing part that select nothing. */
  lemma SelectSections(h: seq<string>, f: seq<string>, c: seq<string>, m: seq<string>, e: seq<string>, k: LineKind)
    requires Select(h, k) == [] && Select(e, k) == []
    ensures Select(h + f + c + m + e, k) == Select(f, k) + Select(c, k) + Select(m, k)
  {
    SelectAppend(h + f + c + m, e, k);
    SelectAppend(h + f + c, m, k);
    SelectAppend(h + f, c, k);
    SelectAppend(h, f, k);
  }

  lemma SelectAllMethods(rc: ResolvedClass, k: LineKind)
    ensures Select(AllMethodLines(rc), k) ==
            Select(MethodLines(rc.props, rc.immutable, rc.builder), k) + Select(BuildLines(rc), k)
  {
    SelectAppend(MethodLines(rc.props, rc.immutable, rc.builder), BuildLines(rc), k);
  }

  /** The lines of kind `k` in a resolved class's output, section by section. */
  lemma SelectClassLines(rc: ResolvedClass, k: LineKind)
    requires k != OtherLine
    ensures Select(ClassLines(rc), k) ==
            Select(PropertiesLines(rc.props), k) + Select(ConstructorLines(rc), k) +
            (Select(MethodLines(rc.props, rc.immutable, rc.builder), k) + Select(BuildLines(rc), k))
  {
    SelectHeader(rc, k);
    SelectClosing(k);
    SelectSections(HeaderLines(rc), PropertiesLines(rc.props), ConstructorLines(rc), AllMethodLines(rc), CLOSING_LINES, k);
    SelectAllMethods(rc, k);
  }

  /** The declarations of kind `k` in the whole class, section by section. */
  function Declared(rc: ResolvedClass, k: LineKind): seq<string> {
    (if k == FieldDeclaration then Each(rc.props, FieldLine) else []) +
    ConstructorDeclared(rc, k) +
    (MethodsDeclared(rc.props, rc.immutable, rc.builder, k) +
     (if k == BuildDeclaration && rc.builder then [BUILD_HEADER] else []))
  }

  lemma ClassDeclarations(rc: ResolvedClass, k: LineKind)
    requires k != OtherLine
    ensures Select(ClassLines(rc), k) == Declared(rc, k)
  {
    SelectClassLines(rc, k);
    SelectProperties(rc.props, k);
    SelectConstructor(rc, k);
    SelectMethodLines(rc.props, rc.immutable, rc.builder, k);
    SelectBuildLines(rc, k);
  }

  /** The field declarations of the class are exactly one `private $_<name>;`
      per normalized property, in normalized order. */
  lemma FieldDeclarations(rc: ResolvedClass)
    ensures Select(ClassLines(rc), FieldDeclaration) == Each(rc.props, FieldLine)
  {
    ClassDeclarations(rc, FieldDeclaration);
    MethodOthers(rc.props, rc.immutable, rc.builder, FieldDeclaration);
  }

  /** There is one constructor iff `construct` is set or the class is
      immutable; it is the builder-consuming one iff the class is immutable. */
  lemma ConstructorDeclarations(rc: ResolvedClass)
    ensures Select(ClassLines(rc), ConstructorDeclaration) ==
            if rc.construct.Some? || rc.immutable then
              [if rc.immutable then ImmutableConstructorHeader(rc) else PlainConstructorHeader(rc)]
            else []
  {
    ClassDeclarations(rc, ConstructorDeclaration);
    MethodOthers(rc.props, rc.immutable, rc.builder, ConstructorDeclaration);
  }

  /** `createBuilder` appears, once, iff the class is immutable. */
  lemma CreateBuilderDeclarations(rc: ResolvedClass)
    ensures Select(ClassLines(rc), CreateBuilderDeclaration) ==
            if rc.immutable then [CreateBuilderHeader(rc)] else []
  {
    ClassDeclarations(rc, CreateBuilderDeclaration);
    MethodOthers(rc.props, rc.immutable, rc.builder, CreateBuilderDeclaration);
  }

  /** One accessor per normalized property, in order. */
  lemma AccessorDeclarations(rc: ResolvedClass)
    ensures Select(ClassLines(rc), AccessorDeclaration) == Each(rc.props, AccessorHeader)
  {
    ClassDeclarations(rc, AccessorDeclaration);
    assert Declared(rc, AccessorDeclaration) == MethodsDeclared(rc.props, rc.immutable, rc.builder, AccessorDeclaration);
    MethodAccessors(rc.props, rc.immutable, rc.builder);
  }

  /** An accessor is `is<Name>` for a boolean-typed property, `get<Name>` otherwise. */
  lemma AccessorIsPrefix(p: Property)
    ensures HasPrefix(AccessorHeader(p), FUNCTION_DECL + "is") <==> IsBoolean(p)
  {
    var r := AccessorVerb(p) + (Ucfirst(p.name) + "() {");
    PrefixShift(FUNCTION_DECL, r, "is");
    if IsBoolean(p) {
      PrefixOfAppend("is", Ucfirst(p.name) + "() {");
    } else {
      assert r[0] == 'g';
      NotPrefixAt(r, "is", 0);
    }
  }

  /** Setters: none for an immutable class, otherwise one `set<Name>` per
      normalized property, in order. */
  lemma SetterDeclarations(rc: ResolvedClass)
    ensures Select(ClassLines(rc), SetterDeclaration) ==
            if rc.immutable then [] else Each(rc.props, SetterHeader)
  {
    ClassDeclarations(rc, SetterDeclaration);
    assert Declared(rc, SetterDeclaration) == MethodsDeclared(rc.props, rc.immutable, rc.builder, SetterDeclaration);
    MethodSetters(rc.props, rc.immutable, rc.builder);
  }

  /** `return $this;` closes every setter of a builder and nothing else: the
      class has one such line per property iff it is a builder and not
      immutable, and none otherwise. */
  lemma FluentSetters(rc: ResolvedClass)
    ensures |Select(ClassLines(rc), FluentReturn)| ==
            if rc.builder && !rc.immutable then |rc.props| else 0
  {
    ClassDeclarations(rc, FluentReturn);
    MethodFluentReturns(rc.props, rc.immutable, rc.builder);
  }

  /** Every setter header has a body line two lines further down, and that
      line is `return $this;` exactly when the setters are fluent. */
  ghost predicate SettersClosed(ls: seq<string>, fluent: bool) {
    forall i :: 0 <= i < |ls| && Kind(ls[i]) == SetterDeclaration ==>
      i + 2 < |ls| && (ls[i + 2] == FLUENT_RETURN <==> fluent)
  }

  lemma SettersClosedAppend(a: seq<string>, b: seq<string>, fluent: bool)
    requires SettersClosed(a, fluent) && SettersClosed(b, fluent)
    ensures SettersClosed(a + b, fluent)
  {
    forall i | 0 <= i < |a + b| && Kind((a + b)[i]) == SetterDeclaration
      ensures i + 2 < |a + b| && ((a + b)[i + 2] == FLUENT_RETURN <==> fluent)
    {
      if i < |a| {
        assert (a + b)[i] == a[i] && (a + b)[i + 2] == a[i + 2];
      } else {
        assert (a + b)[i] == b[i - |a|] && (a + b)[i + 2] == b[i - |a| + 2];
      }
    }
  }

  /** When nothing of kind `k` is selected, no line has kind `k`. */
  lemma {:induction false} SelectEmpty(ls: seq<string>, k: LineKind)
    requires Select(ls, k) == []
    ensures forall i :: 0 <= i < |ls| ==> Kind(ls[i]) != k
    decreases |ls|
  {
    if ls != [] {
      var init := ls[..|ls| - 1];
      assert Select(init, k) == [];
      SelectEmpty(init, k);
      assert forall i :: 0 <= i < |init| ==> ls[i] == init[i];
    }
  }

  /** Lines among which no setter is selected hold no setter header. */
  lemma NoSetterClosed(ls: seq<string>, fluent: bool)
    requires Select(ls, SetterDeclaration) == []
    ensures SettersClosed(ls, fluent)
  {
    SelectEmpty(ls, SetterDeclaration);
  }

  lemma SetterLinesClosed(p: Property, builder: bool)
    ensures SettersClosed(SetterLines(p, builder), builder)
  {
    FixedLineKinds();
    SetterHeaderKind(p);
    AssignmentKind(p.name);
    var ls := SetterLines(p, builder);
    if builder {
      assert ls == [SetterHeader(p), Assignment(p.name), FLUENT_RETURN, BLOCK_END, ""];
    } else {
      assert ls == [SetterHeader(p), Assignment(p.name), BLOCK_END, ""];
      assert |BLOCK_END| != |FLUENT_RETURN|;
    }
  }

  lemma PropertyMethodLinesClosed(p: Property, immutable: bool, builder: bool)
    ensures SettersClosed(PropertyMethodLines(p, immutable, builder), builder)
  {
    SelectAccessorLines(p, SetterDeclaration);
    NoSetterClosed(AccessorLines(p), builder);
    if !immutable {
      SetterLinesClosed(p, builder);
      SettersClosedAppend(AccessorLines(p), SetterLines(p, builder), builder);
    } else {
      assert PropertyMethodLines(p, immutable, builder) == AccessorLines(p);
    }
  }

  lemma {:induction false} MethodLinesClosed(ps: seq<Property>, immutable: bool, builder: bool)
    ensures SettersClosed(MethodLines(ps, immutable, builder), builder)
    decreases |ps|
  {
    if ps != [] {
      var init := ps[..|ps| - 1];
      MethodLinesClosed(init, immutable, builder);
      PropertyMethodLinesClosed(ps[|ps| - 1], immutable, builder);
      SettersClosedAppend(MethodLines(init, immutable, builder), PropertyMethodLines(ps[|ps| - 1], immutable, builder), builder);
    }
  }

  /** Header, fields and constructor hold no setter. */
  lemma FrontSectionsClosed(rc: ResolvedClass)
    ensures SettersClosed(HeaderLines(rc) + PropertiesLines(rc.props) + ConstructorLines(rc), rc.builder)
  {
    var h, f, c := HeaderLines(rc), PropertiesLines(rc.props), ConstructorLines(rc);
    SelectHeader(rc, SetterDeclaration);
    SelectProperties(rc.props, SetterDeclaration);
    SelectConstructor(rc, SetterDeclaration);
    SelectAppend(h, f, SetterDeclaration);
    SelectAppend(h + f, c, SetterDeclaration);
    NoSetterClosed(h + f + c, rc.builder);
  }

  /** `build()` and the closing brace hold no setter. */
  lemma TailSectionsClosed(rc: ResolvedClass)
    ensures SettersClosed(BuildLines(rc), rc.builder) && SettersClosed(CLOSING_LINES, rc.builder)
  {
    SelectBuildLines(rc, SetterDeclaration);
    SelectClosing(SetterDeclaration);
    NoSetterClosed(BuildLines(rc), rc.builder);
    NoSetterClosed(CLOSING_LINES, rc.builder);
  }

  /** The methods, `build()` and the closing brace. */
  lemma BackSectionsClosed(rc: ResolvedClass)
    ensures SettersClosed(AllMethodLines(rc) + CLOSING_LINES, rc.builder)
  {
    var m := MethodLines(rc.props, rc.immutable, rc.builder);
    MethodLinesClosed(rc.props, rc.immutable, rc.builder);
    TailSectionsClosed(rc);
    SettersClosedAppend(m, BuildLines(rc), rc.builder);
    SettersClosedAppend(AllMethodLines(rc), CLOSING_LINES, rc.builder);
  }

  /** Where the fluent returns are: every setter of the class has, as the
      line after its assignment, `return $this;` iff the class is a builder. */
  lemma FluentSetterPositions(rc: ResolvedClass)
    ensures var ls := ClassLines(rc);
            forall i :: 0 <= i < |ls| && Kind(ls[i]) == SetterDeclaration ==>
              i + 2 < |ls| && (ls[i + 2] == FLUENT_RETURN <==> rc.builder)
  {
    var front := HeaderLines(rc) + PropertiesLines(rc.props) + ConstructorLines(rc);
    var back := AllMethodLines(rc) + CLOSING_LINES;
    FrontSectionsClosed(rc);
    BackSectionsClosed(rc);
    SettersClosedAppend(front, back, rc.builder);
    assert ClassLines(rc) == front + back;
  }

  /** `build()` appears, once, iff the class is a builder. */
  lemma BuildDeclarations(rc: ResolvedClass)
    ensures Select(ClassLines(rc), BuildDeclaration) == if rc.builder then [BUILD_HEADER] else []
  {
    ClassDeclarations(rc, BuildDeclaration);
    MethodOthers(rc.props, rc.immutable, rc.builder, BuildDeclaration);
  }

  /** Without patterns, a class with N normalized properties has N fields,
      N accessors and N setters, and a constructor iff `construct` is set. */
  lemma MemberCounts(rc: ResolvedClass)
    requires !rc.immutable && !rc.builder
    ensures |Select(ClassLines(rc), FieldDeclaration)| == |rc.props|
    ensures |Select(ClassLines(rc), AccessorDeclaration)| == |rc.props|
    ensures |Select(ClassLines(rc), SetterDeclaration)| == |rc.props|
    ensures |Select(ClassLines(rc), ConstructorDeclaration)| == if rc.construct.Some? then 1 else 0
    ensures |Select(ClassLines(rc), BuildDeclaration)| == 0
  {
    FieldDeclarations(rc);
    AccessorDeclarations(rc);
    SetterDeclarations(rc);
    ConstructorDeclarations(rc);
    BuildDeclarations(rc);
  }

  // ---------------------------------------------------------------------
  // The text

  /** `pre + Unlines(a + b)` with the append spelled out, in the association
      the buffer's appends produce. */
  lemma UnlinesAppend(pre: string, a: seq<string>, b: seq<string>)
    ensures pre + Unlines(a + b) == pre + Unlines(a) + Unlines(b)
  {
    ConcatEachAppend(a, b, EOL);
  }

  /** The whole class text is the five sections' texts, one after the other. */
  lemma RenderSections(pre: string, rc: ResolvedClass)
    ensures pre + Render(rc) ==
            pre + Unlines(HeaderLines(rc)) + Unlines(PropertiesLines(rc.props)) + Unlines(ConstructorLines(rc)) +
            Unlines(AllMethodLines(rc)) + Unlines(CLOSING_LINES)
  {
    var h, f, c, m := HeaderLines(rc), PropertiesLines(rc.props), ConstructorLines(rc), AllMethodLines(rc);
    UnlinesAppend(pre, h + f + c + m, CLOSING_LINES);
    UnlinesAppend(pre, h + f + c, m);
    UnlinesAppend(pre, h + f, c);
    UnlinesAppend(pre, h, f);
  }

  lemma UnlinesSingle(l: string)
    ensures Unlines([l]) == l + EOL
  {
    assert [l][..0] == [];
    assert ConcatEach([l], EOL) == ConcatEach([], EOL) + l + EOL;
    assert ConcatEach([], EOL) + l == l;
  }

  lemma Unlines4(a: string, b: string, c: string, d: string)
    ensures Unlines([a, b, c, d]) == a + EOL + b + EOL + c + EOL + d + EOL
  {
    assert [a, b, c, d][..3] == [a, b, c];
    assert [a, b, c][..2] == [a, b];
    assert [a, b][..1] == [a];
    UnlinesSingle(a);
    assert Unlines([a, b]) == a + EOL + b + EOL;
    assert Unlines([a, b, c]) == a + EOL + b + EOL + c + EOL;
  }

  /** Five sections' text starts with the first section's and ends with the
      last section's. */
  lemma UnlinesEnds(h: seq<string>, f: seq<string>, c: seq<string>, m: seq<string>, e: seq<string>)
    ensures HasPrefix(Unlines(h + f + c + m + e), Unlines(h))
    ensures var t, u := Unlines(h + f + c + m + e), Unlines(e);
            |u| <= |t| && t[|t| - |u|..] == u
  {
    assert h + f + c + m + e == h + (f + c + m + e);
    ConcatEachAppend(h, f + c + m + e, EOL);
    PrefixOfAppend(Unlines(h), Unlines(f + c + m + e));
    ConcatEachAppend(h + f + c + m, e, EOL);
  }

  /** The text opens with the PHP tag, the namespace declaration, a blank
      line and the class line, and ends with the class's closing brace
      followed by a blank line. */
  lemma RenderFrame(rc: ResolvedClass)
    ensures HasPrefix(Render(rc),
                      "<?php" + EOL + ("namespace " + rc.namespace + ";") + EOL + "" + EOL + ("class " + rc.className + " {") + EOL)
    ensures var t := Render(rc); |t| >= 3 && t[|t| - 3..] == "}" + EOL + EOL
  {
    UnlinesEnds(HeaderLines(rc), PropertiesLines(rc.props), ConstructorLines(rc), AllMethodLines(rc), CLOSING_LINES);
    Unlines4("<?php", "namespace " + rc.namespace + ";", "", "class " + rc.className + " {");
    assert Unlines(CLOSING_LINES) == "}" + EOL + EOL by {
      assert CLOSING_LINES[..1] == ["}"];
      UnlinesSingle("}");
    }
  }

  /** Split at PHP_EOL, the text gives back its lines (and the empty piece
      after the last line ending) as long as no line holds a line break. */
  lemma RenderedLines(rc: ResolvedClass)
    requires forall i :: 0 <= i < |ClassLines(rc)| ==> EOL_CHAR !in ClassLines(rc)[i]
    ensures Explode(EOL_CHAR, Render(rc)) == ClassLines(rc) + [""]
  {
    ExplodeConcatEach(EOL_CHAR, ClassLines(rc));
  }
}
