/** The PHP source text the generator emits for a resolved class, as the list
    of its lines: header, field declarations, one of three constructor shapes,
    an accessor and (unless immutable) a setter per property, `build()` for a
    builder, and the closing brace. The text is each line followed by EOL. */
module ClassText {
  import opened Wrappers
  import opened Text
  import opened GenerateConfig
  import opened ClassSpec

  // ---------------------------------------------------------------------
  // Property details used in signatures

  /** `\<fqn> ` when the property declares a non-empty `fqn`, else "". */
  function TypeHint(p: Property): string {
    if p.Structured? && p.fqn.Some? && p.fqn.value != "" then "\\" + p.fqn.value + " " else ""
  }

  /** The property's `type` is exactly `boolean`. */
  predicate IsBoolean(p: Property) {
    p.Structured? && p.typ == Some("boolean")
  }

  function FieldName(name: string): string {
    PARAM_PREFIX + name
  }

  const INDENT2: string := TAB_CHARACTER + TAB_CHARACTER
  /** The start of every field declaration and of every method line. */
  const FIELD_KEYWORD: string := "private $"
  const FUNCTION_KEYWORD: string := "public function "
  const FIELD_DECL: string := TAB_CHARACTER + FIELD_KEYWORD
  const FUNCTION_DECL: string := TAB_CHARACTER + FUNCTION_KEYWORD
  const BLOCK_END: string := TAB_CHARACTER + "}"
  const FLUENT_RETURN: string := INDENT2 + "return $this;"

  // ---------------------------------------------------------------------
  // Sections, in the order they are appended

  function HeaderLines(rc: ResolvedClass): seq<string> {
    ["<?php", "namespace " + rc.namespace + ";", "", "class " + rc.className + " {"]
  }

  // Each line template keeps its leading marker (the indentation and the
  // declaration keyword) as the left operand of the outermost `+`.

  function FieldLine(p: Property): string {
    FIELD_DECL + (FieldName(p.name) + ";")
  }

  function FieldLines(ps: seq<Property>): seq<string> {
    if ps == [] then [] else FieldLines(ps[..|ps| - 1]) + [FieldLine(ps[|ps| - 1])]
  }

  function PropertiesLines(ps: seq<Property>): seq<string> {
    FieldLines(ps) + [""]
  }

  predicate HasConstructor(rc: ResolvedClass) {
    rc.construct.Some? || rc.immutable
  }

  /** Name and type hint of the `construct` property, "" when unset. */
  function ConstructName(rc: ResolvedClass): string {
    if rc.construct.Some? then rc.construct.value.name else ""
  }

  function ConstructHint(rc: ResolvedClass): string {
    if rc.construct.Some? then TypeHint(rc.construct.value) else ""
  }

  function BuilderAssignment(p: Property): string {
    INDENT2 + ("$this->" + FieldName(p.name) + " = $builder->get" + Ucfirst(p.name) + "();")
  }

  function BuilderAssignments(ps: seq<Property>): seq<string> {
    if ps == [] then [] else BuilderAssignments(ps[..|ps| - 1]) + [BuilderAssignment(ps[|ps| - 1])]
  }

  function ImmutableConstructorHeader(rc: ResolvedClass): string {
    FUNCTION_DECL + ("__construct(" + ("\\" + rc.builderClass + " $builder) {"))
  }

  /** The `createBuilder` parameter: the construct property, hinted when it
      has an fqn (the hint already ends in a space, and another is added). */
  function CreateBuilderParam(rc: ResolvedClass): string {
    var name, hint := ConstructName(rc), ConstructHint(rc);
    if name == "" then "" else (if hint == "" then "" else hint + " ") + "$" + name + " = null"
  }

  function CreateBuilderArg(rc: ResolvedClass): string {
    var name := ConstructName(rc);
    if name == "" then "" else "$" + name
  }

  function CreateBuilderHeader(rc: ResolvedClass): string {
    FUNCTION_DECL + ("createBuilder(" + (CreateBuilderParam(rc) + ") {"))
  }

  function CreateBuilderReturn(rc: ResolvedClass): string {
    INDENT2 + ("return new \\" + rc.builderClass + "(" + CreateBuilderArg(rc) + ");")
  }

  function CreateBuilderLines(rc: ResolvedClass): seq<string> {
    [CreateBuilderHeader(rc), CreateBuilderReturn(rc), BLOCK_END, ""]
  }

  function PlainConstructorHeader(rc: ResolvedClass): string {
    FUNCTION_DECL + ("__construct(" + (ConstructHint(rc) + "$" + ConstructName(rc) + " = null) {"))
  }

  /** `$this->_<name> = $<name>;` */
  function Assignment(name: string): string {
    INDENT2 + ("$this->" + FieldName(name) + " = $" + name + ";")
  }

  function ConstructorHeader(rc: ResolvedClass): string {
    if rc.immutable then ImmutableConstructorHeader(rc) else PlainConstructorHeader(rc)
  }

  function ConstructorLines(rc: ResolvedClass): seq<string> {
    if !HasConstructor(rc) then []
    else if rc.immutable then
      [ImmutableConstructorHeader(rc)] + BuilderAssignments(rc.props) + [BLOCK_END, ""] + CreateBuilderLines(rc)
    else
      [PlainConstructorHeader(rc), Assignment(ConstructName(rc)), BLOCK_END, ""]
  }

  /** `is` for a boolean-typed property, `get` otherwise. */
  function AccessorVerb(p: Property): string {
    if IsBoolean(p) then "is" else "get"
  }

  function AccessorHeader(p: Property): string {
    FUNCTION_DECL + (AccessorVerb(p) + (Ucfirst(p.name) + "() {"))
  }

  function AccessorReturn(p: Property): string {
    if IsBoolean(p) then INDENT2 + ("return empty($this->" + FieldName(p.name) + ") ? false : true;")
    else INDENT2 + ("return $this->" + FieldName(p.name) + ";")
  }

  function AccessorLines(p: Property): seq<string> {
    [AccessorHeader(p), AccessorReturn(p), BLOCK_END, ""]
  }

  function SetterHeader(p: Property): string {
    FUNCTION_DECL + ("set" + (Ucfirst(p.name) + "(" + TypeHint(p) + "$" + p.name + ") {"))
  }

  function SetterLines(p: Property, builder: bool): seq<string> {
    [SetterHeader(p), Assignment(p.name)] +
    (if builder then [FLUENT_RETURN] else []) +
    [BLOCK_END, ""]
  }

  function PropertyMethodLines(p: Property, immutable: bool, builder: bool): seq<string> {
    AccessorLines(p) + (if immutable then [] else SetterLines(p, builder))
  }

  function MethodLines(ps: seq<Property>, immutable: bool, builder: bool): seq<string> {
    if ps == [] then []
    else MethodLines(ps[..|ps| - 1], immutable, builder) + PropertyMethodLines(ps[|ps| - 1], immutable, builder)
  }

  const BUILD_HEADER: string := FUNCTION_DECL + "build() {"

  function BuildReturn(rc: ResolvedClass): string {
    INDENT2 + ("return new \\" + rc.builtClass + "($this);")
  }

  function BuildLines(rc: ResolvedClass): seq<string> {
    if rc.builder then [BUILD_HEADER, BuildReturn(rc), BLOCK_END, ""]
    else []
  }

  /** Everything `_addMethods` appends: the per-property methods, then build(). */
  function AllMethodLines(rc: ResolvedClass): seq<string> {
    MethodLines(rc.props, rc.immutable, rc.builder) + BuildLines(rc)
  }

  const CLOSING_LINES: seq<string> := ["}", ""]

  /** The lines of the whole class, in the order `generate` appends them. */
  function ClassLines(rc: ResolvedClass): seq<string> {
    HeaderLines(rc) + PropertiesLines(rc.props) + ConstructorLines(rc) + AllMethodLines(rc) + CLOSING_LINES
  }

  /** The text: every line followed by EOL. */
  function Unlines(lines: seq<string>): string {
    ConcatEach(lines, EOL)
  }

  function Render(rc: ResolvedClass): string {
    Unlines(ClassLines(rc))
  }
}
