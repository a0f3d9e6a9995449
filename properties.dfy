/**
 * What the rendered text means. The functions of module Render are written
 * in the pieces the generator appends; the lemmas here regroup those
 * concatenations into Markdown pieces (`MdLink`, `HeaderTag`, `Cell`) to
 * state which anchor a header declares and which one a link targets, when
 * a type is a link, when a suffix appears, how many lines an entry takes,
 * and that members keep their configured order.
 */
module Properties {
  import opened Text
  import opened Schema
  import opened Anchors
  import opened Render

  /** A Markdown link `[caption](#anchor)`. */
  function MdLink(caption: string, anchor: string): string {
    "[" + caption + "](#" + anchor + ")"
  }

  /** The opening tag of a header that declares `anchor`. */
  function HeaderTag(anchor: string): string {
    "### <a name=\"" + anchor + "\"></a>"
  }

  /** How a type name is shown inside a line: as plain text or as a link to an anchor. */
  datatype Cell = Plain(text: string) | Link(caption: string, anchor: string) {
    /** The text a reader sees. */
    function Visible(): string {
      match this
      case Plain(t) => t
      case Link(c, _) => c
    }

    function Markup(): string {
      match this
      case Plain(t) => t
      case Link(c, a) => MdLink(c, a)
    }
  }

  // ------------------------------------------------------------- anchors

  /**
   * A member's table-of-contents entry links to exactly the anchor its own
   * header declares, `name-kind`, for every name and kind; the Types
   * section's entry is the same entry with kind "type".
   */
  lemma TocEntryTargetsHeader(name: string, kind: string)
    ensures OperationTocEntry(name, kind) == "* " + MdLink(name, HeaderAnchor(name, kind)) + "\n"
    ensures TypeTocEntry(name) == OperationTocEntry(name, "type")
    ensures HeaderLine(name, kind) == HeaderTag(HeaderAnchor(name, kind)) + name + "\n"
  {
    assert "](#" + name + "-" + kind + ")\n" == "](#" + (name + "-" + kind) + ")" + "\n";
  }

  /**
   * In the Types section, the i-th table-of-contents entry and the i-th
   * detail block belong to the i-th configured type, sit between the
   * entries (blocks) of the types before and after it, and carry the same
   * anchor.
   */
  lemma TypesSectionAt(types: seq<TypeDef>, i: nat)
    requires i < |types|
    ensures var a := HeaderAnchor(types[i].name, "type");
      Concat(TypeTocEntries(types)) == Concat(TypeTocEntries(types[..i]))
        + ("* " + MdLink(types[i].name, a) + "\n") + Concat(TypeTocEntries(types[i + 1..]))
      && Concat(TypeBlocks(types)) == Concat(TypeBlocks(types[..i]))
        + (HeaderTag(a) + types[i].name + "\n" + DescriptionLine(types[i].description)
           + Concat(FieldLines(types[i].fields)) + "\n")
        + Concat(TypeBlocks(types[i + 1..]))
  {
    var t := types[i];
    TocEntryTargetsHeader(t.name, "type");
    assert TypeTocEntries(types)[i] == TypeTocEntryOf(t) == TypeTocEntry(t.name);
    MapSeqPrefix(TypeTocEntryOf, types, i);
    MapSeqSuffix(TypeTocEntryOf, types, i + 1);
    ConcatAt(TypeTocEntries(types), i);
    assert TypeBlocks(types)[i] == TypeBlock(t);
    MapSeqPrefix(TypeBlock, types, i);
    MapSeqSuffix(TypeBlock, types, i + 1);
    ConcatAt(TypeBlocks(types), i);
  }

  /** The same for the Queries and Mutations sections. */
  lemma OperationsSectionAt(ops: seq<Operation>, kind: string, i: nat)
    requires i < |ops|
    ensures var a := HeaderAnchor(ops[i].name, kind);
      Concat(OperationTocEntries(ops, kind)) == Concat(OperationTocEntries(ops[..i], kind))
        + ("* " + MdLink(ops[i].name, a) + "\n") + Concat(OperationTocEntries(ops[i + 1..], kind))
      && Concat(OperationBlocks(ops, kind)) == Concat(OperationBlocks(ops[..i], kind))
        + (HeaderTag(a) + ops[i].name + "\n" + DescriptionLine(ops[i].description)
           + Concat(ArgLines(ops[i].args)) + ReturnLine(ops[i].returnType) + "\n")
        + Concat(OperationBlocks(ops[i + 1..], kind))
  {
    var op := ops[i];
    TocEntryTargetsHeader(op.name, kind);
    assert OperationTocEntries(ops, kind)[i] == OperationTocEntry(op.name, kind);
    MapSeqPrefix(OperationTocEntryFor(kind), ops, i);
    MapSeqSuffix(OperationTocEntryFor(kind), ops, i + 1);
    ConcatAt(OperationTocEntries(ops, kind), i);
    assert OperationBlocks(ops, kind)[i] == OperationBlock(op, kind);
    MapSeqPrefix(OperationBlockFor(kind), ops, i);
    MapSeqSuffix(OperationBlockFor(kind), ops, i + 1);
    ConcatAt(OperationBlocks(ops, kind), i);
  }

  // ---------------------------------------------------------- type cells

  /** The type of a field: a link exactly when it is an object type; its visible text is the type's name either way. */
  function FieldTypeCell(t: TypeRef): (c: Cell)
    ensures c.Link? <==> t.Object?
    ensures c.Visible() == Display(t)
    ensures c.Link? ==> c.anchor == FieldSlug(c.caption)
  {
    if t.Object? then Link(Display(t), FieldSlug(Display(t))) else Plain(Display(t))
  }

  /** The return type of a query or mutation: always a link, whatever kind of type it is. */
  function ReturnCell(t: TypeRef): (c: Cell)
    ensures c.Link?
    ensures c.Visible() == ReturnName(t)
    ensures c.anchor == FieldSlug(ReturnName(t))
  {
    var name := ReturnName(t);
    SlugsAgree(name);
    Link(name, ReturnSlug(name))
  }

  /** A field's type is written as its cell in parentheses. */
  lemma TypeStringIsCell(t: TypeRef)
    ensures TypeString(t) == "(" + FieldTypeCell(t).Markup() + ")"
  {
    if t.Object? {
      var c, s := Display(t), Lower(ReplaceSpaces(Display(t)));
      assert "([" + c + "](#" + s + "-type))" == "(" + ("[" + c + "](#" + (s + "-type") + ")") + ")";
    }
  }

  /** The return line is a link, to the slug a field of that type would link to. */
  lemma ReturnLineIsLink(t: TypeRef)
    ensures ReturnLine(t) == "\nReturns " + ReturnCell(t).Markup() + "\n"
  {
    var n := ReturnName(t);
    var s := ReplaceSpaces(Lower(n));
    assert "\nReturns [" + n + "](#" + s + "-type)\n" == "\nReturns " + ("[" + n + "](#" + (s + "-type") + ")") + "\n";
  }

  /**
   * Whether a return type is an object type or a leaf type, bare or inside
   * one list, its return line is the same link; a field's type, by contrast,
   * links only for the object type.
   */
  lemma ReturnLineIgnoresKind(name: string)
    ensures ReturnLine(Scalar(name)) == ReturnLine(Object(name))
    ensures ReturnLine(ListOf(Scalar(name))) == ReturnLine(ListOf(Object(name))) == ReturnLine(Object(name))
    ensures TypeString(Scalar(name)) != TypeString(Object(name))
  {
    ReturnNameUnwrapsOneLayer(Scalar(name));
    ReturnNameUnwrapsOneLayer(Object(name));
    TypeStringIsCell(Scalar(name));
    TypeStringIsCell(Object(name));
    assert |TypeString(Scalar(name))| < |TypeString(Object(name))|;
  }

  /**
   * A non-null object type is not an object type to the generator: as a
   * field's type it is shown with `!` and no link, and as a return type,
   * bare or inside one list, it shows no name at all.
   */
  lemma NonNullIsNotLinked(name: string)
    ensures TypeString(NonNull(Object(name))) == "(" + name + "!" + ")"
    ensures !FieldTypeCell(NonNull(Object(name))).Link?
    ensures ReturnLine(NonNull(Object(name))) == ReturnLine(ListOf(NonNull(Object(name))))
         == "\nReturns [](#-type)\n"
  {
    ReturnNameUnwrapsOneLayer(NonNull(Object(name)));
    assert Display(NonNull(Object(name))) == Display(Object(name)) + "!" == name + "!";
    assert "(" + (name + "!") + ")" == "(" + name + "!" + ")";
    assert ReturnName(NonNull(Object(name))) == "";
    assert ReplaceSpaces(Lower("")) == "";
    assert "\nReturns [" + "" + "](#" + "" + "-type)\n" == "\nReturns [](#-type)\n";
  }

  // ------------------------------------------------------------ suffixes

  /**
   * A field's description is written as `: description` just before the
   * line break, and only when it is set; inline and reference fields with
   * the same type and description give the same line.
   */
  lemma FieldDescriptionSuffix(name: string, ty: TypeRef, description: string)
    ensures FieldLine(Field(name, Inline(ty, None))) == "- **" + name + "** " + TypeString(ty) + "\n"
    ensures var bare := FieldLine(Field(name, Inline(ty, None)));
      FieldLine(Field(name, Inline(ty, Some(description))))
        == bare[..|bare| - 1] + ": " + description + "\n"
    ensures forall d :: FieldLine(Field(name, Inline(ty, d))) == FieldLine(Field(name, Reference(ty, d)))
  {
    var head := "- **" + name + "** " + TypeString(ty);
    var bare := FieldLine(Field(name, Inline(ty, None)));
    assert bare == head + "\n";
    assert bare[..|bare| - 1] == head;
  }

  /**
   * An argument's rules are written as ` **(r1, r2, ...)**` just before the
   * line break, and only when they are set.
   */
  lemma ArgRulesSuffix(name: string, ty: TypeRef, rules: seq<string>)
    ensures ArgLine(Argument(name, ty, None)) == "- " + name + ": " + Display(ty) + "\n"
    ensures var bare := ArgLine(Argument(name, ty, None));
      ArgLine(Argument(name, ty, Some(rules)))
        == bare[..|bare| - 1] + " **(" + Join(", ", rules) + ")**\n"
  {
    var head := "- " + name + ": " + Display(ty);
    var bare := ArgLine(Argument(name, ty, None));
    assert bare == head + "\n";
    assert bare[..|bare| - 1] == head;
  }

  /** A member's description line follows its header exactly when the attribute is set. */
  lemma TitleDescription(name: string, kind: string, description: string)
    ensures Title(name, Some(description), kind) == Title(name, None, kind) + description + "\n"
    ensures Title(name, None, kind) == HeaderLine(name, kind)
  {
  }

  // -------------------------------------------------------------- order

  /**
   * Rendering two lists of members one after the other gives the entries
   * and blocks of the first list followed by those of the second: nothing
   * is sorted, dropped or repeated.
   */
  lemma TypesKeepOrder(a: seq<TypeDef>, b: seq<TypeDef>)
    ensures Concat(TypeTocEntries(a + b)) == Concat(TypeTocEntries(a)) + Concat(TypeTocEntries(b))
    ensures Concat(TypeBlocks(a + b)) == Concat(TypeBlocks(a)) + Concat(TypeBlocks(b))
  {
    MapSeqAppend(TypeTocEntryOf, a, b);
    ConcatAppend(TypeTocEntries(a), TypeTocEntries(b));
    MapSeqAppend(TypeBlock, a, b);
    ConcatAppend(TypeBlocks(a), TypeBlocks(b));
  }

  lemma OperationsKeepOrder(a: seq<Operation>, b: seq<Operation>, kind: string)
    ensures Concat(OperationTocEntries(a + b, kind))
         == Concat(OperationTocEntries(a, kind)) + Concat(OperationTocEntries(b, kind))
    ensures Concat(OperationBlocks(a + b, kind))
         == Concat(OperationBlocks(a, kind)) + Concat(OperationBlocks(b, kind))
  {
    MapSeqAppend(OperationTocEntryFor(kind), a, b);
    ConcatAppend(OperationTocEntries(a, kind), OperationTocEntries(b, kind));
    MapSeqAppend(OperationBlockFor(kind), a, b);
    ConcatAppend(OperationBlocks(a, kind), OperationBlocks(b, kind));
  }

  lemma FieldsKeepOrder(a: seq<Field>, b: seq<Field>)
    ensures Concat(FieldLines(a + b)) == Concat(FieldLines(a)) + Concat(FieldLines(b))
  {
    MapSeqAppend(FieldLine, a, b);
    ConcatAppend(FieldLines(a), FieldLines(b));
  }

  lemma ArgsKeepOrder(a: seq<Argument>, b: seq<Argument>)
    ensures Concat(ArgLines(a + b)) == Concat(ArgLines(a)) + Concat(ArgLines(b))
  {
    MapSeqAppend(ArgLine, a, b);
    ConcatAppend(ArgLines(a), ArgLines(b));
  }

  // -------------------------------------------------------------- lines

  predicate OneLineOption(d: Option<string>) {
    d.Some? ==> OneLine(d.value)
  }

  predicate OneLineField(f: Field) {
    OneLine(f.name) && OneLineType(f.def.ty) && OneLineOption(f.def.description)
  }

  predicate OneLineArgument(a: Argument) {
    OneLine(a.name) && OneLineType(a.ty)
      && (a.rules.Some? ==> forall i :: 0 <= i < |a.rules.value| ==> OneLine(a.rules.value[i]))
  }

  /** Text without a line break, followed by one, is exactly one line. */
  lemma {:induction false} EndsOneLine(s: string)
    requires OneLine(s)
    ensures Newlines(s + "\n") == 1
  {
    NewlinesAppend(s, "\n");
    NewlinesOneLine(s);
    assert "\n"[1..] == "";
  }

  /** Lower-casing and replacing spaces never introduce a line break. */
  lemma SlugOneLine(s: string)
    requires OneLine(s)
    ensures OneLine(Lower(ReplaceSpaces(s))) && OneLine(ReplaceSpaces(Lower(s)))
  {
    ReplaceSpacesAt(s);
    LowerAt(ReplaceSpaces(s));
    LowerAt(s);
    ReplaceSpacesAt(Lower(s));
    assert forall i :: 0 <= i < |s| ==> s[i] != '\n';
  }

  /** Every table-of-contents entry is one line, so a section's contents list has one line per member. */
  lemma {:induction false} OneTocLinePerMember(types: seq<TypeDef>, ops: seq<Operation>, kind: string)
    requires forall i :: 0 <= i < |types| ==> OneLine(types[i].name)
    requires forall i :: 0 <= i < |ops| ==> OneLine(ops[i].name)
    requires OneLine(kind)
    ensures Newlines(Concat(TypeTocEntries(types))) == |types|
    ensures Newlines(Concat(OperationTocEntries(ops, kind))) == |ops|
  {
    forall i | 0 <= i < |types| ensures Newlines(TypeTocEntries(types)[i]) == 1 {
      var n := types[i].name;
      assert TypeTocEntries(types)[i] == TypeTocEntryOf(types[i]) == TypeTocEntry(n);
      assert TypeTocEntry(n) == "* [" + n + "](#" + n + "-type)" + "\n";
      EndsOneLine("* [" + n + "](#" + n + "-type)");
    }
    ConcatLines(TypeTocEntries(types));
    forall i | 0 <= i < |ops| ensures Newlines(OperationTocEntries(ops, kind)[i]) == 1 {
      var n := ops[i].name;
      assert OperationTocEntries(ops, kind)[i] == OperationTocEntry(n, kind);
      assert OperationTocEntry(n, kind) == "* [" + n + "](#" + n + "-" + kind + ")" + "\n";
      EndsOneLine("* [" + n + "](#" + n + "-" + kind + ")");
    }
    ConcatLines(OperationTocEntries(ops, kind));
  }

  /** A title is one line, two when the description is set. */
  lemma {:induction false} TitleLines(name: string, description: Option<string>, kind: string)
    requires OneLine(name) && OneLine(kind) && OneLineOption(description)
    ensures Newlines(Title(name, description, kind)) == if description.Some? then 2 else 1
  {
    var head := "### <a name=\"" + name + "-" + kind + "\"></a>" + name;
    assert HeaderLine(name, kind) == head + "\n";
    EndsOneLine(head);
    NewlinesAppend(HeaderLine(name, kind), DescriptionLine(description));
    if description.Some? {
      EndsOneLine(description.value);
    }
  }

  lemma FieldLineIsOneLine(f: Field)
    requires OneLineField(f)
    ensures Newlines(FieldLine(f)) == 1
  {
    DisplayOneLine(f.def.ty);
    SlugOneLine(Display(f.def.ty));
    assert OneLine(TypeString(f.def.ty));
    EndsOneLine("- **" + f.name + "** " + TypeString(f.def.ty) + DescriptionSuffix(f.def.description));
  }

  /** Every field takes exactly one line. */
  lemma {:induction false} OneLinePerField(fields: seq<Field>)
    requires forall i :: 0 <= i < |fields| ==> OneLineField(fields[i])
    ensures Newlines(Concat(FieldLines(fields))) == |fields|
  {
    forall i | 0 <= i < |fields| ensures Newlines(FieldLines(fields)[i]) == 1 {
      FieldLineIsOneLine(fields[i]);
    }
    ConcatLines(FieldLines(fields));
  }

  /** Every argument takes exactly one line, rules or not. */
  lemma {:induction false} OneLinePerArgument(args: seq<Argument>)
    requires forall i :: 0 <= i < |args| ==> OneLineArgument(args[i])
    ensures Newlines(Concat(ArgLines(args))) == |args|
  {
    forall i | 0 <= i < |args| ensures Newlines(ArgLines(args)[i]) == 1 {
      var a := args[i];
      DisplayOneLine(a.ty);
      if a.rules.Some? {
        JoinOneLine(", ", a.rules.value);
      }
      var body := "- " + a.name + ": " + Display(a.ty) + RulesSuffix(a.rules);
      EndsOneLine(body);
      assert ArgLines(args)[i] == ArgLine(a);
    }
    ConcatLines(ArgLines(args));
  }

  /**
   * A type's detail block has its header line, its description line when
   * set, one line per field, and one closing line break.
   */
  lemma TypeBlockLines(t: TypeDef)
    requires OneLine(t.name) && OneLineOption(t.description)
    requires forall i :: 0 <= i < |t.fields| ==> OneLineField(t.fields[i])
    ensures Newlines(TypeBlock(t)) == |t.fields| + if t.description.Some? then 3 else 2
  {
    TitleLines(t.name, t.description, "type");
    OneLinePerField(t.fields);
    var title, fields := Title(t.name, t.description, "type"), Concat(FieldLines(t.fields));
    NewlinesAppend(title, fields);
    NewlinesAppend(title + fields, "\n");
  }

  /**
   * A query's or mutation's detail block has its header line, its
   * description line when set, one line per argument, a blank line and the
   * return line, and one closing line break.
   */
  lemma OperationBlockLines(op: Operation, kind: string)
    requires OneLine(op.name) && OneLine(kind) && OneLineOption(op.description)
    requires OneLineType(op.returnType)
    requires forall i :: 0 <= i < |op.args| ==> OneLineArgument(op.args[i])
    ensures Newlines(OperationBlock(op, kind)) == |op.args| + if op.description.Some? then 5 else 4
  {
    TitleLines(op.name, op.description, kind);
    OneLinePerArgument(op.args);
    ReturnLineLines(op.returnType);
    var title, args := Title(op.name, op.description, kind), Concat(ArgLines(op.args));
    NewlinesAppend(title, args);
    NewlinesAppend(title + args, ReturnLine(op.returnType));
    NewlinesAppend(title + args + ReturnLine(op.returnType), "\n");
  }

  /** The return line is a blank line followed by the line of the link. */
  lemma ReturnLineLines(t: TypeRef)
    requires OneLineType(t)
    ensures Newlines(ReturnLine(t)) == 2
  {
    ReturnNameOneLine(t);
    ReturnLinkLines(ReturnName(t));
  }

  lemma ReturnNameOneLine(t: TypeRef)
    requires OneLineType(t)
    ensures OneLine(ReturnName(t))
  {
    if t.ListOf? {
      assert OneLineType(t.inner);
    }
  }

  lemma ReturnLinkLines(name: string)
    requires OneLine(name)
    ensures Newlines("\nReturns [" + name + "](#" + ReplaceSpaces(Lower(name)) + "-type)\n") == 2
  {
    SlugOneLine(name);
    var link := "Returns [" + name + "](#" + ReplaceSpaces(Lower(name)) + "-type)";
    assert "\nReturns [" + name + "](#" + ReplaceSpaces(Lower(name)) + "-type)\n" == "\n" + (link + "\n");
    EndsOneLine(link);
    NewlinesAppend("\n", link + "\n");
    EndsOneLine("");
    assert "" + "\n" == "\n";
  }

  // ---------------------------------------------------------- empty input

  /** With no types, queries or mutations, each section still writes its heading and separators. */
  lemma EmptyRegistry()
    ensures Document(Registry([], [], []))
         == TitleBlock
          + "#Types\n        \n" + "\n" + SectionEnd
          + "#Queries\n" + "\n" + SectionEnd
          + "#Mutations\n" + "\n" + SectionEnd
  {
    assert Concat(TypeTocEntries([])) == "" && Concat(TypeBlocks([])) == "";
    assert Concat(OperationTocEntries([], "query")) == "" && Concat(OperationBlocks([], "query")) == "";
    assert Concat(OperationTocEntries([], "mutation")) == "" && Concat(OperationBlocks([], "mutation")) == "";
  }

  /**
   * A query `getUser(id: ID)` with the rule "required", returning the object
   * type `User`: its contents entry and header use `getUser-query`
   * unchanged, while its return line links to `#user-type`.
   */
  lemma GetUserQueryExample()
    ensures OperationTocEntry("getUser", "query") == "* [getUser](#getUser-query)\n"
    ensures OperationBlock(Operation("getUser", None, [Argument("id", Scalar("ID"), Some(["required"]))], Object("User")), "query")
         == "### <a name=\"getUser-query\"></a>getUser\n" + "- id: ID **(required)**\n"
          + "\nReturns [User](#user-type)\n" + "\n"
  {
    GetUserToc();
    var op := Operation("getUser", None, [Argument("id", Scalar("ID"), Some(["required"]))], Object("User"));
    assert Title(op.name, op.description, "query") == "### <a name=\"getUser-query\"></a>getUser\n" by {
      GetUserHeader();
    }
    GetUserArgs();
    UserReturnLine();
  }

  lemma GetUserToc()
    ensures OperationTocEntry("getUser", "query") == "* [getUser](#getUser-query)\n"
  {
  }

  lemma GetUserHeader()
    ensures HeaderLine("getUser", "query") == "### <a name=\"getUser-query\"></a>getUser\n"
  {
  }

  lemma GetUserArgs()
    ensures Concat(ArgLines([Argument("id", Scalar("ID"), Some(["required"]))])) == "- id: ID **(required)**\n"
  {
    var args := [Argument("id", Scalar("ID"), Some(["required"]))];
    assert Join(", ", ["required"]) == "required";
    assert ArgLines(args) == [ArgLine(args[0])];
    assert ArgLines(args)[..0] == [];
  }

  lemma UserReturnLine()
    ensures ReturnLine(Object("User")) == "\nReturns [User](#user-type)\n"
  {
    UserSlug();
  }

  /** The slug of `User` is `user`. */
  lemma UserSlug()
    ensures ReplaceSpaces(Lower("User")) == "user"
  {
    assert Lower("User") == "user" by {
      assert Lower("r") == "r";
      assert Lower("er") == "er";
      assert Lower("ser") == "ser";
    }
    assert ReplaceSpaces("user") == "user" by {
      assert ReplaceSpaces("r") == "r";
      assert ReplaceSpaces("er") == "er";
      assert ReplaceSpaces("ser") == "ser";
    }
  }

  /** A type `User` with one inline `String` field: its header declares `User-type`, not `user-type`. */
  lemma UserTypeExample()
    ensures TypeTocEntry("User") == "* [User](#User-type)\n"
    ensures TypeBlock(TypeDef("User", None, [Field("name", Inline(Scalar("String"), None))]))
         == "### <a name=\"User-type\"></a>User\n" + "- **name** (String)\n" + "\n"
  {
    UserToc();
    var t := TypeDef("User", None, [Field("name", Inline(Scalar("String"), None))]);
    assert Title(t.name, t.description, "type") == "### <a name=\"User-type\"></a>User\n" by {
      UserHeader();
    }
    UserNameField();
  }

  lemma UserToc()
    ensures TypeTocEntry("User") == "* [User](#User-type)\n"
  {
  }

  lemma UserHeader()
    ensures HeaderLine("User", "type") == "### <a name=\"User-type\"></a>User\n"
  {
  }

  lemma UserNameField()
    ensures Concat(FieldLines([Field("name", Inline(Scalar("String"), None))])) == "- **name** (String)\n"
  {
    var f := Field("name", Inline(Scalar("String"), None));
    assert FieldLine(f) == "- **name** (String)\n" by {
      assert TypeString(f.def.ty) == "(String)";
      assert DescriptionSuffix(f.def.description) == "";
    }
    assert FieldLines([f]) == [FieldLine(f)];
    assert FieldLines([f])[..0] == [];
  }
}
