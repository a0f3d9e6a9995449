/**
 * What the generator writes, as functions of the schema, built from the
 * same string pieces the generator appends: the title block, one section
 * per member kind, and inside each section a table of contents and one
 * detail block per member. The methods in module Generator build the same
 * text step by step and are proved equal to these functions; module
 * Properties states what the text means.
 */
module Render {
  import opened Text
  import opened Schema

  /** The document heading, a whitespace-only line, links to the three sections, another such line. */
  const TitleBlock := "#This project's Type, Query and Mutation documentation\n        \n* [Types](#types)\n* [Queries](#queries)\n* [Mutations](#mutations)\n        \n"

  /** Closes every section: a line break, a whitespace-only line, a line break. */
  const SectionEnd := "\n        \n"

  // ---------------------------------------------------------------- lines

  /** The table-of-contents entry of a type. */
  function TypeTocEntry(name: string): string {
    "* [" + name + "](#" + name + "-type)\n"
  }

  /** The table-of-contents entry of a query (kind "query") or mutation (kind "mutation"). */
  function OperationTocEntry(name: string, kind: string): string {
    "* [" + name + "](#" + name + "-" + kind + ")\n"
  }

  /** The anchored header line of a member. */
  function HeaderLine(name: string, kind: string): string {
    "### <a name=\"" + name + "-" + kind + "\"></a>" + name + "\n"
  }

  function DescriptionLine(description: Option<string>): string {
    if description.Some? then description.value + "\n" else ""
  }

  /** The header line of a member, then its description line when the attribute is set. */
  function Title(name: string, description: Option<string>, kind: string): string {
    HeaderLine(name, kind) + DescriptionLine(description)
  }

  /** The type of a field, in parentheses; an object type is a link to its slug. */
  function TypeString(ty: TypeRef): string {
    if ty.Object? then "([" + Display(ty) + "](#" + Lower(ReplaceSpaces(Display(ty))) + "-type))"
    else "(" + Display(ty) + ")"
  }

  function DescriptionSuffix(description: Option<string>): string {
    if description.Some? then ": " + description.value else ""
  }

  /** The line of one field: its name in bold, its type, its description when set. */
  function FieldLine(f: Field): string {
    "- **" + f.name + "** " + TypeString(f.def.ty) + DescriptionSuffix(f.def.description) + "\n"
  }

  function RulesSuffix(rules: Option<seq<string>>): string {
    if rules.Some? then " **(" + Join(", ", rules.value) + ")**" else ""
  }

  /** The line of one argument: name, type, and its rules when set. */
  function ArgLine(a: Argument): string {
    "- " + a.name + ": " + Display(a.ty) + RulesSuffix(a.rules) + "\n"
  }

  /** A blank line, then the link to the return type. */
  function ReturnLine(t: TypeRef): string {
    var name := ReturnName(t);
    "\nReturns [" + name + "](#" + ReplaceSpaces(Lower(name)) + "-type)\n"
  }

  // --------------------------------------------------------------- blocks

  function FieldLines(fields: seq<Field>): seq<string> {
    MapSeq(FieldLine, fields)
  }

  function ArgLines(args: seq<Argument>): seq<string> {
    MapSeq(ArgLine, args)
  }

  /** A type's detail block: title, one line per field, one extra line break. */
  function TypeBlock(t: TypeDef): string {
    Title(t.name, t.description, "type") + Concat(FieldLines(t.fields)) + "\n"
  }

  /** A query's or mutation's detail block: title, one line per argument, the return line, one extra line break. */
  function OperationBlock(op: Operation, kind: string): string {
    Title(op.name, op.description, kind) + Concat(ArgLines(op.args)) + ReturnLine(op.returnType) + "\n"
  }

  // ------------------------------------------------------------- sections

  function TypeTocEntryOf(t: TypeDef): string {
    TypeTocEntry(t.name)
  }

  /** The table-of-contents entry of a query or mutation, for a fixed kind. */
  function OperationTocEntryFor(kind: string): Operation -> string {
    (op: Operation) => OperationTocEntry(op.name, kind)
  }

  /** The detail block of a query or mutation, for a fixed kind. */
  function OperationBlockFor(kind: string): Operation -> string {
    (op: Operation) => OperationBlock(op, kind)
  }

  function TypeTocEntries(types: seq<TypeDef>): seq<string> {
    MapSeq(TypeTocEntryOf, types)
  }

  function TypeBlocks(types: seq<TypeDef>): seq<string> {
    MapSeq(TypeBlock, types)
  }

  function OperationTocEntries(ops: seq<Operation>, kind: string): seq<string> {
    MapSeq(OperationTocEntryFor(kind), ops)
  }

  function OperationBlocks(ops: seq<Operation>, kind: string): seq<string> {
    MapSeq(OperationBlockFor(kind), ops)
  }

  function OperationKind(query: bool): string {
    if query then "query" else "mutation"
  }

  function OperationHeading(query: bool): string {
    if query then "Queries" else "Mutations"
  }

  /** The Types section: heading, table of contents, detail blocks, separators. */
  function TypesSection(types: seq<TypeDef>): string {
    "#Types\n        \n"
      + (Concat(TypeTocEntries(types)) + "\n")
      + (Concat(TypeBlocks(types)) + SectionEnd)
  }

  /** The Queries section (query true) or the Mutations section (query false). */
  function OperationsSection(ops: seq<Operation>, query: bool): string {
    "#" + OperationHeading(query) + "\n"
      + (Concat(OperationTocEntries(ops, OperationKind(query))) + "\n")
      + (Concat(OperationBlocks(ops, OperationKind(query))) + SectionEnd)
  }

  /** The whole document: title block, then Types, Queries and Mutations, in that order. */
  function Document(registry: Registry): string {
    TitleBlock + TypesSection(registry.types)
      + OperationsSection(registry.queries, true)
      + OperationsSection(registry.mutations, false)
  }
}
