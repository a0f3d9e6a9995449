/**
 * The console command `graphql:generate-doc`. Its `file` field stands for
 * the contents of `GraphQL-doc.md`: `CreateFile` overwrites it with the title
 * block, each section writer appends one section. The private helpers, which
 * in the PHP class append to a by-reference string, read no state of the
 * command; here they are methods that return the extended string. A PHP
 * `$s .= e` evaluates `e` first and then appends it, which is `s := s + (e)`.
 */
module Generator {
  import opened Text
  import opened Schema
  import opened Render

  /** Appends a member's header line and, when set, its description line. */
  method AddTitle(subtext: string, name: string, description: Option<string>, kind: string)
    returns (out: string)
    ensures out == subtext + Title(name, description, kind)
  {
    out := subtext + ("### <a name=\"" + name + "-" + kind + "\"></a>" + name + "\n");
    if description.Some? {
      out := out + (description.value + "\n");
    }
    Assoc(subtext, HeaderLine(name, kind), DescriptionLine(description));
  }

  /** Appends one line per field, in the order of the fields. */
  method AddFields(subtext: string, fields: seq<Field>) returns (out: string)
    ensures out == subtext + Concat(FieldLines(fields))
  {
    out := subtext;
    for i := 0 to |fields|
      invariant out == subtext + Concat(FieldLines(fields[..i]))
    {
      var name, ty, description := fields[i].name, fields[i].def.ty, fields[i].def.description;
      var isCustomField := ty.Object?;
      var typeString := if isCustomField
        then "([" + Display(ty) + "](#" + Lower(ReplaceSpaces(Display(ty))) + "-type))"
        else "(" + Display(ty) + ")";
      ghost var before := out;
      out := out + ("- **" + name + "** " + typeString);
      if description.Some? {
        out := out + (": " + description.value);
      }
      out := out + "\n";
      Assoc3(before, "- **" + name + "** " + typeString, DescriptionSuffix(description), "\n");
      MapSeqSnoc(FieldLine, fields, i);
      Extend(subtext, FieldLines(fields[..i]), FieldLine(fields[i]), before, out);
    }
    assert fields[..|fields|] == fields;
  }

  /** Appends one line per argument, in the order of the arguments. */
  method AddArgs(subtext: string, arguments: seq<Argument>) returns (out: string)
    ensures out == subtext + Concat(ArgLines(arguments))
  {
    out := subtext;
    for i := 0 to |arguments|
      invariant out == subtext + Concat(ArgLines(arguments[..i]))
    {
      var arg := arguments[i];
      ghost var before := out;
      out := out + ("- " + arg.name + ": " + Display(arg.ty));
      if arg.rules.Some? {
        out := out + (" **(" + Join(", ", arg.rules.value) + ")**");
      }
      out := out + "\n";
      Assoc3(before, "- " + arg.name + ": " + Display(arg.ty), RulesSuffix(arg.rules), "\n");
      MapSeqSnoc(ArgLine, arguments, i);
      Extend(subtext, ArgLines(arguments[..i]), ArgLine(arguments[i]), before, out);
    }
    assert arguments[..|arguments|] == arguments;
  }

  /** Appends the `Returns` line, after stripping one list wrapper from the type. */
  method AddReturnType(text: string, returnType: TypeRef) returns (out: string)
    ensures out == text + ReturnLine(returnType)
  {
    var ty := returnType;
    if ty.ListOf? {
      ty := ty.inner;
    }
    var name: string;
    if !ty.Object? {
      name := NameProperty(ty);
    } else {
      name := ty.configName;
    }
    out := text + ("\nReturns [" + name + "](#" + ReplaceSpaces(Lower(name)) + "-type)\n");
  }

  class DocumentationGenerator {
    /** The configured types, queries and mutations, already resolved. */
    const registry: Registry
    /** The contents of the output file. */
    var file: string

    constructor (registry: Registry)
      ensures this.registry == registry && file == ""
    {
      this.registry := registry;
      file := "";
    }

    /** Writes the whole document: title, then Types, Queries, Mutations. */
    method Handle()
      modifies this
      ensures file == Document(registry)
    {
      CreateFile();
      WriteTypes();
      WriteQueriesOrMutations(true);
      WriteQueriesOrMutations(false);
    }

    /** Replaces whatever the file held with the title block. */
    method CreateFile()
      modifies this
      ensures file == TitleBlock
    {
      var title := "#This project's Type, Query and Mutation documentation\n        \n* [Types](#types)\n* [Queries](#queries)\n* [Mutations](#mutations)\n        \n";
      file := title;
    }

    /** Appends the Types section. */
    method WriteTypes()
      modifies this
      ensures file == old(file) + TypesSection(registry.types)
    {
      var types := registry.types;
      var text := "#Types\n        \n";
      var typeNames := "";
      var subtext := "";
      for i := 0 to |types|
        invariant file == old(file)
        invariant typeNames == Concat(TypeTocEntries(types[..i]))
        invariant subtext == Concat(TypeBlocks(types[..i]))
      {
        var typeName := types[i].name;
        ghost var namesBefore := typeNames;
        typeNames := typeNames + ("* [" + typeName + "](#" + typeName + "-type)\n");
        TypeTocStep(types, i, namesBefore, typeNames);
        ghost var before := subtext;
        subtext := AddTitle(subtext, typeName, types[i].description, "type");
        subtext := AddFields(subtext, types[i].fields);
        subtext := subtext + "\n";
        TypeBlockStep(types, i, before, subtext);
      }
      assert types[..|types|] == types;
      text := text + (typeNames + "\n");
      text := text + (subtext + "\n        \n");
      TypesSectionParts(types, typeNames, subtext, text);
      file := file + text;
    }

    /** Appends the Queries section when `query` holds, the Mutations section otherwise. */
    method WriteQueriesOrMutations(query: bool)
      modifies this
      ensures file == old(file)
        + OperationsSection(if query then registry.queries else registry.mutations, query)
    {
      var text := "#" + (if query then "Queries" else "Mutations") + "\n";
      var queryNames := "";
      var subtext := "";
      var kind := if query then "query" else "mutation";
      var ops := if query then registry.queries else registry.mutations;
      for i := 0 to |ops|
        invariant file == old(file)
        invariant queryNames == Concat(OperationTocEntries(ops[..i], kind))
        invariant subtext == Concat(OperationBlocks(ops[..i], kind))
      {
        var queryName := ops[i].name;
        ghost var namesBefore := queryNames;
        queryNames := queryNames + ("* [" + queryName + "](#" + queryName + "-" + kind + ")\n");
        OperationTocStep(ops, kind, i, namesBefore, queryNames);
        ghost var before := subtext;
        subtext := AddTitle(subtext, queryName, ops[i].description, kind);
        subtext := AddArgs(subtext, ops[i].args);
        subtext := AddReturnType(subtext, ops[i].returnType);
        subtext := subtext + "\n";
        OperationBlockStep(ops, kind, i, before, subtext);
      }
      assert ops[..|ops|] == ops;
      ghost var heading := text;
      text := text + (queryNames + "\n");
      text := text + (subtext + "\n        \n");
      OperationsSectionParts(ops, query, heading, queryNames, subtext, text);
      file := file + text;
    }
  }

  // ------------------------------------------------ bookkeeping for the loops

  lemma Assoc(x: string, a: string, b: string)
    ensures x + a + b == x + (a + b)
  {
  }

  lemma Assoc3(x: string, a: string, b: string, c: string)
    ensures x + a + b + c == x + (a + b + c)
  {
  }

  lemma Assoc4(x: string, a: string, b: string, c: string, d: string)
    ensures x + a + b + c + d == x + (a + b + c + d)
  {
  }

  lemma TypeTocStep(types: seq<TypeDef>, i: nat, before: string, after: string)
    requires i < |types|
    requires before == Concat(TypeTocEntries(types[..i]))
    requires after == before + ("* [" + types[i].name + "](#" + types[i].name + "-type)\n")
    ensures after == Concat(TypeTocEntries(types[..i + 1]))
  {
    MapSeqSnoc(TypeTocEntryOf, types, i);
    Extend("", TypeTocEntries(types[..i]), TypeTocEntry(types[i].name), before, after);
  }

  lemma TypeBlockStep(types: seq<TypeDef>, i: nat, before: string, after: string)
    requires i < |types|
    requires before == Concat(TypeBlocks(types[..i]))
    requires after == before + Title(types[i].name, types[i].description, "type")
      + Concat(FieldLines(types[i].fields)) + "\n"
    ensures after == Concat(TypeBlocks(types[..i + 1]))
  {
    Assoc3(before, Title(types[i].name, types[i].description, "type"), Concat(FieldLines(types[i].fields)), "\n");
    MapSeqSnoc(TypeBlock, types, i);
    Extend("", TypeBlocks(types[..i]), TypeBlock(types[i]), before, after);
  }

  lemma TypesSectionParts(types: seq<TypeDef>, names: string, blocks: string, text: string)
    requires names == Concat(TypeTocEntries(types))
    requires blocks == Concat(TypeBlocks(types))
    requires text == "#Types\n        \n" + (names + "\n") + (blocks + "\n        \n")
    ensures text == TypesSection(types)
  {
  }

  lemma OperationTocStep(ops: seq<Operation>, kind: string, i: nat, before: string, after: string)
    requires i < |ops|
    requires before == Concat(OperationTocEntries(ops[..i], kind))
    requires after == before + ("* [" + ops[i].name + "](#" + ops[i].name + "-" + kind + ")\n")
    ensures after == Concat(OperationTocEntries(ops[..i + 1], kind))
  {
    MapSeqSnoc(OperationTocEntryFor(kind), ops, i);
    Extend("", OperationTocEntries(ops[..i], kind), OperationTocEntry(ops[i].name, kind), before, after);
  }

  lemma OperationBlockStep(ops: seq<Operation>, kind: string, i: nat, before: string, after: string)
    requires i < |ops|
    requires before == Concat(OperationBlocks(ops[..i], kind))
    requires after == before + Title(ops[i].name, ops[i].description, kind)
      + Concat(ArgLines(ops[i].args)) + ReturnLine(ops[i].returnType) + "\n"
    ensures after == Concat(OperationBlocks(ops[..i + 1], kind))
  {
    Assoc4(before, Title(ops[i].name, ops[i].description, kind), Concat(ArgLines(ops[i].args)),
      ReturnLine(ops[i].returnType), "\n");
    MapSeqSnoc(OperationBlockFor(kind), ops, i);
    Extend("", OperationBlocks(ops[..i], kind), OperationBlock(ops[i], kind), before, after);
  }

  lemma OperationsSectionParts(ops: seq<Operation>, query: bool, heading: string, names: string,
                               blocks: string, text: string)
    requires heading == "#" + OperationHeading(query) + "\n"
    requires names == Concat(OperationTocEntries(ops, OperationKind(query)))
    requires blocks == Concat(OperationBlocks(ops, OperationKind(query)))
    requires text == heading + (names + "\n") + (blocks + "\n        \n")
    ensures text == OperationsSection(ops, query)
  {
  }

  /** Appending the next fragment to a prefix of the concatenation. */
  lemma Extend(prefix: string, done: seq<string>, next: string, before: string, after: string)
    requires before == prefix + Concat(done)
    requires after == before + next
    ensures after == prefix + Concat(done + [next])
  {
    ConcatSnoc(done, next);
  }
}
