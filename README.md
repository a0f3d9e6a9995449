# graphql-laravel documentation generator, in Dafny

This project models the `graphql:generate-doc` console command of
graphql-laravel (`GenerateDocumentation`). The command reads the configured
GraphQL types, queries and mutations and writes one Markdown file,
`GraphQL-doc.md`. The file holds a fixed title block, then a Types section,
a Queries section and a Mutations section, always in that order. Each
section has a heading, a table of contents with one entry per member, and
one detail block per member:

- a type's block lists its fields;
- a query's or mutation's block lists its arguments and its return type.

The project has six modules:

- `Schema` holds the input as values. `TypeRef` stands for a graphql-php
  type object: `Scalar`, `Object`, `ListOf` or `NonNull`. A non-null type
  such as `Type::nonNull(User)` is written `NonNull(Object("User"))`. The
  generator's `is_a` checks see only the wrapper, so this is neither an
  object type nor a list. Interface, union and input-object types are not
  `ObjectType`s either, and the generator treats them like scalars: no
  field link, and their `->name` on the return line. They are written as
  `Scalar`. `Field`, `Argument`,
  `TypeDef`, `Operation` and `Registry` are the resolved configuration.
- `Text` models the PHP string primitives the command uses:
  - ASCII `strtolower`;
  - `str_replace(' ', '_', …)`;
  - `implode`;
  - in-order concatenation of fragments;
  - a line counter.
- `Anchors` defines the two anchor forms. A header anchor is `name-kind`.
  The slug of a type link is lower-cased with spaces replaced, plus `-type`.
- `Render` states what the command writes, as functions of the schema. They
  are built from the same literal pieces the PHP code appends.
- `Generator` is the command itself, in imperative form:
  - class `DocumentationGenerator` has a `file` field, which stands for the
    contents of the output file;
  - `CreateFile` overwrites `file`, and `WriteTypes` and
    `WriteQueriesOrMutations` append to it, each with a `foreach`-style loop;
  - the private helpers `addTitle`, `addFields`, `addArgs` and
    `addReturnType` read no state of the command, so they are module-level
    methods that return the extended string;
  - every method is proved to produce exactly the matching `Render` function.
- `Properties` regroups the rendered concatenations into Markdown pieces:
  `MdLink` (a link), `HeaderTag` (a header's anchor tag) and `Cell` (a
  type shown as plain text or as a link). With these it proves which
  anchor each header declares and which one each link targets, when a type
  is a link, when a suffix appears, how many lines an entry takes, that
  members keep their configured order, and what an empty configuration
  produces.

What the code does with anchors and return types:

- **Header anchors.** Header and table-of-contents anchors keep the
  member's key unchanged (line 150). A query keyed `getUser` gets the
  anchor `getUser-query`.
- **Return types.** A single `if` strips one list wrapper from a return
  type (lines 161-164). A list of a list keeps its inner list.
- **Return line.** The return line is always a link, whether the type is an
  object or a leaf type (lines 176-178).
- **Wrapper names.** A list or non-null wrapper has no name of its own, so
  its `->name` (line 169) reads as empty.

## Model

| member | source | states |
|---|---|---|
| Generator.DocumentationGenerator.Handle | src/Rebing/GraphQL/Commands/GenerateDocumentation.php:18-25 | after the command, the file holds exactly `Document(registry)`: the title block, then the Types, Queries and Mutations sections, in that order |
| Generator.DocumentationGenerator.CreateFile | src/Rebing/GraphQL/Commands/GenerateDocumentation.php:27-37 | the file is replaced by the title block, including its two 8-space lines |
| Generator.DocumentationGenerator.WriteTypes | src/Rebing/GraphQL/Commands/GenerateDocumentation.php:39-70 | the file grows by exactly the Types section: its heading, one ToC entry per configured type in order, a line break, one detail block per type in order, and the closing separator |
| Generator.DocumentationGenerator.WriteQueriesOrMutations | src/Rebing/GraphQL/Commands/GenerateDocumentation.php:72-105 | the file grows by exactly the Queries section (flag true) or the Mutations section (flag false), with the kind `query` or `mutation` in every anchor |
| Generator.AddFields | src/Rebing/GraphQL/Commands/GenerateDocumentation.php:107-135 | the text is extended by one field line per field, in field order, and nothing else |
| Generator.AddArgs | src/Rebing/GraphQL/Commands/GenerateDocumentation.php:137-146 | the text is extended by one argument line per argument, in argument order, and nothing else |
| Generator.AddTitle | src/Rebing/GraphQL/Commands/GenerateDocumentation.php:148-156 | the text is extended by the anchored header line, then the description line when the attribute is set |
| Generator.AddReturnType | src/Rebing/GraphQL/Commands/GenerateDocumentation.php:158-179 | the text is extended by the return line of the type, with one list layer stripped |
| Text.LowerChar | src/Rebing/GraphQL/Commands/GenerateDocumentation.php:127 | `strtolower` on one character maps each capital A-Z to the letter 32 code points above it, a lower-case letter, and leaves every other character unchanged |
| Text.LowerAt | src/Rebing/GraphQL/Commands/GenerateDocumentation.php:127 | `strtolower` keeps the length and lowers each character in place |
| Text.ReplaceSpacesAt | src/Rebing/GraphQL/Commands/GenerateDocumentation.php:177 | `str_replace(' ', '_', …)` keeps the length and changes only the spaces, each to `_` |
| Text.Join | src/Rebing/GraphQL/Commands/GenerateDocumentation.php:142 | `implode` of no parts is empty; otherwise the result starts with the first part, followed by the separator when there is more than one part |
| Text.JoinAppend | src/Rebing/GraphQL/Commands/GenerateDocumentation.php:142 | `implode` of two non-empty lists put together is the two results with one separator between them |
| Text.JoinOneLine | src/Rebing/GraphQL/Commands/GenerateDocumentation.php:142 | joining one-line rules with a one-line separator gives one line |
| Anchors.HeaderAnchor | src/Rebing/GraphQL/Commands/GenerateDocumentation.php:150 | a header anchor is the key unchanged, then `-`, then the kind |
| Anchors.HeaderAnchorInjective | src/Rebing/GraphQL/Commands/GenerateDocumentation.php:150 | two members of one section with different keys get different header anchors |
| Anchors.SlugsAgree | src/Rebing/GraphQL/Commands/GenerateDocumentation.php:177 | the field link slug (replace spaces, then lower-case) equals the return link slug (lower-case, then replace spaces) for every name |
| Anchors.SlugIsCanonical | src/Rebing/GraphQL/Commands/GenerateDocumentation.php:127 | a type link slug contains no capital letter and no space |
| Anchors.FieldSlugMatchesHeaderIff | src/Rebing/GraphQL/Commands/GenerateDocumentation.php:127 | a link to a type equals that type's header anchor if and only if the type's key has no capital letter and no space |
| Schema.ReturnNameUnwrapsOneLayer | src/Rebing/GraphQL/Commands/GenerateDocumentation.php:160-174 | an object type and a list of it show the object's configured name; a leaf type and a list of it show the leaf's name; a list of a list is not unwrapped further and shows an empty name; a non-null type is never unwrapped and, bare or in a list, shows an empty name |
| Properties.TocEntryTargetsHeader | src/Rebing/GraphQL/Commands/GenerateDocumentation.php:83 | a member's ToC entry links to exactly the anchor its own header declares, `name-kind`; the Types ToC entry is the same entry with kind `type` |
| Properties.TypesSectionAt | src/Rebing/GraphQL/Commands/GenerateDocumentation.php:48-61 | in the Types section the i-th ToC entry and the i-th detail block belong to the i-th type, sit between those of the types before and after it, share one anchor, and the block ends with one extra line break |
| Properties.OperationsSectionAt | src/Rebing/GraphQL/Commands/GenerateDocumentation.php:81-96 | the same for queries and mutations; the block holds the title, the argument lines, the return line and one extra line break |
| Properties.FieldTypeCell | src/Rebing/GraphQL/Commands/GenerateDocumentation.php:125-128 | a field's type is a link exactly when it is an object type; the visible text is the type's name either way; a link targets the type's slug |
| Properties.TypeStringIsCell | src/Rebing/GraphQL/Commands/GenerateDocumentation.php:126-128 | the type string of a field is its type cell in parentheses |
| Properties.ReturnCell | src/Rebing/GraphQL/Commands/GenerateDocumentation.php:176-178 | the return type is always a link, showing the unwrapped name and targeting the same slug a field link would use |
| Properties.ReturnLineIsLink | src/Rebing/GraphQL/Commands/GenerateDocumentation.php:176-178 | the return line is a blank line, then `Returns ` and the return link |
| Properties.ReturnLineIgnoresKind | src/Rebing/GraphQL/Commands/GenerateDocumentation.php:158-178 | a leaf type and an object type of the same name, bare or in one list, give the same return line, although their field type strings differ |
| Properties.FieldDescriptionSuffix | src/Rebing/GraphQL/Commands/GenerateDocumentation.php:109-133 | with no description the field line is the bold name, the type string and the line break, nothing more; with a description, `: description` sits just before the line break; inline and referenced fields with the same type and description give the same line |
| Properties.ArgRulesSuffix | src/Rebing/GraphQL/Commands/GenerateDocumentation.php:141-143 | with no rules the argument line is name, type and line break, nothing more; with rules, ` **(r1, r2)**`, the rules joined by `, `, sits just before the line break |
| Properties.TitleDescription | src/Rebing/GraphQL/Commands/GenerateDocumentation.php:150-153 | the description line follows the header exactly when the attribute is set; otherwise the title is the header line alone |
| Properties.TypesKeepOrder | src/Rebing/GraphQL/Commands/GenerateDocumentation.php:48-61 | rendering two lists of types one after the other gives the first list's entries and blocks, then the second's: nothing is sorted, dropped or repeated |
| Properties.OperationsKeepOrder | src/Rebing/GraphQL/Commands/GenerateDocumentation.php:81-96 | the same for queries and mutations |
| Properties.FieldsKeepOrder | src/Rebing/GraphQL/Commands/GenerateDocumentation.php:109-134 | field lines follow the order of the fields |
| Properties.ArgsKeepOrder | src/Rebing/GraphQL/Commands/GenerateDocumentation.php:139-145 | argument lines follow the order of the arguments |
| Properties.OneTocLinePerMember | src/Rebing/GraphQL/Commands/GenerateDocumentation.php:50-51 | with one-line keys, the table of contents has exactly one line per type, and per query or mutation |
| Properties.TitleLines | src/Rebing/GraphQL/Commands/GenerateDocumentation.php:150-153 | a title is one line, or two when a description is set |
| Properties.FieldLineIsOneLine | src/Rebing/GraphQL/Commands/GenerateDocumentation.php:130-133 | a field with a one-line name, type and description takes exactly one line |
| Properties.OneLinePerField | src/Rebing/GraphQL/Commands/GenerateDocumentation.php:109-134 | the field lines of a type are exactly one line per field |
| Properties.OneLinePerArgument | src/Rebing/GraphQL/Commands/GenerateDocumentation.php:139-145 | the argument lines are exactly one line per argument, with or without rules |
| Properties.TypeBlockLines | src/Rebing/GraphQL/Commands/GenerateDocumentation.php:55-60 | a type's block has one line per field plus 2, or plus 3 when a description is set |
| Properties.OperationBlockLines | src/Rebing/GraphQL/Commands/GenerateDocumentation.php:88-95 | a query's or mutation's block has one line per argument plus 4, or plus 5 when a description is set |
| Properties.ReturnLineLines | src/Rebing/GraphQL/Commands/GenerateDocumentation.php:176-178 | the return line takes two lines: a blank one and the link |
| Properties.NonNullIsNotLinked | src/Rebing/GraphQL/Commands/GenerateDocumentation.php:125-178 | a non-null object type is shown as a field type with `!` and no link; as a return type, bare or in one list, it shows an empty name and links to `#-type` |
| Properties.EmptyRegistry | src/Rebing/GraphQL/Commands/GenerateDocumentation.php:18-25 | with nothing configured, the document is still the title block and all three headings, each with an empty ToC and its separators |
| Properties.GetUserQueryExample | src/Rebing/GraphQL/Commands/GenerateDocumentation.php:81-96 | for `getUser(id: ID)` with rule `required`, returning `User`, the ToC and header use `getUser-query` unchanged, while the return line links to `#user-type` |
| Properties.UserTypeExample | src/Rebing/GraphQL/Commands/GenerateDocumentation.php:48-61 | for a type `User` with one inline `String` field, the header declares `User-type` and the field line is `- **name** (String)` |

## Left out

- File output (`File::put`, `File::append`) is I/O. It is modelled as the `file` field of `DocumentationGenerator`, which holds what the file would contain.
- `config(...)` and `app(...)` resolve members from Laravel's configuration and container. They are replaced by a `Registry` value, with each member already resolved and kept in configuration order.
- The `Command` base class, `$signature`, `$description` and `$path` are console plumbing and are not modelled.
- graphql-php's type classes and the `is_a` checks on them are not modelled. They become the constructors of `TypeRef`, and `Display` stands for the string conversion of a type object.
- `Text.Lower` lower-cases ASCII letters only. Locale-dependent and non-ASCII behaviour of PHP's `strtolower` is not modelled.
- A PHP warning for a missing `description` key of an inline field (line 115) is not modelled. A missing or null description is `None`, which matches the `isset` at line 131. A missing `rules` key raises no warning, because line 142 reads it only under `isset`; it is `None`.
- `rules` that are not an array are not modelled. Laravel also accepts a string such as `'required|email'` or a callable there. `implode(', ', …)` at line 142 then fails, so the section is never appended. The model types `rules` as a list of strings, so this input cannot be written.
- Partial output when a member fails to resolve midway through a section is not modelled, because resolution is not modelled.
- Array keys are modelled as strings. PHP's integer keys, which a list-shaped `fields()` array would have, are not modelled.
