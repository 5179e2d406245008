# Dgraph GraphQL schema augmenter — a Dafny model

This project models `dgraph/cmd/graphql/schema/schema.go`. That package takes
a GraphQL schema written by a user and turns it into the full schema the
Dgraph GraphQL layer serves. It does five things:

- **Scalar bootstrapping** (`AddScalars`, `addScalarInSchema`). A `SCALAR`
  definition is appended for each of Int, Float, ID, DateTime, String and
  Boolean unless the document already declares one.
- **Rule registry** (`AddSchRule`, `ValidateSchema`). Named schema rules are
  kept in registration order. Validation runs all of them and collects every
  error they report.
- **Augmentation** (`GenerateCompleteSchema`):
  - Fresh, empty `Query` and `Mutation` roots replace the old ones.
  - Every object type `T` gets seven companion types in a staging map:
    `TInput`, `TRef`, `TUpdate`, `TFilter`, `AddTPayload`, `UpdateTPayload`
    and `DeleteTPayload`.
  - `T` also gets two query fields (`getT`, `queryT`) and three mutation
    fields (`addT`, `updateT`, `deleteT`).
  - The staging map is merged into the type map after the loop.
- **Field derivation** (`getNonIDFields`, `getIDField`, `genUpdateType`):
  - ID fields go to `TRef`; the other fields go to `TInput` and `TUpdate`.
  - A field whose base type is an object is rewritten to the `Ref` companion.
  - The `TUpdate` copies are made optional.
- **Serialisation** (`Stringify` and the `generate*String` writers). The
  schema is written as text in fixed sections: objects, scalars, inputs and
  enums, Ref, Filter, Payload, then Query and Mutation.

Files and modules:

| file | module | contents |
|---|---|---|
| `ast.dfy` | `Ast` | Type references in list / non-null notation (sections 3.11 and 3.12 of the June 2018 GraphQL specification), fields, definitions and a schema snapshot. Also a parser for the notation, used as the partner of `TypeRef.String`. |
| `scalars.dfy` | `Scalars` | The schema document as a class, scalar bootstrapping, and its append-only, completeness, idempotence and counting properties. |
| `rules.dfy` | `Rules` | The rule registry as a class; validation as a loop proved equal to a specification function. |
| `derive.dfy` | `Derive` | Field derivation (loop methods proved equal to specification functions), the seven companion constructors and the root fields of one type. |
| `augment.dfy` | `Augment` | The schema as a class with the augmentation methods, and lemmas about the augmented type map and roots for every visiting order. |
| `serialize.dfy` | `Serialize` | The text writers, section assignment, and lemmas about the produced text. |

Go leaves the iteration order of a map unspecified. `GenerateCompleteSchema`
and `Stringify` therefore take the order as an argument `order`, a
duplicate-free listing of the type names. The properties of the type map and
of which fields exist are proved for every such order. The text is stated for
a given order.

Behaviour of the code that the model keeps as written:

- `Stringify` returns `""` only for a nil type map
  (`schema.go:464-466`). An empty non-nil map gives `"\n"` followed by the text of any
  non-nil root, so the result is never empty.
- Root-field arguments are joined by `","` with no blank
  (`schema.go:449-451`): `updateT(id: ID!,input: TUpdate)`.
- The suffix tests on `Filter`, `Payload` and `Ref` (`schema.go:477-483`)
  are reached only for interfaces and unions. The generated `TRef` and
  `TFilter` types are input objects, so they are written in the input
  section. The generated payloads are objects, so they are written in the
  object section. The Ref, Filter and Payload sections never receive a
  generated type.
- A field whose base type is missing from the type map makes the kind
  lookup at `schema.go:344` dereference nil. The model states the absence
  of that case as a precondition (`FieldRefsDefined`).
- A derived name that equals an existing type name silently overwrites that
  type when the staging map is installed (`schema.go:109`). The model
  computes the overwrite. The lemmas that keep user types intact assume
  `NoCollisions`.

## Model

| member | source | states |
|---|---|---|
| Ast.ToLower | dgraph/cmd/graphql/schema/schema.go:161 | The lower-cased name has the same length, and each character is the lower-case form of the character at the same position. |
| Ast.TypeRef.Name | dgraph/cmd/graphql/schema/schema.go:341 | Its body is the model: the base name, found through every list level. |
| Ast.TypeRef.String | dgraph/cmd/graphql/schema/schema.go:389 | Its body is the model: `[elem]` for a list, a trailing `!` when non-null. `Ast.ParseStringRoundTrip` is its inverse. |
| Ast.ParseStringRoundTrip | dgraph/cmd/graphql/schema/schema.go:389 | The canonical notation loses nothing: reading the text of any well-named type reference back gives the same reference, list levels and non-null flags included. |
| Scalars.WithScalar | dgraph/cmd/graphql/schema/schema.go:41-49 | Afterwards a SCALAR with the name is present. The old definitions are a prefix of the result, and at most one definition is added. |
| Scalars.SchemaDocument.AddScalarInSchema | dgraph/cmd/graphql/schema/schema.go:41-49 | The scan stops at the first SCALAR with that name. Otherwise one SCALAR definition is appended. The new definitions equal `WithScalar` of the old ones. |
| Scalars.SchemaDocument.AddScalars | dgraph/cmd/graphql/schema/schema.go:32-39 | The six scalars are added in the order Int, Float, ID, DateTime, String, Boolean. |
| Scalars.WithAll | dgraph/cmd/graphql/schema/schema.go:32-39 | The definitions after adding each name in turn; at most one definition per name is added. |
| Scalars.WithScalars | dgraph/cmd/graphql/schema/schema.go:32-39 | The definitions `AddScalars` leaves; at most six definitions are added. |
| Scalars.WithAllAppendOnly | dgraph/cmd/graphql/schema/schema.go:32-49 | Existing definitions are kept unchanged as a prefix. Every appended definition is a bare SCALAR whose name is one of the requested names. |
| Scalars.WithAllComplete | dgraph/cmd/graphql/schema/schema.go:32-49 | Afterwards every requested name has a SCALAR definition. |
| Scalars.WithAllPresent | dgraph/cmd/graphql/schema/schema.go:42-46 | When every requested scalar is already declared, nothing changes. |
| Scalars.WithScalarsIdempotent | dgraph/cmd/graphql/schema/schema.go:32-49 | A second `AddScalars` leaves the definitions unchanged. |
| Scalars.ScalarCountPositive | dgraph/cmd/graphql/schema/schema.go:43 | The SCALAR count of a name is positive exactly when the existence check succeeds. |
| Scalars.WithScalarCount | dgraph/cmd/graphql/schema/schema.go:41-49 | One step adds a declaration only for a name that had none, and leaves every other count unchanged. |
| Scalars.WithAllCount | dgraph/cmd/graphql/schema/schema.go:32-49 | A missing requested name ends up declared exactly once. Every other count is unchanged. |
| Scalars.ScalarsDeclaredOnce | dgraph/cmd/graphql/schema/schema.go:32-49 | Each built-in declared at most once beforehand is declared exactly once after one or two bootstraps. |
| Rules.RuleRegistry.constructor | dgraph/cmd/graphql/schema/schema.go:20 | The registry starts empty. |
| Rules.RuleRegistry.AddSchRule | dgraph/cmd/graphql/schema/schema.go:52-57 | The rule is appended after all earlier rules; registration order is kept. |
| Rules.RuleRegistry.ValidateSchema | dgraph/cmd/graphql/schema/schema.go:60-72 | Nil exactly when every rule passes. Otherwise the non-empty list of collected reports, equal to `Failures`. |
| Rules.Failures | dgraph/cmd/graphql/schema/schema.go:60-67 | Its body is the model: the reports of the rules, in registration order. `Rules.FailuresAreReports` and `Rules.FailuresEmptyIff` characterise it. |
| Rules.FailuresAreReports | dgraph/cmd/graphql/schema/schema.go:60-72 | The collected errors are exactly the reports of the failing rules. Each report sits at its rule's position in increasing rule order, and no failing rule is skipped. |
| Rules.FailuresEmptyIff | dgraph/cmd/graphql/schema/schema.go:68-70 | No error is collected if and only if every rule returns nil. |
| Derive.PrefixRefsDefined | dgraph/cmd/graphql/schema/schema.go:344 | The lookup precondition holds for every prefix of the field list. |
| Derive.RefTypeOf | dgraph/cmd/graphql/schema/schema.go:349-358 | The base name gains `Ref` and the outer non-null flag is kept. A list keeps exactly one list level, whose named element carries the original element's non-null flag. |
| Derive.DeriveField | dgraph/cmd/graphql/schema/schema.go:344-366 | An object-typed field becomes a fresh field with the same name, no arguments and the Ref type. Any other field is copied unchanged. |
| Derive.NonIdFields | dgraph/cmd/graphql/schema/schema.go:338-369 | At most as many fields as the input, none of them an ID field. |
| Derive.IdFields | dgraph/cmd/graphql/schema/schema.go:371-380 | At most as many fields as the input, all of them ID fields. |
| Derive.SelectedPositionsStep | dgraph/cmd/graphql/schema/schema.go:340-343 | The positions selected by the filter grow by the next field exactly when that field passes. |
| Derive.NonIdFieldsSelect | dgraph/cmd/graphql/schema/schema.go:338-369 | There is an increasing list of exactly the non-ID positions. The result has one entry per position, in that order, each the derived copy of its field. |
| Derive.IdFieldsSelect | dgraph/cmd/graphql/schema/schema.go:371-380 | There is an increasing list of exactly the ID positions. The result has one entry per position, in that order, each the field itself. |
| Derive.FieldPartition | dgraph/cmd/graphql/schema/schema.go:338-380 | Every field of T goes to exactly one of TRef and TInput. |
| Derive.GetNonIdFields | dgraph/cmd/graphql/schema/schema.go:338-369 | The loop, with its `continue` and in-place Ref rewrite, returns `NonIdFields` of the type's fields. |
| Derive.GetIdField | dgraph/cmd/graphql/schema/schema.go:371-380 | The loop returns `IdFields` of the type's fields. |
| Derive.GenInputType | dgraph/cmd/graphql/schema/schema.go:113-120 | `TInput` is an input object named T+`Input` holding no ID field. |
| Derive.GenRefType | dgraph/cmd/graphql/schema/schema.go:122-129 | `TRef` is an input object named T+`Ref` holding only ID fields. |
| Derive.UpdateType | dgraph/cmd/graphql/schema/schema.go:131-143 | `TUpdate` is an input object named T+`Update`. No field is an ID field and no field is non-null at the top level. |
| Derive.GenUpdateType | dgraph/cmd/graphql/schema/schema.go:131-143 | The loop that clears each copy's non-null flag yields `UpdateType`. |
| Derive.UpdateMatchesInput | dgraph/cmd/graphql/schema/schema.go:131-143 | TUpdate and TInput have one field per non-ID field of T, in order. The two copies share name, arguments, base name and list shape. The TUpdate copy is optional. The TInput copy keeps the non-null flag of the field of T it comes from, so clearing the TUpdate flags does not reach TInput or T. Each TUpdate field is exactly its TInput field with only the top-level non-null flag cleared. |
| Derive.GetFilterField | dgraph/cmd/graphql/schema/schema.go:323-335 | A single field `dgraph` with no arguments, whose type is the nullable named type `String`. |
| Derive.GenFilterType | dgraph/cmd/graphql/schema/schema.go:145-152 | `TFilter` is an input object named T+`Filter` whose fields are the filter field. |
| Derive.PayloadField | dgraph/cmd/graphql/schema/schema.go:160-166 | The payload field is named lower(T), has no arguments, and its type is the non-null named type T. |
| Derive.GenAddResultType | dgraph/cmd/graphql/schema/schema.go:154-170 | `AddTPayload` is an object whose only field is the payload field. |
| Derive.GenUpdResultType | dgraph/cmd/graphql/schema/schema.go:172-188 | `UpdateTPayload` is an object whose only field is the payload field. |
| Derive.GenDelResultType | dgraph/cmd/graphql/schema/schema.go:190-206 | `DeleteTPayload` is an object with the single field `msg`, without arguments, of the non-null named type `String`. |
| Derive.Companions | dgraph/cmd/graphql/schema/schema.go:95-101 | Its body is the model: the seven companions of T keyed by their names. `Derive.CompanionsNamed` states the keys. |
| Derive.CompanionsNamed | dgraph/cmd/graphql/schema/schema.go:95-101 | The staged keys for T are exactly the seven derived names, and each companion is stored under its own name. |
| Derive.QueryFields | dgraph/cmd/graphql/schema/schema.go:208-251 | Two fields: `getT` with the single argument `id` of non-null `ID` and type non-null T, then `queryT` with the single argument `filter` of non-null `TFilter` and type a non-null list of non-null T. |
| Derive.MutationFields | dgraph/cmd/graphql/schema/schema.go:253-321 | Three fields: `addT` with argument `input` of non-null `TInput` and type non-null `AddTPayload`; `updateT` with arguments `id` of non-null `ID` and `input` of nullable `TUpdate` and type non-null `UpdateTPayload`; `deleteT` with argument `id` of non-null `ID` and type non-null `DeleteTPayload`. |
| Augment.ObjectsIn | dgraph/cmd/graphql/schema/schema.go:93-94 | The visited object types are among the visited names. |
| Augment.Staging | dgraph/cmd/graphql/schema/schema.go:93-101 | Its body is the model: the staging map after visiting a prefix of the order. `Augment.StagingKeys`, `Augment.StagingLookup` and `Augment.StagingOrderIndependent` characterise it. |
| Augment.RootFields | dgraph/cmd/graphql/schema/schema.go:93-106 | Its body is the model: the root fields after visiting a prefix of the order. `Augment.RootFieldsLayout` characterises it. |
| Augment.VisitStep | dgraph/cmd/graphql/schema/schema.go:93-106 | One loop turn extends the staging map by T's companions and the roots by T's fields when T is an object. Otherwise nothing changes. |
| Augment.StageCompanions | dgraph/cmd/graphql/schema/schema.go:95-101 | The seven map writes add exactly `Companions` of T. |
| Augment.Schema.AddQueryType | dgraph/cmd/graphql/schema/schema.go:208-251 | The Query root's fields become the old fields followed by `getT(id: ID!): T!` and `queryT(filter: TFilter!): [T!]!`. Nothing else changes. |
| Augment.Schema.AddMutationType | dgraph/cmd/graphql/schema/schema.go:253-321 | The Mutation root's fields become the old fields followed by `addT`, `updateT` and `deleteT`. Nothing else changes. |
| Augment.Schema.GenerateCompleteSchema | dgraph/cmd/graphql/schema/schema.go:76-111 | Both roots are fresh objects holding the root fields of the visited object types. The type map becomes the old one overwritten by the staging map, and a nil map stays nil. For a non-nil map, the schema's new value is exactly the augmented schema whose text `Serialize.StringifyAugmented` states. |
| Augment.Schema.InstallTypes | dgraph/cmd/graphql/schema/schema.go:108-110 | Writing the staged entries one by one, in any order, gives the old map overwritten by the staging map. |
| Augment.StemOfDerived | dgraph/cmd/graphql/schema/schema.go:95-101 | Every derived name of T leads back to T. |
| Augment.DerivedNamesDisjoint | dgraph/cmd/graphql/schema/schema.go:95-101 | Two different type names never derive the same name, so no companion overwrites another type's companion. |
| Augment.StagingKeys | dgraph/cmd/graphql/schema/schema.go:93-106 | A name is staged if and only if it is a derived name of a visited object type. |
| Augment.StagingLookup | dgraph/cmd/graphql/schema/schema.go:93-106 | Each visited object type's companions are staged under their names with their contents. |
| Augment.StagingOrderIndependent | dgraph/cmd/graphql/schema/schema.go:93-110 | The staging map, and so the augmented type map, is the same for every visiting order. |
| Augment.CompanionsInstalled | dgraph/cmd/graphql/schema/schema.go:93-110 | For every object type T present at entry, the augmented map holds all seven companions of T. |
| Augment.OtherEntriesUnchanged | dgraph/cmd/graphql/schema/schema.go:108-110 | An entry whose name is no derived name is left as it was. |
| Augment.UserTypesKept | dgraph/cmd/graphql/schema/schema.go:108-110 | Without collisions, every user type keeps its definition. |
| Augment.AugmentedKeys | dgraph/cmd/graphql/schema/schema.go:93-110 | The augmented map's names are exactly the old names and the derived names of the object types. |
| Augment.ObjectsInExact | dgraph/cmd/graphql/schema/schema.go:93-94 | The visited object types are distinct, and they are exactly the object types of the map. |
| Augment.ObjectsInCount | dgraph/cmd/graphql/schema/schema.go:93-94 | The number of visited object types equals the number of object types in the map. |
| Augment.RootFieldsLayout | dgraph/cmd/graphql/schema/schema.go:79-106 | Each root's fields are the root fields of the object types in visiting order, type after type, and nothing else. |
| Augment.FieldsOfObjectsLength | dgraph/cmd/graphql/schema/schema.go:208-321 | Each object type contributes two query fields and three mutation fields. |
| Augment.RootFieldCounts | dgraph/cmd/graphql/schema/schema.go:79-106 | Query ends with 2·n fields and Mutation with 3·n fields, where n is the number of object types. |
| Serialize.BucketByKind | dgraph/cmd/graphql/schema/schema.go:468-483 | Kind decides the object, scalar and input sections, in both directions. The Filter, Payload and Ref sections take exactly the interfaces and unions whose key carries the matching suffix. |
| Serialize.Bucket | dgraph/cmd/graphql/schema/schema.go:468-483 | Its body is the model: the section a type goes to. `Serialize.BucketByKind` characterises it. |
| Serialize.Chunk | dgraph/cmd/graphql/schema/schema.go:468-483 | A type contributes text to its section exactly when the if-chain places it somewhere. |
| Serialize.InputString | dgraph/cmd/graphql/schema/schema.go:382-394 | Its body is the model: the `input` header, one line per non-reserved field, `}`. `Serialize.ReservedFieldHidden` is its property. |
| Serialize.ObjectString | dgraph/cmd/graphql/schema/schema.go:410-422 | Its body is the model: the `type` header, one line per non-reserved field, `}`. `Serialize.ReservedFieldHidden` is its property. |
| Serialize.EnumString | dgraph/cmd/graphql/schema/schema.go:396-408 | Its body is the model: the `enum` header, one line per non-reserved value, `}`. `Serialize.ReservedEnumValueHidden` is its property. |
| Serialize.ScalarString | dgraph/cmd/graphql/schema/schema.go:424-429 | Its body is the model: `scalar` and the name on one line. |
| Serialize.QMString | dgraph/cmd/graphql/schema/schema.go:431-458 | Its body is the model: `type Query {` or `type Mutation {` whatever the root's own name, one line per non-reserved field, `}`. `Serialize.ReservedRootFieldHidden` and `Serialize.RootText` are its properties. |
| Serialize.Stringify | dgraph/cmd/graphql/schema/schema.go:461-504 | The text is empty if and only if the type map is nil. |
| Serialize.FieldLinesAppend | dgraph/cmd/graphql/schema/schema.go:386-391 | The field lines of a concatenation are the lines of each part, in order. |
| Serialize.ReservedFieldLines | dgraph/cmd/graphql/schema/schema.go:386-391 | A field whose name starts with `__` contributes no text wherever it stands. |
| Serialize.ReservedFieldHidden | dgraph/cmd/graphql/schema/schema.go:382-422 | Adding or removing a `__` field leaves an input or object type's text unchanged. |
| Serialize.EnumLinesAppend | dgraph/cmd/graphql/schema/schema.go:400-404 | The value lines of a concatenation are the lines of each part, in order. |
| Serialize.ReservedEnumLines | dgraph/cmd/graphql/schema/schema.go:400-404 | A `__` enum value contributes no text wherever it stands. |
| Serialize.ReservedEnumValueHidden | dgraph/cmd/graphql/schema/schema.go:396-408 | Adding or removing a `__` enum value leaves the enum's text unchanged. |
| Serialize.RootLinesAppend | dgraph/cmd/graphql/schema/schema.go:441-454 | The root-field lines of a concatenation are the lines of each part, in order. |
| Serialize.ReservedRootLines | dgraph/cmd/graphql/schema/schema.go:441-444 | A `__` root field contributes no text wherever it stands. |
| Serialize.ReservedRootFieldHidden | dgraph/cmd/graphql/schema/schema.go:431-458 | Adding or removing a `__` root field leaves the Query or Mutation text unchanged. |
| Serialize.ArgPiecesJoin | dgraph/cmd/graphql/schema/schema.go:446-452 | After k of n arguments the writer has emitted their join plus one trailing comma, unless k = n, when no comma trails. |
| Serialize.ArgsStringIsJoin | dgraph/cmd/graphql/schema/schema.go:446-452 | The argument list is the arguments joined by single commas, with no trailing comma. |
| Serialize.NotReserved | dgraph/cmd/graphql/schema/schema.go:442 | Generated root-field names never start with `__`. |
| Serialize.ArgsStringSingle | dgraph/cmd/graphql/schema/schema.go:446-452 | A single argument is written without a comma. |
| Serialize.RootLinesOne | dgraph/cmd/graphql/schema/schema.go:441-454 | A non-reserved root field is written as its own line. |
| Serialize.RootLinesTwo | dgraph/cmd/graphql/schema/schema.go:441-454 | Two non-reserved root fields are written one line each, in order. |
| Serialize.GetLine | dgraph/cmd/graphql/schema/schema.go:208-227 | `getT` is written `\tgetT(id: ID!): T!`. |
| Serialize.QueryLine | dgraph/cmd/graphql/schema/schema.go:229-250 | `queryT` is written `\tqueryT(filter: TFilter!): [T!]!`. |
| Serialize.AddLine | dgraph/cmd/graphql/schema/schema.go:254-272 | `addT` is written `\taddT(input: TInput!): AddTPayload!`. |
| Serialize.UpdateArgs | dgraph/cmd/graphql/schema/schema.go:282-299 | The arguments of `updateT` are written `id: ID!,input: TUpdate`: a comma with no blank, and the input is nullable. |
| Serialize.UpdateLine | dgraph/cmd/graphql/schema/schema.go:274-300 | `updateT` is written `\tupdateT(id: ID!,input: TUpdate): UpdateTPayload!`. |
| Serialize.DeleteLine | dgraph/cmd/graphql/schema/schema.go:302-320 | `deleteT` is written `\tdeleteT(id: ID!): DeleteTPayload!`. |
| Serialize.QueryFieldsRender | dgraph/cmd/graphql/schema/schema.go:208-251 | The Query root gains the `getT` line, then the `queryT` line. |
| Serialize.MutationFieldsRender | dgraph/cmd/graphql/schema/schema.go:253-321 | The Mutation root gains the `addT`, `updateT` and `deleteT` lines, in that order. |
| Serialize.FieldsForRender | dgraph/cmd/graphql/schema/schema.go:103-104 | One object type's root fields are written as its block. |
| Serialize.RootFieldsText | dgraph/cmd/graphql/schema/schema.go:79-106 | The body of the augmented Query or Mutation root is one block per object type, in visiting order. |
| Serialize.SectionTextAppend | dgraph/cmd/graphql/schema/schema.go:468-484 | Within a section, each type's chunk follows the chunks of the types visited before it. |
| Serialize.CompanionBuckets | dgraph/cmd/graphql/schema/schema.go:469-476 | Every companion type lands in the input section or the object section. |
| Serialize.SuffixSectionsEmpty | dgraph/cmd/graphql/schema/schema.go:477-483 | In a schema without interfaces or unions the Ref, Filter and Payload sections are empty, whatever the type names. |
| Serialize.StagedBucket | dgraph/cmd/graphql/schema/schema.go:469-476 | A staged companion goes to the input or object section. |
| Serialize.AugmentKeepsSuffixSections | dgraph/cmd/graphql/schema/schema.go:468-483 | Without collisions, augmentation leaves the Ref, Filter and Payload sections as they were: the augmented map's section holds exactly the original types' chunks, for any visiting order of either map. |
| Serialize.AugmentedKinds | dgraph/cmd/graphql/schema/schema.go:93-110 | Augmentation adds no interface or union. |
| Serialize.StringifyShape | dgraph/cmd/graphql/schema/schema.go:494-501 | With empty suffix sections, the text is objects, scalars, a blank line, inputs and enums, then the Query and Mutation roots. |
| Serialize.RootText | dgraph/cmd/graphql/schema/schema.go:431-458 | A fresh root holding the augmentation's fields is written as `type Query {` or `type Mutation {`, its blocks, then `}`. |
| Serialize.StringifyAugmented | dgraph/cmd/graphql/schema/schema.go:461-504 | An augmented schema without interfaces or unions is written as objects, scalars, a blank line, inputs and enums. Then comes the Query root with one get/query block per object type, then the Mutation root with one add/update/delete block per object type, both in augmentation order. |

## Left out

- Description strings on roots and root fields are not modelled. They are set at `schema.go:81`, 88, 210, 230, 255, 275 and 303, but nothing in the file reads or renders them.
- Pointer identity and aliasing are not modelled: definitions, fields and type references are values. The roots' field lists (`schema.go:227`, 250, 272, 300, 320) and the type map (`schema.go:109`) are updated in place through the `Schema` object, whose fields the methods reassign. The only in-place write to a field or a type reference, clearing a top-level non-null flag (`schema.go:139`), acts on fresh copies, so values give the same results.
- Ast.TypeRef.Name: a Go `ast.Type` with an empty `NamedType` and a nil `Elem` is `Named("", nn)` here. On it Go's `Name()` and `String()` dereference nil (`schema.go:341`, 389, 416, 453). The model returns `""` and `""`/`"!"` and carries on, so that crash is not modelled.
- Ast.ToLower: only ASCII `A`–`Z` are lowered; the Unicode case mapping of `strings.ToLower` is not modelled.
- Rule bodies and error contents are opaque values (`Rule.check`, `GqlError`). The rule functions registered elsewhere are not part of this model.
- The registry is a class field, not a package global. Concurrent registration is not modelled.
- Go map iteration order is a parameter (`order`), not a nondeterministic choice. The final text is stated for a given order only.
- A derived name that collides with an existing type overwrites it, and the model computes this. No lemma states what the overwritten schema's text is. The lemmas about kept user types assume `NoCollisions`.
- A field whose base type is missing from the type map (a nil dereference in the source) is excluded by a precondition. That failure path is not modelled.
- `AddQueryType` and `AddMutationType` require their root to be present. The source dereferences a nil root; within `GenerateCompleteSchema` the roots are always fresh.
- Parsing the user's schema document and building the type map is done by the GraphQL parser library, which is not part of this model. The model assumes each type is stored under its own name (`KeyedByName`) where a lemma needs it.
