# Table schema generator

A model of `TableSchemaGenerator.py`, a small helper run as an external data
source. It reads a request object, takes the path in its `"file"` field, and
loads that JSON document. It then describes each top-level field of the
document as a `{name, type}` column. The type is one of five tags:
`boolean`, `int`, `real`, `string`, `dynamic`.

The model starts from values that are already decoded (`Json.JsonValue`). It
ends at the sequence of columns (`TableSchema.Column`).

- `json.dfy`, module `Json`: the decoded JSON values. An object is kept as its
  key/value pairs in decoding order. The module also has the dictionary lookup
  by key.
- `infer_type.dfy`, module `TypeInference`: the type tags and `infer_type`,
  written as the same chain of runtime type tests. The test "is an instance of
  int" also accepts booleans, as it does in the source language. This is why
  the order of the tests matters.
- `table_schema.dfy`, module `TableSchema`: the column-building loop, which is
  a method proved against the function `ColumnsOf`. The module also has the
  `"file"` field lookup, the loading of the document, the requirement that the
  document is an object, and the whole run as one function with its
  failures.

The file system is a parameter, `files: map<string, Option<JsonValue>>`. It
holds the paths that can be opened, each with its decoded document, or `None`
when the file's content is not valid JSON.

## Model

| member | source | states |
|---|---|---|
| `Json.Lookup` | TableSchemaGenerator.py:22 | the lookup finds nothing exactly when no member has the key; what it finds is a value stored under the key |
| `Json.LookupAt` | TableSchemaGenerator.py:22 | when keys are distinct, looking up the key at any position gives that position's value |
| `TypeInference.TypeTag.Name` | TableSchemaGenerator.py:6-17 | every tag is written as one of the five names `boolean`, `int`, `real`, `string`, `dynamic` |
| `TypeInference.NameInjective` | TableSchemaGenerator.py:6-17 | two tags with the same written name are the same tag |
| `TypeInference.InferType` | TableSchemaGenerator.py:6-17 | each tag in both directions: `Boolean` iff a boolean, `Int` iff an integer, `Real` iff a float, `String` iff a string or null, `Dynamic` iff an array or object |
| `TypeInference.BooleanBeforeInt` | TableSchemaGenerator.py:7-10 | a boolean passes the integer test, yet it is tagged `Boolean` and never `Int` |
| `TypeInference.ContainersAreShallow` | TableSchemaGenerator.py:15-16 | any two arrays or objects get the same tag, `Dynamic`, whatever they contain |
| `TypeInference.InferTypeNames` | TableSchemaGenerator.py:6-17 | every value gets one of the five names, in both directions per name: `boolean` iff a boolean, `int` iff an integer, `real` iff a float, `string` iff a string or null (the fallback), `dynamic` iff an array or object |
| `TableSchema.ColumnsOf` | TableSchemaGenerator.py:27-30 | there is one column per member; the i-th column has the i-th key as its name and the tag of the i-th value as its type |
| `TableSchema.BuildColumns` | TableSchemaGenerator.py:27-30 | the loop that appends one descriptor per member builds exactly `ColumnsOf` of the members |
| `TableSchema.ColumnNamesDistinct` | TableSchemaGenerator.py:29-30 | when the document's keys are distinct, the column names are distinct |
| `TableSchema.ColumnForKey` | TableSchemaGenerator.py:29-30 | every key of the document has exactly one column, named by the key and tagged by the tag of the key's value |
| `TableSchema.EmptyObjectNoColumns` | TableSchemaGenerator.py:27-30 | an empty object gives an empty column list |
| `TableSchema.RequestPath` | TableSchemaGenerator.py:21-22 | a path is returned exactly when the request is an object whose `"file"` field holds a string, and it is that string; any other request is `MalformedRequest` |
| `TableSchema.LoadDocument` | TableSchemaGenerator.py:24-25 | a missing path is `FileNotFound`, content that is not valid JSON is `InvalidDocument`, and otherwise the result is the decoded document |
| `TableSchema.DocumentItems` | TableSchemaGenerator.py:29 | the members are returned exactly when the document is an object, and they are its own members; any other document is `UnsupportedShape` |
| `TableSchema.SchemaSucceeds` | TableSchemaGenerator.py:21-30 | the run succeeds exactly when the request names a path that holds a valid object document, and then the columns are those of that object |
| `TableSchema.SchemaFailures` | TableSchemaGenerator.py:21-30 | each failure is the one of the first stage that fails: request, file, decoding, then shape; a failure carries no columns |
| `TableSchema.GenerateSchema` | TableSchemaGenerator.py:21-30 | the run, built with the column loop, gives exactly the result of `Schema` |
| `TableSchema.MixedDocumentColumns` | TableSchemaGenerator.py:27-30 | a document with an int, a boolean, a float, a string and an object gives columns tagged `Int`, `Boolean`, `Real`, `String`, `Dynamic` in key order |
| `TableSchema.ArrayDocumentRefused` | TableSchemaGenerator.py:25-29 | a document whose top level is an array is `UnsupportedShape` |
| `TableSchema.MissingFileRefused` | TableSchemaGenerator.py:24 | a request naming a path that does not exist is `FileNotFound` |

## Left out

- Reading standard input, opening the file and writing to standard output (lines 21, 24-25 and 33) are I/O. The request is given as a decoded value and the file system as the `files` parameter.
- JSON text decoding (`json.load`) and encoding (`json.dumps`, including the second encoding of the column list into a string) are library calls. The model begins after decoding and ends at the column sequence. The written form of a tag is `TypeTag.Name`.
- Float values play no part: `JReal` carries no number, and there is no floating-point reasoning.
- Duplicate keys in a decoded object: the decoder keeps one entry per key (the last value, at the key's first position), so repeated keys never reach the script. The model's objects may repeat keys, and `Lookup` then takes the first, which is an arbitrary choice; `ColumnsOf` makes no assumption about them, and the lemmas about looking up a key require `DistinctKeys`.
- `TableSchema.RequestPath`: a `"file"` value that is not a string is `MalformedRequest`. In the source, an integer or boolean there would be passed to `open` as a file descriptor. That is I/O and is not modelled.
- Process exit codes and error messages are not modelled. A failure is a `Failure` value, and it comes without columns.
- Running twice on the same file gives the same output: every member here is a function of its inputs, so this holds by construction and is not stated as a lemma.
