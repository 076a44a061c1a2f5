/**
 The schema generator: it takes the request's "file" field, loads the
 document named there, requires its top level to be an object, and builds
 one column descriptor per top-level key, in key order.
 */
module TableSchema {
  import opened Json
  import opened TypeInference

  /** One column descriptor: the key and the tag of the value under it. */
  datatype Column = Column(name: string, kind: TypeTag)

  /** Why no columns were produced. */
  datatype Failure = MalformedRequest | FileNotFound | InvalidDocument | UnsupportedShape

  datatype Result<+T> = Ok(value: T) | Err(failure: Failure)
  {
    predicate IsFailure() { Err? }

    function PropagateFailure<U>(): Result<U>
      requires Err?
    {
      Err(failure)
    }

    function Extract(): T
      requires Ok?
    {
      value
    }
  }

  /** The columns for a document's members: the i-th column is named by the
      i-th key and tagged by the classifier applied to the i-th value. */
  function ColumnsOf(members: seq<(string, JsonValue)>): (cols: seq<Column>)
    ensures |cols| == |members|
    ensures forall i | 0 <= i < |cols| ::
      cols[i].name == members[i].0 && cols[i].kind == InferType(members[i].1)
  {
    if members == [] then []
    else
      var last := members[|members| - 1];
      ColumnsOf(members[..|members| - 1]) + [Column(last.0, InferType(last.1))]
  }

  /** The column-building loop: start from an empty list and append one
      descriptor per member, in order. */
  method BuildColumns(members: seq<(string, JsonValue)>) returns (columns: seq<Column>)
    ensures columns == ColumnsOf(members)
  {
    columns := [];
    for i := 0 to |members|
      invariant columns == ColumnsOf(members[..i])
    {
      var (key, value) := members[i];
      assert members[..i + 1][..i] == members[..i];
      columns := columns + [Column(key, InferType(value))];
    }
    assert members[..|members|] == members;
  }

  /** Columns of distinct keys have distinct names. */
  lemma ColumnNamesDistinct(members: seq<(string, JsonValue)>)
    requires DistinctKeys(members)
    ensures var cols := ColumnsOf(members);
      forall i, j | 0 <= i < j < |cols| :: cols[i].name != cols[j].name
  {
  }

  /** Every key of the document has exactly one column, named by the key and
      tagged by the classifier applied to the key's value. */
  lemma ColumnForKey(members: seq<(string, JsonValue)>, key: string) returns (i: nat)
    requires DistinctKeys(members)
    requires Lookup(members, key).Some?
    ensures i < |ColumnsOf(members)|
    ensures ColumnsOf(members)[i] == Column(key, InferType(Lookup(members, key).value))
    ensures forall j | 0 <= j < |ColumnsOf(members)| && ColumnsOf(members)[j].name == key :: j == i
  {
    var v := Lookup(members, key).value;
    i :| 0 <= i < |members| && members[i] == (key, v);
    LookupAt(members, i);
  }

  /** The column-building loop on an empty object builds no columns. */
  lemma EmptyObjectNoColumns()
    ensures ColumnsOf([]) == []
  {
  }

  /** The path named by the request's "file" field. A request that is not an
      object, has no "file" field, or names no path there is malformed. */
  function RequestPath(query: JsonValue): (r: Result<string>)
    ensures r.Ok? <==> query.JObject? && exists p :: Lookup(query.members, "file") == Some(JString(p))
    ensures r.Ok? ==> Lookup(query.members, "file") == Some(JString(r.value))
    ensures r.Err? ==> r.failure == MalformedRequest
  {
    match query
    case JObject(members) =>
      (match Lookup(members, "file")
       case Some(JString(p)) => Ok(p)
       case _ => Err(MalformedRequest))
    case _ => Err(MalformedRequest)
  }

  /** Opening and decoding a file. `files` holds the readable paths, each with
      its decoded document, or None when its content is not valid JSON. */
  function LoadDocument(path: string, files: map<string, Option<JsonValue>>): (r: Result<JsonValue>)
    ensures r.Ok? <==> path in files && files[path].Some?
    ensures r.Ok? ==> r.value == files[path].value
    ensures r.Err? ==> r.failure == (if path in files then InvalidDocument else FileNotFound)
  {
    if path !in files then Err(FileNotFound)
    else
      match files[path]
      case Some(doc) => Ok(doc)
      case None => Err(InvalidDocument)
  }

  /** The document's top-level key/value pairs; a document that is not an
      object has none and is refused. */
  function DocumentItems(doc: JsonValue): (r: Result<seq<(string, JsonValue)>>)
    ensures r.Ok? <==> doc.JObject?
    ensures r.Ok? ==> doc == JObject(r.value)
    ensures r.Err? ==> r.failure == UnsupportedShape
  {
    match doc
    case JObject(members) => Ok(members)
    case _ => Err(UnsupportedShape)
  }

  /** The whole run: either the columns of the named document or the first
      failure met on the way; no columns come with a failure. */
  function Schema(query: JsonValue, files: map<string, Option<JsonValue>>): (r: Result<seq<Column>>)
  {
    var path :- RequestPath(query);
    var doc :- LoadDocument(path, files);
    var members :- DocumentItems(doc);
    Ok(ColumnsOf(members))
  }

  /** The run succeeds exactly when the request names a path, the path holds a
      valid document and that document is an object; the columns are then
      those of the object's members. */
  lemma SchemaSucceeds(query: JsonValue, files: map<string, Option<JsonValue>>)
    ensures Schema(query, files).Ok? <==>
      && RequestPath(query).Ok?
      && RequestPath(query).value in files
      && files[RequestPath(query).value].Some?
      && files[RequestPath(query).value].value.JObject?
    ensures Schema(query, files).Ok? ==>
      Schema(query, files).value == ColumnsOf(files[RequestPath(query).value].value.members)
  {
  }

  /** Each failure is reported for the stage that meets it, in pipeline order. */
  lemma SchemaFailures(query: JsonValue, files: map<string, Option<JsonValue>>)
    ensures RequestPath(query).Err? ==> Schema(query, files) == Err(MalformedRequest)
    ensures RequestPath(query).Ok? ==>
      var path := RequestPath(query).value;
      && (path !in files ==> Schema(query, files) == Err(FileNotFound))
      && (path in files && files[path].None? ==> Schema(query, files) == Err(InvalidDocument))
      && (path in files && files[path].Some? && !files[path].value.JObject? ==>
            Schema(query, files) == Err(UnsupportedShape))
  {
  }

  /** The script's main line, with the loop for the column list. */
  method GenerateSchema(query: JsonValue, files: map<string, Option<JsonValue>>) returns (r: Result<seq<Column>>)
    ensures r == Schema(query, files)
  {
    var path := RequestPath(query);
    if path.Err? {
      return Err(path.failure);
    }
    var doc := LoadDocument(path.value, files);
    if doc.Err? {
      return Err(doc.failure);
    }
    var members := DocumentItems(doc.value);
    if members.Err? {
      return Err(members.failure);
    }
    var columns := BuildColumns(members.value);
    r := Ok(columns);
  }

  /** A document with one value of each kind gets one column of each tag, in order. */
  lemma MixedDocumentColumns()
    ensures ColumnsOf([("age", JInt(30)), ("active", JBool(true)), ("ratio", JReal),
                       ("label", JString("x")), ("meta", JObject([("a", JInt(1))]))])
         == [Column("age", Int), Column("active", Boolean), Column("ratio", Real),
             Column("label", String), Column("meta", Dynamic)]
  {
  }

  /** A document whose top level is an array is refused, with no columns. */
  lemma ArrayDocumentRefused(elements: seq<JsonValue>)
    ensures Schema(JObject([("file", JString("data.json"))]), map["data.json" := Some(JArray(elements))])
         == Err(UnsupportedShape)
  {
  }

  /** A request naming a path that does not exist is refused, with no columns. */
  lemma MissingFileRefused(path: string)
    ensures Schema(JObject([("file", JString(path))]), map[]) == Err(FileNotFound)
  {
  }
}
