/**
 * The request handling of api/products.php: method dispatch, the image
 * check of POST, the dynamic `UPDATE` of PUT and the id lookup of DELETE.
 * What the handler hands to the database is returned as a statement with
 * its parameters; running it, and the GET queries, belong to the database.
 */
module Products {
  import opened Wrappers
  import opened Sequences
  import opened PhpValues

  /** The columns PUT may update, in the order the handler tries them. */
  const Columns: seq<string> :=
    ["name", "sku", "category", "price", "stock", "min_stock", "reserved", "available", "location", "image", "status"]

  /** The image extensions POST accepts. */
  const ImageExtensions: seq<string> := ["jpg", "jpeg", "png"]

  /** The methods the handler answers. */
  const KnownMethods: seq<string> := ["OPTIONS", "GET", "POST", "PUT", "DELETE"]

  /** `$_FILES['image']`: the client's file name, and whether `move_uploaded_file` succeeds. */
  datatype Upload = Upload(name: string, moved: bool)

  /**
   * One request: the method, the query string, the decoded JSON body (an
   * empty map when the body is not a JSON object), the uploaded image if
   * any, and the value `uniqid("img_")` returns.
   */
  datatype Request = Request(
    verb: string, query: map<string, string>, body: map<string, Json>,
    image: Option<Upload>, uniqueId: string)

  /** What the handler does with a request. */
  datatype Reply =
    | Silent                                            // OPTIONS: exit without a body
    | ReadProducts                                      // GET: a read left to the database
    | ErrorReply(code: int, error: string)              // status `code`, {"error": error}
    | Refused(message: string)                          // {"error": true, "message": message}
    | NothingToUpdate                                   // {"success": false, "message": "Nothing to update"}
    | Insert(image: Option<string>)                     // the INSERT of POST, with its `:image`
    | Statement(sql: string, params: map<string, Json>) // a statement handed to the database

  const MissingId: Reply := ErrorReply(400, "Missing id")
  const MethodNotAllowed: Reply := ErrorReply(405, "Method not allowed")
  const BadImageFormat: string := "Format file tidak valid"
  const UploadFailed: string := "Gagal upload gambar"

  // ---------------------------------------------------------------- POST

  /**
   * The image step of POST. No file (or an empty name) gives no image; a
   * file whose lower-cased extension is not allowed, or that cannot be
   * moved, stops the request; otherwise the stored name is the unique id
   * followed by `.` and the extension.
   */
  method StoreImage(image: Option<Upload>, uniqueId: string) returns (r: Result<Option<string>, string>)
    ensures image.None? || IsEmpty(JString(image.value.name)) ==> r == Ok(None)
    ensures r == Err(BadImageFormat) <==>
      image.Some? && !IsEmpty(JString(image.value.name))
      && Lower(Extension(image.value.name)) !in ImageExtensions
    ensures r == Err(UploadFailed) <==>
      image.Some? && !IsEmpty(JString(image.value.name))
      && Lower(Extension(image.value.name)) in ImageExtensions && !image.value.moved
    ensures r.Ok? && r.value.Some? ==>
      var ext := Lower(Extension(image.value.name));
      && image.value.moved
      && ext in ImageExtensions
      && r.value.value == uniqueId + "." + ext
    ensures (image.Some? && !IsEmpty(JString(image.value.name))
             && Lower(Extension(image.value.name)) in ImageExtensions && image.value.moved) ==>
      r == Ok(Some(uniqueId + "." + Lower(Extension(image.value.name))))
    ensures r.Err? ==> r.error == BadImageFormat || r.error == UploadFailed
  {
    if image.None? || IsEmpty(JString(image.value.name)) {
      return Ok(None);
    }
    var ext := Lower(Extension(image.value.name));
    if ext !in ImageExtensions {
      return Err(BadImageFormat);
    }
    var filename := uniqueId + "." + ext;
    if !image.value.moved {
      return Err(UploadFailed);
    }
    return Ok(Some(filename));
  }

  /** The stored name's own extension is the accepted one, whatever the unique id holds. */
  lemma StoredNameExtension(uniqueId: string, ext: string)
    requires ext in ImageExtensions
    ensures Extension(uniqueId + "." + ext) == ext
  {
    assert ext == "jpg" || ext == "jpeg" || ext == "png";
    ExtensionOfSuffixed(uniqueId, ext);
  }

  /**
   * The reply of the POST branch: the insert with no image when no file was
   * named, a refusal for a disallowed extension or a failed move, and
   * otherwise the insert with the stored name `uniqueId . "." . ext`.
   */
  predicate PostReply(request: Request, reply: Reply)
  {
    var image := request.image;
    if image.None? || IsEmpty(JString(image.value.name)) then reply == Insert(None)
    else
      var ext := Lower(Extension(image.value.name));
      if ext !in ImageExtensions then reply == Refused(BadImageFormat)
      else if !image.value.moved then reply == Refused(UploadFailed)
      else reply == Insert(Some(request.uniqueId + "." + ext))
  }

  // ----------------------------------------------------------------- PUT

  /** `$col = :$col`, one entry of the SET list. */
  function Assignment(col: string): string
  {
    col + " = :" + col
  }

  /** `:$col`, the parameter name of a column. */
  function Placeholder(col: string): string
  {
    ":" + col
  }

  /** The columns of `cols` that are set in the input, in order (the filter of the loop). */
  function PresentColumns(cols: seq<string>, input: map<string, Json>): seq<string>
  {
    if cols == [] then []
    else
      var rest := PresentColumns(cols[..|cols| - 1], input);
      if IsSet(input, cols[|cols| - 1]) then rest + [cols[|cols| - 1]] else rest
  }

  /** The SET entries for a list of columns. */
  function Assignments(cols: seq<string>): (r: seq<string>)
    ensures |r| == |cols|
  {
    if cols == [] then [] else Assignments(cols[..|cols| - 1]) + [Assignment(cols[|cols| - 1])]
  }

  /** The `UPDATE` statement for a SET list. */
  function UpdateSql(setList: seq<string>): string
  {
    "UPDATE products SET " + Join(",", setList) + " WHERE id = :id"
  }

  /**
   * The statement PUT hands to the database: the `UPDATE` over the SET
   * entries of the allowed columns the input sets, with one parameter per
   * entry holding the input's value, and `:id` holding the cast id.
   */
  ghost predicate UpdateStatement(input: map<string, Json>, sql: string, params: map<string, Json>)
  {
    var present := PresentColumns(Columns, input);
    && "id" in input
    && sql == UpdateSql(Assignments(present))
    && params.Keys == (set c | c in present :: Placeholder(c)) + {":id"}
    && (forall c :: c in present ==>
          c in input && Placeholder(c) in params && params[Placeholder(c)] == input[c])
    && params[":id"] == JInt(ToInt(input["id"]))
  }

  /** The reply of the PUT branch. */
  ghost predicate UpdateReply(input: map<string, Json>, reply: Reply)
  {
    if EmptyAt(input, "id") then reply == MissingId
    else if PresentColumns(Columns, input) == [] then reply == NothingToUpdate
    else reply.Statement? && UpdateStatement(input, reply.sql, reply.params)
  }

  /**
   * The PUT branch: a missing or empty id is refused; otherwise every
   * allowed column the input sets becomes a SET entry and a parameter, and
   * with none of them there is nothing to update.
   */
  method BuildUpdate(input: map<string, Json>) returns (reply: Reply)
    ensures reply == MissingId <==> EmptyAt(input, "id")
    ensures reply == NothingToUpdate <==> !EmptyAt(input, "id") && PresentColumns(Columns, input) == []
    ensures reply.Statement? || reply == MissingId || reply == NothingToUpdate
    ensures reply.Statement? ==> UpdateStatement(input, reply.sql, reply.params)
  {
    if EmptyAt(input, "id") {
      return MissingId;
    }
    var id := ToInt(input["id"]);
    var setList: seq<string> := [];
    var params: map<string, Json> := map[];
    for i := 0 to |Columns|
      invariant setList == Assignments(PresentColumns(Columns[..i], input))
      invariant params.Keys == set c | c in PresentColumns(Columns[..i], input) :: Placeholder(c)
      invariant forall c :: c in PresentColumns(Columns[..i], input) ==>
        c in input && Placeholder(c) in params && params[Placeholder(c)] == input[c]
    {
      var col := Columns[i];
      assert Columns[..i + 1][..i] == Columns[..i];
      PlaceholderInjective(col);
      if IsSet(input, col) {
        setList := setList + [Assignment(col)];
        params := params[Placeholder(col) := input[col]];
      }
    }
    assert Columns[..|Columns|] == Columns;
    if setList == [] {
      return NothingToUpdate;
    }
    PlaceholderNotId(PresentColumns(Columns, input), input);
    params := params[":id" := JInt(id)];
    return Statement(UpdateSql(setList), params);
  }

  /** No allowed column's parameter is `:id`. */
  lemma PlaceholderNotId(present: seq<string>, input: map<string, Json>)
    requires present == PresentColumns(Columns, input)
    ensures forall c :: c in present ==> Placeholder(c) != ":id"
  {
    PresentColumnsMembers(Columns, input);
  }

  lemma PlaceholderInjective(col: string)
    ensures forall c :: Placeholder(c) == Placeholder(col) ==> c == col
  {
    forall c | Placeholder(c) == Placeholder(col) ensures c == col {
      assert c == Placeholder(c)[1..];
    }
  }

  /** A column is kept exactly when it is allowed and set in the input. */
  lemma {:induction false} PresentColumnsMembers(cols: seq<string>, input: map<string, Json>)
    ensures forall c :: c in PresentColumns(cols, input) <==> c in cols && IsSet(input, c)
  {
    if cols != [] {
      var init := cols[..|cols| - 1];
      PresentColumnsMembers(init, input);
      assert cols == init + [cols[|cols| - 1]];
    }
  }

  /** The kept columns appear in the order of the allowed list. */
  lemma {:induction false} PresentColumnsInOrder(cols: seq<string>, input: map<string, Json>)
    requires Distinct(cols)
    ensures forall i, j :: 0 <= i < j < |PresentColumns(cols, input)| ==>
      IndexOf(cols, PresentColumns(cols, input)[i]) < IndexOf(cols, PresentColumns(cols, input)[j])
  {
    if cols != [] {
      var init := cols[..|cols| - 1];
      var last := cols[|cols| - 1];
      assert cols == init + [last];
      PresentColumnsInOrder(init, input);
      PresentColumnsMembers(init, input);
      var rest := PresentColumns(init, input);
      forall x | x in init ensures IndexOf(cols, x) == IndexOf(init, x) < |init| {
        IndexOfPrefix(init, last, x);
      }
      assert last !in init;
      assert IndexOf(cols, last) == |init|;
      var r := PresentColumns(cols, input);
      assert r == if IsSet(input, last) then rest + [last] else rest;
      forall i, j | 0 <= i < j < |r| ensures IndexOf(cols, r[i]) < IndexOf(cols, r[j]) {
        assert r[i] == rest[i] && rest[i] in init;
        if j < |rest| {
          assert r[j] == rest[j] && rest[j] in init;
          assert IndexOf(init, rest[i]) < IndexOf(init, rest[j]);
        } else {
          assert r[j] == last;
        }
      }
    }
  }

  lemma {:induction false} IndexOfPrefix<T>(s: seq<T>, y: T, x: T)
    requires x in s
    ensures IndexOf(s + [y], x) == IndexOf(s, x) < |s|
  {
    if s[0] != x {
      assert (s + [y])[1..] == s[1..] + [y];
      IndexOfPrefix(s[1..], y, x);
    }
  }

  /** Each entry of a SET list holds one column: splitting the joined list at commas gives it back. */
  lemma SetListSplits(present: seq<string>, input: map<string, Json>)
    requires present == PresentColumns(Columns, input) && present != []
    ensures Split(Join(",", Assignments(present)), ',') == Assignments(present)
  {
    PresentColumnsMembers(Columns, input);
    ColumnsHaveNoComma();
    var setList := Assignments(present);
    forall k | 0 <= k < |setList| ensures ',' !in setList[k] {
      AssignmentsAt(present, k);
      assert present[k] in Columns;
    }
    SplitJoin(setList, ',');
  }

  lemma ColumnsHaveNoComma()
    ensures forall c :: c in Columns ==> ',' !in Assignment(c)
  {
    forall c | c in Columns ensures ',' !in Assignment(c) {
      assert ',' !in c;
      assert Assignment(c) == c + " = :" + c;
    }
  }

  lemma {:induction false} AssignmentsAt(cols: seq<string>, k: nat)
    requires k < |cols|
    ensures Assignments(cols)[k] == Assignment(cols[k])
  {
    if k < |cols| - 1 {
      AssignmentsAt(cols[..|cols| - 1], k);
    }
  }

  // -------------------------------------------------------------- DELETE

  /** `$_GET['id']` as a value: a string, or null when the query has none. */
  function QueryId(query: map<string, string>): Json
  {
    if "id" in query then JString(query["id"]) else JNull
  }

  /**
   * The id DELETE ends up with: the query's id cast to an integer unless
   * that is 0, and then the body's.
   */
  function DeleteId(query: map<string, string>, body: map<string, Json>): int
  {
    if ToInt(QueryId(query)) != 0 then ToInt(QueryId(query)) else ToInt(At(body, "id"))
  }

  /** The statement DELETE hands to the database for a resolved id. */
  function DeleteStatement(id: int): Reply
  {
    Statement("DELETE FROM products WHERE id = :id", map[":id" := JInt(id)])
  }

  /**
   * The DELETE branch, step by step as the source reassigns `$id`: take the
   * query's id when it is not empty, fall back to the body's while `$id` is
   * still empty, and refuse an id that is empty at the end.
   */
  method ResolveDelete(query: map<string, string>, body: map<string, Json>) returns (reply: Reply)
    ensures reply == MissingId <==> DeleteId(query, body) == 0
    ensures reply != MissingId ==> reply == DeleteStatement(DeleteId(query, body))
  {
    var id: Option<int> := None;
    if !IsEmpty(QueryId(query)) {
      id := Some(ToInt(QueryId(query)));
    }
    EmptyCastsToZero(QueryId(query));
    EmptyCastsToZero(At(body, "id"));
    if (id.None? || id.value == 0) && !EmptyAt(body, "id") {
      id := Some(ToInt(body["id"]));
    }
    if id.None? || id.value == 0 {
      return MissingId;
    }
    return DeleteStatement(id.value);
  }

  /** An id in the query string wins over the body's. */
  lemma QueryIdFirst(query: map<string, string>, body: map<string, Json>, n: nat)
    requires n != 0 && query == map["id" := DecimalString(n)]
    ensures DeleteId(query, body) == n
  {
    StringToIntOfDecimal(n);
  }

  // ------------------------------------------------------------ dispatch

  /**
   * The whole handler: OPTIONS ends at once, GET is a read, POST stores the
   * image and inserts, PUT and DELETE build their statements, and any other
   * method is refused with 405.
   */
  method Handle(request: Request) returns (reply: Reply)
    ensures reply == MethodNotAllowed <==> request.verb !in KnownMethods
    ensures reply == Silent <==> request.verb == "OPTIONS"
    ensures reply == ReadProducts <==> request.verb == "GET"
    ensures reply.Insert? || reply.Refused? ==> request.verb == "POST"
    ensures reply == MissingId ==> request.verb == "PUT" || request.verb == "DELETE"
    ensures request.verb == "PUT" ==>
      (reply == MissingId <==> EmptyAt(request.body, "id"))
    ensures request.verb == "DELETE" ==>
      (reply == MissingId <==> DeleteId(request.query, request.body) == 0)
    ensures reply.Insert? && reply.image.Some? ==>
      Lower(Extension(reply.image.value)) in ImageExtensions
    ensures request.verb == "POST" ==> PostReply(request, reply)
    ensures request.verb == "PUT" ==> UpdateReply(request.body, reply)
    ensures request.verb == "DELETE" && DeleteId(request.query, request.body) != 0 ==>
      reply == DeleteStatement(DeleteId(request.query, request.body))
  {
    var verb := request.verb;
    if verb == "OPTIONS" {
      return Silent;
    }
    if verb == "GET" {
      return ReadProducts;
    }
    if verb == "POST" {
      var stored := StoreImage(request.image, request.uniqueId);
      if stored.Err? {
        return Refused(stored.error);
      }
      if stored.value.Some? {
        var ext := Lower(Extension(request.image.value.name));
        StoredNameExtension(request.uniqueId, ext);
        LowerIdempotent(Extension(request.image.value.name));
      }
      return Insert(stored.value);
    }
    if verb == "PUT" {
      reply := BuildUpdate(request.body);
      return;
    }
    if verb == "DELETE" {
      reply := ResolveDelete(request.query, request.body);
      return;
    }
    return MethodNotAllowed;
  }
}
