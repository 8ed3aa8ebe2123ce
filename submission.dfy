/** The request side of /send-bulk: where the item list comes from, how
    uploaded files are attached to items, and which requests are rejected
    before any job is created. */
module Submission {
  import opened Utilities
  import opened Items

  /** An uploaded file: the name the client gave it and the name it was
      stored under in the upload directory. */
  datatype UploadedFile = UploadedFile(originalName: string, storedName: string)

  /** A value found where the item list is expected: an array of items, a
      string (iterable, but not an array), or anything else (a number, a
      boolean, null or a plain object: not iterable). */
  datatype ItemsValue = ItemList(items: seq<Item>) | JsonString | OtherValue

  /** The multipart `items` text field: missing or empty, not valid JSON, or
      the value it parses to. */
  datatype ItemsField = FieldMissing | Unparsable | ParsedField(value: ItemsValue)

  /** A /send-bulk request. A JSON body's `items` is None when it is missing
      or falsy; `jobName` is "" when missing or falsy. */
  datatype Request =
    | JsonRequest(items: Option<ItemsValue>, jobName: string)
    | MultipartRequest(field: ItemsField, files: seq<UploadedFile>, jobName: string)

  /** The response: 200 with the job's id and where to follow it, 400 with
      an error message, or 500. */
  datatype Response =
    | Accepted(jobId: JobId, pollUrl: string, wsEvent: string)
    | BadRequest(error: string)
    | ServerError

  const ItemsFieldMissing := "items field missing"
  const NoItemsToSend := "No items to send"

  /** path.join(UPLOAD_DIR, filename), without path normalisation. */
  function StoredPath(uploadDir: string, storedName: string): string
  {
    uploadDir + "/" + storedName
  }

  /** The fileMap object: original name to stored path, built file by file,
      so a later file with the same original name replaces an earlier one. */
  function FileMap(uploadDir: string, files: seq<UploadedFile>): map<string, string>
  {
    if files == [] then map[]
    else
      var f := files[|files| - 1];
      FileMap(uploadDir, files[..|files| - 1])[f.originalName := StoredPath(uploadDir, f.storedName)]
  }

  /** A name is in the file map exactly when some file has it, and it maps to
      the stored path of the last file with that name. */
  lemma {:induction false} FileMapLastWins(uploadDir: string, files: seq<UploadedFile>, name: string)
    ensures name in FileMap(uploadDir, files)
            <==> exists k :: 0 <= k < |files| && files[k].originalName == name
    ensures name in FileMap(uploadDir, files) ==>
              exists k :: 0 <= k < |files| && files[k].originalName == name
                && FileMap(uploadDir, files)[name] == StoredPath(uploadDir, files[k].storedName)
                && forall k' :: k < k' < |files| ==> files[k'].originalName != name
  {
    if files != [] {
      var prefix := files[..|files| - 1];
      var f := files[|files| - 1];
      FileMapLastWins(uploadDir, prefix, name);
      if f.originalName == name {
        assert files[|files| - 1].originalName == name;
      } else if name in FileMap(uploadDir, prefix) {
        var k :| 0 <= k < |prefix| && prefix[k].originalName == name
                 && FileMap(uploadDir, prefix)[name] == StoredPath(uploadDir, prefix[k].storedName)
                 && forall k' :: k < k' < |prefix| ==> prefix[k'].originalName != name;
        assert files[k] == prefix[k];
        assert forall k' :: k < k' < |files| ==> files[k'].originalName != name by {
          forall k' | k < k' < |files|
            ensures files[k'].originalName != name
          {
            if k' < |prefix| {
              assert files[k'] == prefix[k'];
            }
          }
        }
      } else {
        forall k | 0 <= k < |files|
          ensures files[k].originalName != name
        {
          if k < |prefix| {
            assert files[k] == prefix[k];
          }
        }
      }
    }
  }

  /** The first loop of the upload branch: builds the file map. */
  method BuildFileMap(uploadDir: string, files: seq<UploadedFile>) returns (fileMap: map<string, string>)
    ensures fileMap == FileMap(uploadDir, files)
  {
    fileMap := map[];
    var k := 0;
    while k < |files|
      invariant 0 <= k <= |files|
      invariant fileMap == FileMap(uploadDir, files[..k])
    {
      var f := files[k];
      assert files[..k + 1][..k] == files[..k];
      fileMap := fileMap[f.originalName := StoredPath(uploadDir, f.storedName)];
      k := k + 1;
    }
    assert files[..k] == files;
  }

  /** The second loop's body for one item: a fileName found in the file map
      sets mediaPath, and then a fileIndex naming an uploaded file sets it
      again, so the index wins. */
  function Attach(uploadDir: string, files: seq<UploadedFile>, fileMap: map<string, string>, it: Item): Item
  {
    var byName := if it.fileName != "" && it.fileName in fileMap then it.(mediaPath := fileMap[it.fileName]) else it;
    match it.fileIndex
    case Some(k) =>
      if 0 <= k < |files| then byName.(mediaPath := StoredPath(uploadDir, files[k].storedName)) else byName
    case None => byName
  }

  /** Attaching changes nothing but mediaPath. A fileIndex naming an uploaded
      file decides mediaPath, whatever the fileName; otherwise a fileName
      that names an uploaded file decides it (FileMapLastWins: the last
      upload of that name); otherwise the item is kept. */
  lemma AttachCases(uploadDir: string, files: seq<UploadedFile>, it: Item)
    ensures var a := Attach(uploadDir, files, FileMap(uploadDir, files), it);
      && a == it.(mediaPath := a.mediaPath)
      && (it.fileIndex.Some? && 0 <= it.fileIndex.value < |files| ==>
            a.mediaPath == StoredPath(uploadDir, files[it.fileIndex.value].storedName))
      && (!(it.fileIndex.Some? && 0 <= it.fileIndex.value < |files|) ==>
            if it.fileName != "" && it.fileName in FileMap(uploadDir, files)
            then a.mediaPath == FileMap(uploadDir, files)[it.fileName]
            else a == it)
  {
    FileMapLastWins(uploadDir, files, it.fileName);
  }

  /** Every item, attached. */
  function AttachAll(uploadDir: string, files: seq<UploadedFile>, items: seq<Item>): (r: seq<Item>)
    ensures |r| == |items|
  {
    var fileMap := FileMap(uploadDir, files);
    seq(|items|, k requires 0 <= k < |items| => Attach(uploadDir, files, fileMap, items[k]))
  }

  /** Both loops of the upload branch: the items are updated in place. */
  method AttachFiles(uploadDir: string, files: seq<UploadedFile>, a: array<Item>)
    modifies a
    ensures a[..] == AttachAll(uploadDir, files, old(a[..]))
  {
    var fileMap := BuildFileMap(uploadDir, files);
    var k := 0;
    while k < a.Length
      invariant 0 <= k <= a.Length
      invariant forall m :: 0 <= m < k ==> a[m] == Attach(uploadDir, files, fileMap, old(a[m]))
      invariant forall m :: k <= m < a.Length ==> a[m] == old(a[m])
    {
      a[k] := Attach(uploadDir, files, fileMap, a[k]);
      k := k + 1;
    }
  }

  /** Where the validation ends: the items of the new job, or the response
      that rejects the request. */
  datatype Checked = ItemsOk(items: seq<Item>) | Rejected(response: Response)

  /** The validation part of /send-bulk, before a job id is drawn. */
  function CheckRequest(uploadDir: string, req: Request): Checked
  {
    match req
    case JsonRequest(v, _) =>
      if v.Some? && v.value.ItemList? && v.value.items != [] then ItemsOk(v.value.items)
      else Rejected(BadRequest(NoItemsToSend))
    case MultipartRequest(field, files, _) =>
      match field
      case FieldMissing => Rejected(BadRequest(ItemsFieldMissing))
      case Unparsable => Rejected(ServerError)
      case ParsedField(v) =>
        if files != [] && v.OtherValue? then Rejected(ServerError)
        else if v.ItemList? && v.items != [] then
          ItemsOk(if files != [] then AttachAll(uploadDir, files, v.items) else v.items)
        else Rejected(BadRequest(NoItemsToSend))
  }

  /** The request part of the /send-bulk handler: the item list is read
      from the JSON body or from the multipart field, the two upload loops
      run on the submitted items in place, and a request without items is
      rejected. */
  method ValidateRequest(uploadDir: string, req: Request) returns (c: Checked)
    ensures c == CheckRequest(uploadDir, req)
  {
    var value: Option<ItemsValue>;
    match req {
      case JsonRequest(v, _) =>
        value := v;
      case MultipartRequest(field, files, _) =>
        if field.FieldMissing? {
          return Rejected(BadRequest(ItemsFieldMissing));
        }
        if field.Unparsable? {
          return Rejected(ServerError);
        }
        value := Some(field.value);
        if |files| > 0 {
          if field.value.OtherValue? {
            return Rejected(ServerError);
          }
          if field.value.ItemList? {
            var submitted := field.value.items;
            var a := new Item[|submitted|](k requires 0 <= k < |submitted| => submitted[k]);
            assert a[..] == submitted;
            AttachFiles(uploadDir, files, a);
            value := Some(ItemList(a[..]));
          }
        }
    }
    if !(value.Some? && value.value.ItemList?) || value.value.items == [] {
      return Rejected(BadRequest(NoItemsToSend));
    }
    c := ItemsOk(value.value.items);
  }

  /** A request is accepted exactly when it carries a non-empty item list;
      the accepted items are the submitted ones, one for one, with nothing
      but mediaPath set from the uploads. A missing multipart field is a
      400 of its own; an unparsable field, or a parsed value the upload
      loop cannot iterate, is a 500; every other rejection is "No items to
      send". */
  lemma CheckRequestOutcome(uploadDir: string, req: Request)
    ensures var c := CheckRequest(uploadDir, req);
      var v := if req.JsonRequest? then req.items
               else if req.field.ParsedField? then Some(req.field.value) else None;
      && (c.ItemsOk? <==> v.Some? && v.value.ItemList? && v.value.items != [])
      && (c.ItemsOk? ==>
            && |c.items| == |v.value.items|
            && forall k :: 0 <= k < |c.items| ==>
                 c.items[k] == v.value.items[k].(mediaPath := c.items[k].mediaPath))
      && (c.Rejected? && req.MultipartRequest? && req.field.FieldMissing? ==>
            c.response == BadRequest(ItemsFieldMissing))
      && (c.Rejected? && c.response.ServerError? <==>
            req.MultipartRequest? &&
            (req.field.Unparsable? || (req.field.ParsedField? && req.files != [] && req.field.value.OtherValue?)))
      && (c.Rejected? && !c.response.ServerError? && !(req.MultipartRequest? && req.field.FieldMissing?) ==>
            c.response == BadRequest(NoItemsToSend))
      && (c.Rejected? ==> !c.response.Accepted?)
  {
    if req.MultipartRequest? && req.field.ParsedField? && req.files != [] && req.field.value.ItemList? {
      var items := req.field.value.items;
      forall k | 0 <= k < |items|
        ensures AttachAll(uploadDir, req.files, items)[k]
                == items[k].(mediaPath := AttachAll(uploadDir, req.files, items)[k].mediaPath)
      {
        AttachCases(uploadDir, req.files, items[k]);
      }
    }
  }

  /** Without uploaded files the items are stored exactly as submitted. */
  lemma NoFilesNoChange(uploadDir: string, items: seq<Item>)
    ensures AttachAll(uploadDir, [], items) == items
  {
    forall k | 0 <= k < |items|
      ensures AttachAll(uploadDir, [], items)[k] == items[k]
    {
      AttachCases(uploadDir, [], items[k]);
    }
  }

  /** The 200 response for a job id. */
  function AcceptedFor(id: JobId): (r: Response)
    ensures r.Accepted? && r.jobId == id
  {
    Accepted(id, "/job/" + id, "job:" + id)
  }
}
