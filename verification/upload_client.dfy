/** The generic upload client (engine/utils/storage/upload_client.py): construction
    checks, the multipart upload and reading the file URL out of the response. The
    network is the parameter `send`, which either answers the request or raises. */
module UploadClient {
  import opened Wrappers
  import opened JsonValue
  import opened Exceptions
  import opened Http
  import Text

  const DefaultFileField := "file"
  const DefaultContentType := "application/octet-stream"
  const MissingUploadUrl := "缺少上传接口 URL（FILE_UPLOAD_URL）"
  const NotJsonResponse := "上传响应不是 JSON"
  const UrlNotFound := "上传响应中未找到 url 字段"

  datatype Client = Client(uploadUrl: string, fileField: string, extraHeaders: map<string, string>)

  /** `UploadClient(upload_url, file_field, extra_headers)`; `None` stands for an
      argument left at its default. */
  function NewClient(uploadUrl: string, fileField: Option<string>,
                     extraHeaders: Option<map<string, string>>): (r: Result<Client, Exc>)
    ensures r.Err? <==> uploadUrl == ""
    ensures r.Err? ==> r.error == Exc(ValueError, MissingUploadUrl)
    ensures r.Ok? ==> r.value.uploadUrl == uploadUrl
    ensures r.Ok? && fileField.None? ==> r.value.fileField == DefaultFileField
    ensures r.Ok? && fileField.Some? ==> r.value.fileField == fileField.value
    ensures r.Ok? && extraHeaders.None? ==> r.value.extraHeaders == map[]
    ensures r.Ok? && extraHeaders.Some? ==> r.value.extraHeaders == extraHeaders.value
  {
    if uploadUrl == "" then Err(Exc(ValueError, MissingUploadUrl))
    else Ok(Client(uploadUrl, fileField.GetOr(DefaultFileField), extraHeaders.GetOr(map[])))
  }

  datatype FilePart = FilePart(filename: string, data: seq<bv8>, contentType: string)

  /** The multipart POST: one file under the client's field name. */
  datatype UploadRequest = UploadRequest(url: string, files: map<string, FilePart>, headers: map<string, string>)

  datatype UploadResult = UploadResult(url: string)

  /** The payload carries a string `url` at the top level. */
  predicate HasTopUrl(payload: Json) {
    payload.JObj? && "url" in payload.fields && payload.fields["url"].JStr?
  }

  /** The payload carries a string `url` inside a `data` dictionary. */
  predicate HasDataUrl(payload: Json) {
    payload.JObj? && "data" in payload.fields && payload.fields["data"].JObj? &&
    "url" in payload.fields["data"].fields && payload.fields["data"].fields["url"].JStr?
  }

  /** `_extract_url`. The JSON body need not be a dictionary; the `in` test and the
      `.get` call then raise what Python raises on that type. */
  function ExtractUrl(payload: Json): (r: Result<string, Exc>)
    ensures r.Ok? <==> HasTopUrl(payload) || HasDataUrl(payload)
    ensures HasTopUrl(payload) ==> r == Ok(payload.fields["url"].s)
    ensures !HasTopUrl(payload) && HasDataUrl(payload) ==> r == Ok(payload.fields["data"].fields["url"].s)
    ensures payload.JObj? && r.Err? ==> r.error == Exc(ValueError, UrlNotFound)
    ensures !payload.JObj? ==> r.Err? && (r.error.kind == TypeError || r.error.kind == AttributeError)
  {
    match payload
    case JObj(d) =>
      if "url" in d && d["url"].JStr? then Ok(d["url"].s)
      else
        var data := Lookup(d, "data");
        if data.JObj? && Lookup(data.fields, "url").JStr? then Ok(data.fields["url"].s)
        else Err(Exc(ValueError, UrlNotFound))
    case JArr(items) =>
      if JStr("url") in items then Err(Exc(TypeError, "list indices must be integers or slices, not str"))
      else Err(NoGet(payload))
    case JStr(s) =>
      if Text.HasSubstring(s, "url") then Err(Exc(TypeError, "string indices must be integers, not 'str'"))
      else Err(NoGet(payload))
    case _ => Err(Exc(TypeError, "argument of type '" + TypeName(payload) + "' is not iterable"))
  }

  /** The request `upload_bytes` sends. */
  function UploadRequestFor(client: Client, filename: string, data: seq<bv8>, contentType: string): UploadRequest {
    UploadRequest(client.uploadUrl, map[client.fileField := FilePart(filename, data, contentType)], client.extraHeaders)
  }

  /** `upload_bytes`: transport and status errors are re-raised, a body that is not
      JSON raises `ValueError`, and otherwise the URL is read out of the body. */
  function UploadBytes(client: Client, filename: string, data: seq<bv8>, contentType: string,
                       send: UploadRequest -> Result<HttpResponse, Exc>): (r: Result<UploadResult, Exc>)
    ensures var req := UploadRequestFor(client, filename, data, contentType);
      (send(req).Err? ==> r == Err(send(req).error)) &&
      (send(req).Ok? && !IsSuccess(send(req).value.status) ==> r.Err? && r.error.kind == HttpStatusError) &&
      (send(req).Ok? && IsSuccess(send(req).value.status) && send(req).value.body.None? ==>
         r == Err(Exc(ValueError, NotJsonResponse))) &&
      (send(req).Ok? && IsSuccess(send(req).value.status) && send(req).value.body.Some? ==>
         (r.Ok? <==> ExtractUrl(send(req).value.body.value).Ok?) &&
         (r.Ok? ==> Ok(r.value.url) == ExtractUrl(send(req).value.body.value)))
  {
    var resp :- send(UploadRequestFor(client, filename, data, contentType));
    var ok :- RaiseForStatus(resp);
    match ok.body
    case None => Err(Exc(ValueError, NotJsonResponse))
    case Some(payload) =>
      var url :- ExtractUrl(payload);
      Ok(UploadResult(url))
  }

  /** The request carries the file under exactly one field, with the client's headers. */
  lemma UploadRequestShape(client: Client, filename: string, data: seq<bv8>, contentType: string)
    ensures var req := UploadRequestFor(client, filename, data, contentType);
      req.files.Keys == {client.fileField} && req.files[client.fileField].data == data &&
      req.headers == client.extraHeaders && req.url == client.uploadUrl
  {
  }

  /** Both response shapes the upload service may use give back the URL they carry,
      and a top-level `url` wins over `data.url`. */
  lemma ExtractUrlShapes(u: string, v: string, rest: Dict)
    ensures ExtractUrl(JObj(rest["url" := JStr(u)])) == Ok(u)
    ensures "url" !in rest ==> ExtractUrl(JObj(rest["data" := JObj(map["url" := JStr(v)])])) == Ok(v)
  {
    var d := rest["data" := JObj(map["url" := JStr(v)])];
    if "url" !in rest {
      assert "url" !in d;
      assert HasDataUrl(JObj(d));
    }
  }
}
