/** The client's two requests (app/services/api.ts). The request itself is
    left out: what the browser's `fetch` answers is a parameter — a network
    failure with its message, or a status with the outcome of
    `response.json()` (the value, or the parse error's message). */
module Api {
  import opened Wrappers
  import opened Strings
  import opened Decimal
  import opened Js
  import opened MediaRecorder

  /** What `fetch` and `response.json()` produce. */
  datatype Reply =
    | FetchFailed(message: string)
    | Answered(ok: bool, status: int, body: Result<JsValue, string>)

  /** What a failing request throws. Everything this module throws is an
      `Error` with a message; other thrown values are possible in general. */
  datatype Thrown = AnError(message: string) | NotAnError(value: JsValue)

  // ------------------------------------------------------------- the upload

  /** `audioBlob.type.includes('wav') ? 'wav' : 'webm'`. */
  function UploadExtension(blobType: string): string
  {
    if Contains(blobType, "wav") then "wav" else "webm"
  }

  /** The file is named `.wav` exactly when "wav" occurs somewhere in the blob
      type, and `.webm` otherwise — also for MP4 and Ogg recordings. */
  lemma UploadExtensionChoice(blobType: string)
    ensures UploadExtension(blobType) == "wav" <==> exists i: nat :: OccursAt(blobType, "wav", i)
    ensures UploadExtension(blobType) != "wav" ==> UploadExtension(blobType) == "webm"
  {
    ContainsIff(blobType, "wav");
  }

  /** One part of the multipart body. */
  datatype FilePart = FilePart(field: string, fileName: string, contentType: string)

  /** `formData.append('audio', blob, 'recording.' + ext)`. The part's type is
      the blob's type, or `application/octet-stream` for an untyped blob, as
      the HTML form-data encoding prescribes. */
  function UploadPart(blob: Blob): (p: FilePart)
    ensures p.field == "audio"
    ensures p.fileName == "recording.wav" || p.fileName == "recording.webm"
    ensures p.fileName == "recording.wav" <==> Contains(blob.mimeType, "wav")
    ensures blob.mimeType != "" ==> p.contentType == blob.mimeType
  {
    var ext := UploadExtension(blob.mimeType);
    FilePart("audio", "recording." + ext,
             if blob.mimeType == "" then "application/octet-stream" else blob.mimeType)
  }

  /** What V8 throws for `errorData.detail` when the body is JSON `null`. */
  const NullReadMessage: string := "Cannot read properties of null (reading 'detail')"

  /** `errorData.detail || errorData.error || "HTTP " + status`. */
  function MessageValue(errorData: JsValue, status: int): JsValue
  {
    var detail := Property(errorData, "detail");
    var error := Property(errorData, "error");
    if Truthy(detail) then detail
    else if Truthy(error) then error
    else Str("HTTP " + IntToString(status))
  }

  /** The error thrown for a non-ok reply whose body parsed as `errorData`:
      `new Error(value)` takes `String(value)` as its message, so a truthy
      `detail` wins even when it is not a string. */
  function ErrorFor(errorData: JsValue, status: int): (t: Thrown)
    ensures t.AnError?
    ensures !errorData.Null? && !errorData.Undefined? ==> t.message != ""
    ensures errorData.Obj? && Truthy(Property(errorData, "detail")) ==>
      t.message == ToText(Property(errorData, "detail"))
    ensures errorData.Obj? && !Truthy(Property(errorData, "detail")) && Truthy(Property(errorData, "error")) ==>
      t.message == ToText(Property(errorData, "error"))
    ensures !Truthy(Property(errorData, "detail")) && !Truthy(Property(errorData, "error"))
              && !errorData.Null? && !errorData.Undefined? ==>
      t.message == "HTTP " + IntToString(status)
  {
    if errorData.Null? || errorData.Undefined? then AnError(NullReadMessage)
    else
      var v := MessageValue(errorData, status);
      TruthyTextNonEmpty(v);
      AnError(ToText(v))
  }

  /** `analyzeAudio` after the request: an ok reply's parsed body is returned
      unchanged; every failure is rethrown. */
  function AnalyzeAudio(reply: Reply): (r: Result<JsValue, Thrown>)
    ensures r.Success? <==> reply.Answered? && reply.ok && reply.body.Success?
    ensures r.Success? ==> r.value == reply.body.value
    ensures r.Failure? ==> r.error.AnError?
    ensures reply.Answered? && !reply.ok && reply.body.Success? ==>
      r == Failure(ErrorFor(reply.body.value, reply.status))
  {
    match reply
    case FetchFailed(message) => Failure(AnError(message))
    case Answered(ok, status, body) =>
      match body
      case Failure(parseError) => Failure(AnError(parseError))
      case Success(data) =>
        if !ok then Failure(ErrorFor(data, status)) else Success(data)
  }

  /** The body FastAPI sends for `HTTPException(status, detail)`. */
  function HttpExceptionBody(detail: JsValue): JsValue
  {
    Obj(map["detail" := detail])
  }

  /** The error detail the analysis route raises: a code and a message. */
  function ErrorDetail(code: string, message: string): JsValue
  {
    Obj(map["code" := Str(code), "message" := Str(message)])
  }

  /** As written, the server's structured errors reach the user as
      "[object Object]": `detail` is a truthy object, and `new Error(object)`
      takes the object's default text. */
  lemma StructuredErrorUnreadable(status: int, code: string, message: string)
    ensures AnalyzeAudio(Answered(false, status, Success(HttpExceptionBody(ErrorDetail(code, message)))))
            == Failure(AnError("[object Object]"))
  {
    var body := HttpExceptionBody(ErrorDetail(code, message));
    assert Property(body, "detail") == ErrorDetail(code, message);
  }

  /** The evidently intended message choice: a `detail` object that carries a
      string `message` contributes that message; otherwise as written. */
  function ErrorForCorrected(errorData: JsValue, status: int): (t: Thrown)
    ensures t.AnError?
  {
    var detail := Property(errorData, "detail");
    var inner := Property(detail, "message");
    if !errorData.Null? && !errorData.Undefined? && detail.Obj? && inner.Str? then AnError(inner.s)
    else ErrorFor(errorData, status)
  }

  /** With the corrected choice the user reads the message the route put in
      its structured error. */
  lemma StructuredErrorReadable(status: int, code: string, message: string)
    ensures ErrorForCorrected(HttpExceptionBody(ErrorDetail(code, message)), status) == AnError(message)
  {
    var body := HttpExceptionBody(ErrorDetail(code, message));
    assert Property(body, "detail") == ErrorDetail(code, message);
    assert Property(ErrorDetail(code, message), "message") == Str(message);
  }

  /** The error the upload's caller sees for an error reply: the corrected
      choice on the parsed body, every other failure as written. */
  function AnalyzeAudioCorrected(reply: Reply): (r: Result<JsValue, Thrown>)
    ensures r.Success? <==> AnalyzeAudio(reply).Success?
    ensures r.Success? ==> r == AnalyzeAudio(reply)
    ensures r.Failure? ==> r.error.AnError?
  {
    if reply.Answered? && !reply.ok && reply.body.Success? then
      Failure(ErrorForCorrected(reply.body.value, reply.status))
    else AnalyzeAudio(reply)
  }

  // --------------------------------------------------------- the bird image

  /** `fetchBirdImage`: `imageUrl` only when the reply is ok, its body parses
      to a non-null value, and both `success` and `imageUrl` are truthy;
      null in every other case, including thrown errors. */
  function FetchBirdImage(reply: Reply): (r: Option<JsValue>)
    ensures r.Some? <==>
      && reply.Answered? && reply.ok && reply.body.Success?
      && !reply.body.value.Null? && !reply.body.value.Undefined?
      && Truthy(Property(reply.body.value, "success"))
      && Truthy(Property(reply.body.value, "imageUrl"))
    ensures r.Some? ==> r.value == Property(reply.body.value, "imageUrl") && Truthy(r.value)
  {
    match reply
    case FetchFailed(_) => None
    case Answered(ok, _, body) =>
      if !ok then None
      else
        match body
        case Failure(_) => None
        case Success(data) =>
          if data.Null? || data.Undefined? then None
          else if Truthy(Property(data, "success")) && Truthy(Property(data, "imageUrl"))
          then Some(Property(data, "imageUrl"))
          else None
  }
}
