/**
  The upload handler (`POST /upload`): a multipart file takes precedence over a
  JSON `base64` field; the content type is the file's MIME type or
  `image/jpeg`; a base64 payload has its data-URI prefix stripped before it is
  decoded; the object goes to `shopping-images` under `images/<id>.jpg` and the
  response gives its locator. The generated id and the base64 decoder are
  parameters.
 */
module Upload {
  import opened Types
  import opened Names
  import opened DataUri
  import opened Backend

  /** The `image` field of a multipart request, as the upload middleware keeps it in memory. */
  datatype UploadedFile = UploadedFile(buffer: Bytes, mimetype: JsValue)

  /** The JSON body of a request, reduced to its `base64` field. */
  datatype UploadBody = UploadBody(base64: JsValue)

  datatype UploadRequest = UploadRequest(file: Option<UploadedFile>, body: Option<UploadBody>)

  /** `req.body?.base64`: absent when there is no body. */
  function Base64Field(req: UploadRequest): JsValue
  {
    if req.body.Some? then req.body.value.base64 else Undefined
  }

  /** The object to store: its bytes and its content type. */
  datatype Payload = Payload(body: Bytes, contentType: string)

  /** The payload the request carries, if any: the file's when there is a file, else the
      decoded `base64` field without its data-URI prefix, else none. */
  function PayloadOf(req: UploadRequest, decode: string -> Bytes): Option<Payload>
  {
    if req.file.Some? then
      var f := req.file.value;
      Some(Payload(f.buffer, if Truthy(f.mimetype) then f.mimetype.s else DefaultContentType))
    else if Truthy(Base64Field(req)) then
      Some(Payload(decode(StripDataUri(Base64Field(req).s)), DefaultContentType))
    else None
  }

  const NoImage := Failure(400, "No image provided")
  const UploadFailed := Failure(500, "Upload failed")

  /** `POST /upload` on the backend state `s`. */
  function HandleUpload(s: State, req: UploadRequest, id: string, decode: string -> Bytes): Handled
  {
    var key := ImageKey(id);
    match PayloadOf(req, decode)
    case None => Handled(s, NoImage)
    case Some(p) =>
      var logged := s.(trace := s.trace + [Call(Op.PutObject, BucketName)]);
      match s.s3.PutObject(BucketName, key, p.body, p.contentType, s.env)
      case None => Handled(logged, UploadFailed)
      case Some(stored) => Handled(logged.(s3 := stored), Uploaded(BucketName, key, ImageUrl(s.env.endpoint, key)))
  }

  // ----- the payload -----

  /** A file takes precedence over `base64`, whatever that holds; its content type is its
      MIME type when that is truthy and `image/jpeg` otherwise. */
  lemma FileTakesPrecedence(req: UploadRequest, decode: string -> Bytes)
    requires req.file.Some?
    ensures var p := PayloadOf(req, decode);
      && p.Some? && p.value.body == req.file.value.buffer
      && p.value.contentType == (if Truthy(req.file.value.mimetype) then req.file.value.mimetype.s else DefaultContentType)
      && p == PayloadOf(req.(body := None), decode)
  {
  }

  /** Without a file, a truthy `base64` is decoded after the greedy data-URI strip and is
      always stored as `image/jpeg`. */
  lemma Base64Payload(req: UploadRequest, decode: string -> Bytes)
    requires req.file.None? && Truthy(Base64Field(req))
    ensures var p := PayloadOf(req, decode); var b64 := Base64Field(req).s;
      && p == Some(Payload(decode(StripDataUri(b64)), DefaultContentType))
      && (forall n: nat :: PrefixMatch(b64, n) ==> n <= |b64| - |StripDataUri(b64)|)
  {
  }

  /** The PNG data URI: what is decoded and stored is the payload after the prefix, and
      the content type is still `image/jpeg`. */
  lemma PngDataUriPayload(decode: string -> Bytes)
    ensures PayloadOf(UploadRequest(None, Some(UploadBody(Str("data:image/png;base64,AAAA")))), decode)
      == Some(Payload(decode("AAAA"), DefaultContentType))
  {
    StripPngExample();
  }

  /** There is a payload exactly when there is a file or a truthy `base64` field. */
  lemma PayloadPresence(req: UploadRequest, decode: string -> Bytes)
    ensures PayloadOf(req, decode).Some? <==> req.file.Some? || Truthy(Base64Field(req))
  {
  }

  // ----- the handler -----

  /** Without a payload the response is 400 and no call is made; with one, exactly one
      `putObject` into `shopping-images` is attempted and its outcome decides the answer:
      the key and locator on success, 500 otherwise. Only the object store changes. */
  lemma UploadOutcome(s: State, req: UploadRequest, id: string, decode: string -> Bytes)
    ensures var h := HandleUpload(s, req, id, decode);
      var key := ImageKey(id);
      && (PayloadOf(req, decode).None? <==> h.response == NoImage)
      && (PayloadOf(req, decode).None? ==> h.after == s)
      && (PayloadOf(req, decode).Some? ==>
            var p := PayloadOf(req, decode).value;
            var put := s.s3.PutObject(BucketName, key, p.body, p.contentType, s.env);
            && h.after.trace == s.trace + [Call(Op.PutObject, BucketName)]
            && (h.response == Uploaded(BucketName, key, ImageUrl(s.env.endpoint, key)) <==> put.Some?)
            && (put.None? <==> h.response == UploadFailed)
            && h.after.s3 == (if put.Some? then put.value else s.s3))
      && h.after.dynamo == s.dynamo && h.after.sns == s.sns && h.after.sqs == s.sqs
  {
  }

  /** A successful upload stores exactly the payload under `images/<id>.jpg` in
      `shopping-images`; the response's key reads back as the id, and its locator is the
      endpoint followed by `/shopping-images/` and the key. */
  lemma UploadStoresAtKey(s: State, req: UploadRequest, id: string, decode: string -> Bytes)
    requires HandleUpload(s, req, id, decode).response.Uploaded?
    ensures var h := HandleUpload(s, req, id, decode); var r := h.response;
      && PayloadOf(req, decode).Some?
      && r.bucket == BucketName && r.key == ImageKey(id) && ImageIdOf(r.key) == Some(id)
      && h.after.s3.objects == s.s3.objects[ObjectId(BucketName, r.key) :=
           StoredObject(PayloadOf(req, decode).value.body, PayloadOf(req, decode).value.contentType)]
      && r.url[..|s.env.endpoint|] == s.env.endpoint
      && r.url[|s.env.endpoint|..|r.url| - |r.key|] == "/shopping-images/"
      && r.url[|r.url| - |r.key|..] == r.key
  {
    ImageKeyRoundTrip(id, ImageKey(id));
    ImageUrlLocates(s.env.endpoint, ImageKey(id), ImageKey(id));
  }

  // ----- the imperative handler -----

  /** `POST /upload` on the services in place, reassigning `buffer` and `contentType`
      as the handler does. */
  method PostUpload(svc: Services, req: UploadRequest, id: string, decode: string -> Bytes) returns (response: Response)
    modifies svc
    ensures var h := HandleUpload(old(svc.Model()), req, id, decode);
      response == h.response && svc.Model() == h.after
  {
    var key := ImageKey(id);
    var buffer: Bytes;
    var contentType := DefaultContentType;
    if req.file.Some? {
      buffer := req.file.value.buffer;
      if Truthy(req.file.value.mimetype) {
        contentType := req.file.value.mimetype.s;
      }
    } else if Truthy(Base64Field(req)) {
      var base64Data := StripDataUri(Base64Field(req).s);
      buffer := decode(base64Data);
    } else {
      return NoImage;
    }
    var ok := svc.PutObject(BucketName, key, buffer, contentType);
    if !ok {
      return UploadFailed;
    }
    response := Uploaded(BucketName, key, ImageUrl(svc.env.endpoint, key));
  }
}
