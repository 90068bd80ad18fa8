/** `GalleryRepository`: the public gallery listing and the two ways of
    adding an item (by URL, or by uploading a file). The content resolver
    is not modelled: what it reports for a chosen file is a parameter. */
module GalleryRepository {
  import opened Outcomes
  import opened Text
  import opened Records
  import opened Api

  const NoSessionCreate := "No hay sesión iniciada para crear un ítem"
  const UnreadableFile := "No se pudo leer el archivo seleccionado"

  /** A multipart file part: its form field name and the file name sent. */
  datatype FilePart = FilePart(partName: string, fileName: string)

  /** What the content resolver yields for a chosen file: `Unreadable` when
      `openInputStream` answers `null`, otherwise the display name it
      reports, if any. A resolver that throws is not part of this model. */
  datatype Picked = Unreadable | Readable(displayName: Option<string>)

  /** `createPartFromUri`: no part for an unreadable file; otherwise a part
      under the given field name, sent under the file's display name or,
      lacking one, under the field name itself. */
  function CreatePart(picked: Picked, partName: string): (p: Option<FilePart>)
    ensures p.None? <==> picked.Unreadable?
    ensures p.Some? ==> p.value.partName == partName
    ensures p.Some? && picked.displayName.Some? ==> p.value.fileName == picked.displayName.value
    ensures p.Some? && picked.displayName.None? ==> p.value.fileName == partName
  {
    match picked
    case Unreadable => None
    case Readable(name) => Some(FilePart(partName, name.OrElse(partName)))
  }

  /** The multipart upload that `createMediaItemWithFile` sends. */
  datatype Upload = Upload(
    authorization: string, kind: string, title: string, description: string,
    author: string, category: string, file: FilePart, thumbnail: Option<FilePart>)

  /** `getGalleryItems`: public, the session is not consulted. Each kind of
      failure has its own prefix. */
  function GetGalleryItems(api: HttpCall<GalleryResponse>): (r: Result<seq<MediaItem>>)
    ensures IsSettled(r)
    ensures r.Success? <==> HasBody(api) && api.body.value.success
    ensures r.Success? ==> r.data == api.body.value.items
    ensures HasBody(api) && !api.body.value.success ==> r == Error("Error del backend al obtener la galería")
    ensures api.Responded? && !HasBody(api) ==> r == Error("Error de red al obtener la galería: " + NatToString(api.code))
    ensures api.Failed? ==> r == Error("Error de conexión al obtener la galería: " + OrNull(api.message))
  {
    match api
    case Failed(message) => Error("Error de conexión al obtener la galería: " + OrNull(message))
    case Responded(code, body, _) =>
      if IsSuccessful(code) && body.Some? then
        if body.value.success then Success(body.value.items) else Error("Error del backend al obtener la galería")
      else Error("Error de red al obtener la galería: " + NatToString(code))
  }

  /** What `createMediaItem` did: the exchange plus the request it sent. */
  datatype CreateExchange = CreateExchange(exchange: Exchange<MediaItem>, sent: Option<CreateMediaRequest>)

  /** `createMediaItem`: any 2xx response with a body is a success; no
      success flag is inspected. */
  function CreateMediaItem(session: Session, request: CreateMediaRequest, api: HttpCall<MediaItem>): (c: CreateExchange)
    ensures Guarded(session, c.exchange, NoSessionCreate) && IsSettled(c.exchange.result)
    ensures c.sent.Some? <==> session.Some?
    ensures c.sent.Some? ==> c.sent.value == request
    ensures c.exchange.result.Success? <==> session.Some? && HasBody(api)
    ensures c.exchange.result.Success? ==> c.exchange.result.data == api.body.value
    ensures session.Some? && api.Responded? && !HasBody(api) ==>
      c.exchange.result == Error("Error de red al crear el ítem: " + NatToString(api.code))
    ensures session.Some? && api.Failed? ==>
      c.exchange.result == Error("Error de conexión al crear el ítem: " + OrNull(api.message))
  {
    match session
    case None => CreateExchange(Exchange(Error(NoSessionCreate), None), None)
    case Some(token) =>
      var result :=
        match api
        case Failed(message) => Error("Error de conexión al crear el ítem: " + OrNull(message))
        case Responded(code, body, _) =>
          if IsSuccessful(code) && body.Some? then Success(body.value)
          else Error("Error de red al crear el ítem: " + NatToString(code));
      CreateExchange(Exchange(result, Some(Bearer(token))), Some(request))
  }

  /** What `createMediaItemWithFile` did: its result and the upload it sent. */
  datatype UploadOutcome = UploadOutcome(result: Result<MediaItem>, upload: Option<Upload>)

  /** `createMediaItemWithFile`: the upload happens only with a session and
      a readable main file; the thumbnail part is optional. An HTTP failure
      reports both the status code and the error body. */
  function CreateMediaItemWithFile(
    session: Session, kind: string, title: string, description: string, author: string, category: string,
    file: Picked, thumbnail: Option<Picked>, api: HttpCall<MediaItem>): (u: UploadOutcome)
    ensures IsSettled(u.result)
    ensures session.None? ==> u == UploadOutcome(Error(NoSessionCreate), None)
    ensures session.Some? && file.Unreadable? ==> u == UploadOutcome(Error(UnreadableFile), None)
    ensures u.upload.Some? <==> session.Some? && file.Readable?
    ensures u.upload.Some? ==>
      && u.upload.value.authorization == Bearer(session.value)
      && u.upload.value.kind == kind && u.upload.value.title == title
      && u.upload.value.description == description && u.upload.value.author == author
      && u.upload.value.category == category
      && u.upload.value.file.partName == "file"
    ensures u.upload.Some? ==>
      (u.upload.value.thumbnail.Some? <==> thumbnail.Some? && thumbnail.value.Readable?)
    ensures u.upload.Some? && u.upload.value.thumbnail.Some? ==> u.upload.value.thumbnail.value.partName == "thumbnail"
    ensures u.result.Success? <==> u.upload.Some? && HasBody(api)
    ensures u.result.Success? ==> u.result.data == api.body.value
    ensures u.upload.Some? && api.Responded? && !HasBody(api) ==>
      u.result == Error("Error de red al subir el archivo: " + NatToString(api.code) + " - " + OrNull(api.errorBody))
    ensures u.upload.Some? && api.Failed? ==>
      u.result == Error("Error de conexión al subir el archivo: " + OrNull(api.message))
  {
    match session
    case None => UploadOutcome(Error(NoSessionCreate), None)
    case Some(token) =>
      match CreatePart(file, "file")
      case None => UploadOutcome(Error(UnreadableFile), None)
      case Some(part) =>
        var thumbnailPart := match thumbnail
          case None => None
          case Some(t) => CreatePart(t, "thumbnail");
        var upload := Upload(Bearer(token), kind, title, description, author, category, part, thumbnailPart);
        var result :=
          match api
          case Failed(message) => Error("Error de conexión al subir el archivo: " + OrNull(message))
          case Responded(code, body, errorBody) =>
            if IsSuccessful(code) && body.Some? then Success(body.value)
            else Error("Error de red al subir el archivo: " + NatToString(code) + " - " + OrNull(errorBody));
        UploadOutcome(result, Some(upload))
  }

  /** An upload rejected over HTTP names the status code and the error body
      in its message. */
  lemma UploadFailureNamesCodeAndBody(
    token: string, kind: string, title: string, description: string, author: string, category: string,
    file: Picked, thumbnail: Option<Picked>, code: nat, errorBody: string)
    requires file.Readable? && !IsSuccessful(code)
    ensures var u := CreateMediaItemWithFile(Some(token), kind, title, description, author, category,
                                             file, thumbnail, Responded(code, None, Some(errorBody)));
      && u.result.Error?
      && OccursAt(u.result.message, NatToString(code), 34)
      && OccursAt(u.result.message, errorBody, 34 + |NatToString(code)| + 3)
  {
    var prefix := "Error de red al subir el archivo: ";
    var codeText := NatToString(code);
    var u := CreateMediaItemWithFile(Some(token), kind, title, description, author, category,
                                     file, thumbnail, Responded(code, None, Some(errorBody)));
    var message := prefix + codeText + " - " + errorBody;
    assert u.result == Error(message);
    assert |prefix| == 34;
    OccursInConcat(prefix, codeText, " - " + errorBody);
    assert message == prefix + codeText + (" - " + errorBody);
    assert message == (prefix + codeText + " - ") + errorBody + "";
    OccursInConcat(prefix + codeText + " - ", errorBody, "");
  }
}
