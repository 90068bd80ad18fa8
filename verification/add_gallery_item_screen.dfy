/** The form for adding a gallery item: by a URL or by uploading a file. */
module AddGalleryItemScreen {
  import opened Outcomes
  import opened Text
  import opened Records
  import Api
  import GalleryRepository
  import GalleryViewModel

  /** The radio buttons "Usar URL" and "Subir archivo". */
  datatype ContentSource = UrlSource | FileSource

  /** The form's fields. The chosen file is what the content resolver will
      yield for it. */
  datatype GalleryForm = GalleryForm(
    contentType: string, title: string, description: string, category: string,
    source: ContentSource, contentUrl: string, thumbnailUrl: string, author: string,
    selectedFile: Option<GalleryRepository.Picked>)

  const InitialForm := GalleryForm("Imagen", "", "", "Fotos", UrlSource, "", "", "Admin", None)

  /** Switching the content source: showing the URL field forgets the
      chosen file, showing the file selector clears the URL. */
  function SwitchSource(f: GalleryForm, source: ContentSource): (g: GalleryForm)
    ensures g.source == source
    ensures source == UrlSource ==> g.selectedFile.None? && g.contentUrl == f.contentUrl
    ensures source == FileSource ==> g.contentUrl == "" && g.selectedFile == f.selectedFile
    ensures g.(source := f.source, contentUrl := f.contentUrl, selectedFile := f.selectedFile) == f
  {
    match source
    case UrlSource => f.(source := UrlSource, selectedFile := None)
    case FileSource => f.(source := FileSource, contentUrl := "")
  }

  /** The MIME filter of the file picker. */
  function PickerType(contentType: string): (mime: string)
    ensures mime == "image/*" <==> contentType == "Imagen"
    ensures mime != "image/*" ==> mime == "video/*"
  {
    if contentType == "Imagen" then "image/*" else "video/*"
  }

  /** The type name the backend expects: `"Imagen"` becomes `"image"`, and
      any other label is lower-cased (which also covers `"Video"`). */
  function BackendType(contentType: string): (r: string)
    ensures contentType == "Imagen" ==> r == "image"
    ensures contentType != "Imagen" ==> r == Lowercase(contentType)
    ensures forall i :: 0 <= i < |r| ==> !('A' <= r[i] <= 'Z')
  {
    if contentType == "Video" then
      assert Lowercase("Video") == "video";
      "video"
    else if contentType == "Imagen" then "image"
    else Lowercase(contentType)
  }

  /** Example: the two labels of the type picker and the types they send. */
  lemma BackendTypeOfChoices()
    ensures BackendType("Imagen") == "image" && BackendType("Video") == "video"
  {
    assert Lowercase("Video") == "video";
  }

  /** "Agregar" needs a title and the chosen source's content. */
  predicate CanSubmit(f: GalleryForm)
  {
    NotBlank(f.title) && ((f.source == UrlSource && NotBlank(f.contentUrl)) || (f.source == FileSource && f.selectedFile.Some?))
  }

  predicate IsCreating(createMedia: Option<Result<MediaItem>>)
  {
    createMedia == Some(Loading)
  }

  predicate AddEnabled(f: GalleryForm, createMedia: Option<Result<MediaItem>>)
  {
    CanSubmit(f) && !IsCreating(createMedia)
  }

  predicate CancelEnabled(createMedia: Option<Result<MediaItem>>)
  {
    !IsCreating(createMedia)
  }

  /** What pressing "Agregar" asks of the view model. */
  datatype Submission =
    | NoSubmission
    | ByUrl(request: CreateMediaRequest)
    | ByFile(kind: string, title: string, description: string, author: string, category: string,
             file: GalleryRepository.Picked)

  /** The click handler. In file mode the chosen file is uploaded without
      a thumbnail, even when a thumbnail URL was typed; in URL mode blank
      URLs are sent as absent. */
  function Submit(f: GalleryForm): (s: Submission)
    ensures s.NoSubmission? <==> f.source == FileSource && f.selectedFile.None?
    ensures s.ByFile? <==> f.source == FileSource && f.selectedFile.Some?
    ensures s.ByFile? ==> f.selectedFile.Some? && s == ByFile(BackendType(f.contentType), f.title, f.description, f.author, f.category, f.selectedFile.value)
    ensures s.ByUrl? ==>
      && s.request.kind == BackendType(f.contentType)
      && s.request.title == f.title && s.request.description == f.description
      && s.request.author == f.author && s.request.category == f.category
      && (s.request.url.Some? <==> NotBlank(f.contentUrl))
      && (s.request.url.Some? ==> s.request.url.value == f.contentUrl)
      && (s.request.thumbnail.Some? <==> NotBlank(f.thumbnailUrl))
      && (s.request.thumbnail.Some? ==> s.request.thumbnail.value == f.thumbnailUrl)
  {
    var kind := BackendType(f.contentType);
    match f.source
    case FileSource =>
      (match f.selectedFile
       case None => NoSubmission
       case Some(file) => ByFile(kind, f.title, f.description, f.author, f.category, file))
    case UrlSource =>
      ByUrl(CreateMediaRequest(kind, f.title, f.description,
                               if NotBlank(f.contentUrl) then Some(f.contentUrl) else None,
                               if NotBlank(f.thumbnailUrl) then Some(f.thumbnailUrl) else None,
                               f.author, f.category))
  }

  /** An enabled button always submits something, and a URL submission
      always carries its URL. */
  lemma EnabledSubmits(f: GalleryForm)
    requires CanSubmit(f)
    ensures !Submit(f).NoSubmission?
    ensures Submit(f).ByUrl? ==> Submit(f).request.url == Some(f.contentUrl)
  {
  }

  /** Pressing "Agregar" in the view model. */
  function Press(s: GalleryViewModel.GalleryState, session: Api.Session, f: GalleryForm,
                 api: Api.HttpCall<MediaItem>, reload: Api.HttpCall<GalleryResponse>): GalleryViewModel.GalleryState
  {
    match Submit(f)
    case NoSubmission => s
    case ByUrl(r) =>
      GalleryViewModel.CreateMediaItem(s, session, r.kind, r.title, r.description, r.category, r.author, r.url, r.thumbnail, api, reload)
    case ByFile(k, t, d, a, c, file) =>
      GalleryViewModel.CreateMediaItemWithFile(s, session, k, t, d, a, c, file, None, api, reload)
  }

  /** An upload from this screen never has a thumbnail part. */
  lemma FileUploadHasNoThumbnail(f: GalleryForm, session: Api.Session, api: Api.HttpCall<MediaItem>)
    requires Submit(f).ByFile?
    ensures var b := Submit(f);
      var u := GalleryRepository.CreateMediaItemWithFile(session, b.kind, b.title, b.description, b.author, b.category, b.file, None, api);
      u.upload.Some? ==> u.upload.value.thumbnail.None? && u.upload.value.file.partName == "file"
  {
  }

  /** What the screen does when `createMediaState` changes. */
  function React(createMedia: Option<Result<MediaItem>>): CreationReaction
  {
    ReactToCreation(createMedia, "Contenido agregado con éxito")
  }

  function Apply(s: GalleryViewModel.GalleryState): GalleryViewModel.GalleryState
  {
    if React(s.createMedia).reset then GalleryViewModel.ResetCreateMedia(s) else s
  }

  /** End to end: a complete form sent with a session and accepted by the
      backend leaves the screen, with the gallery reloaded; any other
      outcome keeps the form on screen with its buttons usable again. */
  lemma SubmissionOutcome(s: GalleryViewModel.GalleryState, session: Api.Session, f: GalleryForm,
                          api: Api.HttpCall<MediaItem>, reload: Api.HttpCall<GalleryResponse>)
    requires CanSubmit(f)
    ensures var t := Press(s, session, f, api, reload);
      && (React(t.createMedia).navigateBack <==>
            session.Some? && Api.HasBody(api) && (f.source == FileSource ==> f.selectedFile.value.Readable?))
      && (React(t.createMedia).navigateBack ==> t.gallery == GalleryRepository.GetGalleryItems(reload))
      && Apply(t).createMedia.None?
      && AddEnabled(f, Apply(t).createMedia) && CancelEnabled(Apply(t).createMedia)
  {
  }
}
