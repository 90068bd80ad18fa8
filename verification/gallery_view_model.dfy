/** `GalleryViewModel`: the gallery listing and the state of the latest
    item creation, by URL or by file. */
module GalleryViewModel {
  import opened Outcomes
  import opened Records
  import opened Api
  import GalleryRepository

  /** The two observable values. `createMedia` is absent until a creation
      starts and after the screen resets it. */
  datatype GalleryState = GalleryState(gallery: Result<seq<MediaItem>>, createMedia: Option<Result<MediaItem>>)

  /** `loadGallery`: `Loading`, then the repository's answer. */
  function LoadGallery(s: GalleryState, api: HttpCall<GalleryResponse>): (t: GalleryState)
    ensures IsSettled(t.gallery)
    ensures t.gallery.Success? <==> HasBody(api) && api.body.value.success
    ensures t.gallery.Success? ==> t.gallery.data == api.body.value.items
    ensures t.createMedia == s.createMedia
  {
    s.(gallery := GalleryRepository.GetGalleryItems(api))
  }

  /** The view model right after construction: its `init` block has
      already loaded the gallery, and nothing is being created. */
  function Created(api: HttpCall<GalleryResponse>): (s: GalleryState)
    ensures IsSettled(s.gallery) && s.createMedia.None?
  {
    LoadGallery(GalleryState(Loading, None), api)
  }

  /** Publishing a finished creation: only a success reloads the gallery. */
  function Publish(s: GalleryState, result: Result<MediaItem>, reload: HttpCall<GalleryResponse>): (t: GalleryState)
    ensures t.createMedia == Some(result)
    ensures result.Success? ==> t.gallery == GalleryRepository.GetGalleryItems(reload)
    ensures !result.Success? ==> t.gallery == s.gallery
  {
    var published := s.(createMedia := Some(result));
    if result.Success? then LoadGallery(published, reload) else published
  }

  /** `createMediaItem`: the request carries the arguments as given. */
  function CreateMediaItem(s: GalleryState, session: Session, kind: string, title: string, description: string,
                           category: string, author: string, url: Option<string>, thumbnail: Option<string>,
                           api: HttpCall<MediaItem>, reload: HttpCall<GalleryResponse>): (t: GalleryState)
    ensures t.createMedia.Some? && IsSettled(t.createMedia.value)
    ensures t.createMedia.value.Success? <==> session.Some? && HasBody(api)
    ensures GalleryRepository.CreateMediaItem(session, CreateMediaRequest(kind, title, description, url, thumbnail, author, category), api).exchange.result
            == t.createMedia.value
    ensures t.createMedia.value.Success? ==> t.gallery == GalleryRepository.GetGalleryItems(reload)
    ensures !t.createMedia.value.Success? ==> t.gallery == s.gallery
  {
    var request := CreateMediaRequest(kind, title, description, url, thumbnail, author, category);
    Publish(s, GalleryRepository.CreateMediaItem(session, request, api).exchange.result, reload)
  }

  /** `createMediaItemWithFile`. */
  function CreateMediaItemWithFile(s: GalleryState, session: Session, kind: string, title: string, description: string,
                                   author: string, category: string,
                                   file: GalleryRepository.Picked, thumbnail: Option<GalleryRepository.Picked>,
                                   api: HttpCall<MediaItem>, reload: HttpCall<GalleryResponse>): (t: GalleryState)
    ensures t.createMedia.Some? && IsSettled(t.createMedia.value)
    ensures t.createMedia.value.Success? <==> session.Some? && file.Readable? && HasBody(api)
    ensures t.createMedia.value
            == GalleryRepository.CreateMediaItemWithFile(session, kind, title, description, author, category, file, thumbnail, api).result
    ensures t.createMedia.value.Success? ==> t.gallery == GalleryRepository.GetGalleryItems(reload)
    ensures !t.createMedia.value.Success? ==> t.gallery == s.gallery
  {
    Publish(s, GalleryRepository.CreateMediaItemWithFile(session, kind, title, description, author, category, file, thumbnail, api).result, reload)
  }

  /** `resetCreateMediaState`. */
  function ResetCreateMedia(s: GalleryState): (t: GalleryState)
    ensures t.createMedia.None? && t.gallery == s.gallery
  {
    s.(createMedia := None)
  }

  /** The operations the screens can trigger, with the outcome of each call. */
  datatype Event =
    | GalleryLoaded(call: HttpCall<GalleryResponse>)
    | ItemCreated(kind: string, title: string, description: string, category: string, author: string,
                  url: Option<string>, thumbnail: Option<string>, api: HttpCall<MediaItem>, reload: HttpCall<GalleryResponse>)
    | FileUploaded(kind: string, title: string, description: string, author: string, category: string,
                   file: GalleryRepository.Picked, thumbnailFile: Option<GalleryRepository.Picked>,
                   api: HttpCall<MediaItem>, reload: HttpCall<GalleryResponse>)
    | CreateReset

  function Step(s: GalleryState, session: Session, e: Event): GalleryState
  {
    match e
    case GalleryLoaded(c) => LoadGallery(s, c)
    case ItemCreated(k, ti, d, c, a, u, th, api, r) => CreateMediaItem(s, session, k, ti, d, c, a, u, th, api, r)
    case FileUploaded(k, ti, d, a, c, f, th, api, r) => CreateMediaItemWithFile(s, session, k, ti, d, a, c, f, th, api, r)
    case CreateReset => ResetCreateMedia(s)
  }

  function Run(s: GalleryState, session: Session, events: seq<Event>): GalleryState
    decreases |events|
  {
    if |events| == 0 then s else Run(Step(s, session, events[0]), session, events[1..])
  }

  /** Neither value is ever left `Loading` between operations. */
  predicate Settled(s: GalleryState)
  {
    IsSettled(s.gallery) && s.createMedia != Some(Loading)
  }

  /** From construction on, whatever the screens do, the gallery and the
      creation state are settled between operations. This rests on each
      launched coroutine being one atomic step: the `Loading` values
      published while a request is in flight fall inside a step. */
  lemma {:induction false} RunStaysSettled(s: GalleryState, session: Session, events: seq<Event>)
    requires Settled(s)
    ensures Settled(Run(s, session, events))
    decreases |events|
  {
    if |events| > 0 {
      RunStaysSettled(Step(s, session, events[0]), session, events[1..]);
    }
  }

  lemma CreatedIsSettled(api: HttpCall<GalleryResponse>, session: Session, events: seq<Event>)
    ensures Settled(Run(Created(api), session, events))
  {
    RunStaysSettled(Created(api), session, events);
  }
}
