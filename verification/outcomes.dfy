/** The uniform outcome wrappers every repository and view model of the
    app works with: a nullable value (`Option`) and the three-state
    `Result` that repositories return and view models publish. */
module Outcomes {

  /** A Kotlin nullable value. */
  datatype Option<+T> = None | Some(value: T) {

    /** Kotlin's elvis operator `x ?: default`. */
    function OrElse(default: T): T
    {
      match this
      case Some(v) => v
      case None => default
    }
  }

  /** The app's sealed result class: a payload, an error message, or a
      request still in flight. Repositories only ever produce the first
      two; view models use `Loading` as the "in flight" marker. */
  datatype Result<+T> = Success(data: T) | Error(message: string) | Loading

  /** A result that a repository can hand back: never `Loading`. */
  predicate IsSettled<T>(r: Result<T>)
  {
    !r.Loading?
  }

  /** What a form screen does when its creation state changes. */
  datatype CreationReaction = CreationReaction(toast: Option<string>, reset: bool, navigateBack: bool)

  /** The rule the two creation forms share: a finished creation is toasted
      and the state reset; only a success leaves the screen. */
  function ReactToCreation<T>(state: Option<Result<T>>, successToast: string): (r: CreationReaction)
    ensures r.reset <==> state.Some? && IsSettled(state.value)
    ensures r.navigateBack <==> state.Some? && state.value.Success?
    ensures r.toast.Some? <==> r.reset
    ensures state.Some? && state.value.Success? ==> r.toast == Some(successToast)
    ensures state.Some? && state.value.Error? ==> r.toast == Some("Error: " + state.value.message)
  {
    match state
    case Some(Success(_)) => CreationReaction(Some(successToast), true, true)
    case Some(Error(message)) => CreationReaction(Some("Error: " + message), true, false)
    case _ => CreationReaction(None, false, false)
  }
}
