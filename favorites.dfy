/** Which of the four views the favourite-recipes panel shows, given what the
    favourites source reports. */
module Favorites {
  import opened Wrappers

  /** The panel's four views; the grid carries the recipes it is handed. */
  datatype Panel<R> = Spinner | ErrorMessage(message: string) | EmptyNotice | Grid(recipes: seq<R>)

  /** JavaScript truthiness of a nullable string: null and "" are both false. */
  predicate Truthy(error: Option<string>)
    ensures Truthy(error) <==> error != None && error != Some("")
  {
    error.Some? && error.value != ""
  }

  /** The nested conditional of the panel: loading wins over an error, an
      error wins over an empty list, and the grid is shown only when nothing
      is loading, there is no error and the list is non-empty. */
  function View<R>(loading: bool, error: Option<string>, favorites: seq<R>): (p: Panel<R>)
    ensures p.Spinner? <==> loading
    ensures p.ErrorMessage? <==> !loading && Truthy(error)
    ensures p.ErrorMessage? ==> p.message == error.value
    ensures p.EmptyNotice? <==> !loading && !Truthy(error) && |favorites| == 0
    ensures p.Grid? <==> !loading && !Truthy(error) && |favorites| > 0
    ensures p.Grid? ==> p.recipes == favorites
  {
    if loading then Spinner
    else if Truthy(error) then ErrorMessage(error.value)
    else if |favorites| == 0 then EmptyNotice
    else Grid(favorites)
  }

  /** An empty error string is not an error: the panel falls through to the
      favourites list exactly as if the error were null. */
  lemma EmptyErrorIsNoError<R>(loading: bool, favorites: seq<R>)
    ensures View(loading, Some(""), favorites) == View(loading, None, favorites)
  {
  }
}
