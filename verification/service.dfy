/** The comment-analysis endpoint with the sentiment model taken as an
    input: request validation, the default commenter id, the casing of the
    stripped comment and the profile update under the lower-cased label. */
module Service {
  import opened StrBuiltins
  import opened Casing
  import opened Profiles

  datatype Option<T> = None | Some(value: T)

  /** The fields of the JSON body the endpoint reads; `None` is a field the
      body does not have. */
  datatype Request = Request(comment: Option<string>, name: Option<string>)

  /** What `analyze_comment_core` returns, without the confidence; the
      response carries `casingTone.Label()`. */
  datatype Analysis = Analysis(comment: string, sentiment: string, casingTone: Tone, commenterProfile: Profile)

  datatype Response =
    | Ok(analysis: Analysis)
    | BadRequest(error: string)   // status 400
    | ServerError(error: string)  // status 500

  const DefaultCommenter := "anonymous"
  const NoCommentError := "No comment provided"
  const AnalyzeFailedError := "Failed to analyze comment"

  /** `not comment`: the comment is absent or empty. */
  predicate NoComment(comment: Option<string>): (b: bool)
    ensures b <==> comment == None || comment == Some("")
  {
    comment.None? || comment.value == ""
  }

  /** `data.get('name', 'anonymous')` */
  function CommenterId(name: Option<string>): (id: string)
    ensures name == None ==> id == DefaultCommenter
    ensures forall n :: name == Some(n) ==> id == n
  {
    if name.Some? then name.value else DefaultCommenter
  }

  /** `analyze_comment_core` once the model has produced `prediction`: the
      casing of the stripped comment, and the commenter's profile updated
      under the lower-cased prediction. */
  method AnalyzeCommentCore(store: ProfileStore, comment: string, commenterId: string, prediction: string)
    returns (result: Analysis)
    requires store.Valid()
    modifies store
    ensures store.Valid()
    ensures store.profiles ==
            old(store.profiles)[commenterId := Apply(Lookup(old(store.profiles), commenterId), ToLower(prediction))]
    ensures result == Analysis(comment, prediction, AnalyzeCasing(Strip(comment)), store.profiles[commenterId])
  {
    var casing := AnalyzeCasing(Strip(comment));
    var profile := store.UpdateProfile(commenterId, ToLower(prediction));
    result := Analysis(comment, prediction, casing, profile);
  }

  /** The `/analyze-comment` handler. `prediction` is the model's label, or
      `None` when the model could not produce one (it failed to load, or
      raised). A missing comment is refused before the model is consulted,
      and a model failure happens before the table is touched, so both
      leave every profile as it was. */
  method AnalyzeComment(store: ProfileStore, request: Request, prediction: Option<string>)
    returns (response: Response)
    requires store.Valid()
    modifies store
    ensures store.Valid()
    ensures NoComment(request.comment) ==>
              response == BadRequest(NoCommentError) && unchanged(store)
    ensures !NoComment(request.comment) && prediction.None? ==>
              response == ServerError(AnalyzeFailedError) && unchanged(store)
    ensures !NoComment(request.comment) && prediction.Some? ==>
              var id := CommenterId(request.name);
              && store.profiles ==
                 old(store.profiles)[id := Apply(Lookup(old(store.profiles), id), ToLower(prediction.value))]
              && response == Ok(Analysis(request.comment.value, prediction.value,
                                         AnalyzeCasing(Strip(request.comment.value)), store.profiles[id]))
  {
    var commenterId := CommenterId(request.name);
    if NoComment(request.comment) {
      return BadRequest(NoCommentError);
    }
    if prediction.None? {
      return ServerError(AnalyzeFailedError);
    }
    var result := AnalyzeCommentCore(store, request.comment.value, commenterId, prediction.value);
    response := Ok(result);
  }
}
