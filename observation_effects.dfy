/**
 * What an action creator of the observation page can do, as values: dispatch
 * a plain action, start a loader of another duck, open the confirm modal,
 * point the flagging modal at an item, update the session, call the remote
 * API, schedule a delayed batch, or raise a TypeError.
 */
module ObservationEffects {
  import opened Wrappers
  import opened JsValues
  import opened ObservationState

  /** The `options` of `fetchObservation`; an omitted flag is false. */
  datatype FetchOptions = FetchOptions(
    fetchControlledTerms: bool,
    fetchQualityMetrics: bool,
    fetchSubscriptions: bool,
    fetchPlaces: bool,
    fetchOtherObservations: bool,
    fetchIdentifiers: bool)

  /** `options = { }`. */
  const NO_OPTIONS: FetchOptions := FetchOptions(false, false, false, false, false, false)

  /** `{ fetchQualityMetrics: true }`. */
  const QUALITY_METRICS_OPTIONS: FetchOptions := FetchOptions(false, true, false, false, false, false)

  /** The remote endpoints of the API client the actions call. */
  datatype Endpoint =
    | ObservationsUpdate
    | ObservationsFave
    | ObservationsUnfave
    | ObservationsSubscribe
    | ObservationsSetQualityMetric
    | ObservationsDeleteQualityMetric
    | CommentsCreate
    | CommentsDelete
    | IdentificationsCreate
    | IdentificationsDelete
    | IdentificationsUpdate
    | AnnotationsCreate
    | AnnotationsDelete
    | AnnotationsVote
    | AnnotationsUnvote
    | UsersUpdate
    | ProjectsAdd
    | ProjectsRemove

  /** Thunks of the other ducks of the page, started by a dispatch. */
  datatype Loader =
    | ControlledTerms
    | QualityMetrics
    | Subscriptions
    | ObservationPlaces
    | MoreFromThisUser
    | Nearby
    | MoreFromClade
    | Identifiers(params: Object)

  /** What runs when a remote call succeeds. */
  datatype Then =
    | Refetch(id: Option<int>, options: FetchOptions)   // dispatch( fetchObservation( id, options ) )
    | ReloadSubscriptions                               // dispatch( fetchSubscriptions( ) )

  /** What runs when a remote call fails. */
  datatype OnFailure =
    | LogToConsole
    | ReportAPIError(message: string)                    // dispatch( handleAPIError( e, message ) )

  /** A project as passed to the project actions. */
  datatype Project = Project(id: int, title: string)

  /** The form of the coarser-identification modal, handed to its `onConfirm`. */
  datatype ConfirmForm = ConfirmForm(silenceCoarse: bool)

  /** The `onConfirm` callback of a confirm-modal request. */
  datatype Deferred =
    | DeleteCommentLater(commentId: int)
    | AddIDLater(taxon: Taxon, body: string)
    | RemoveFromProjectLater(project: Project)

  /** The argument of `setConfirmModalState`; every request is shown (`show: true`). */
  datatype ConfirmRequest =
    | Prompt(message: string, confirmText: string, onConfirm: Deferred)
    | CoarserID(idTaxon: Taxon, existingTaxon: Taxon, confirmText: string, onConfirm: Deferred)

  datatype Effect =
    | Dispatch(action: Action)
    | Load(loader: Loader)
    | SetFlaggingItem(item: FlagItem)          // setFlaggingModalState( "item", item )
    | UpdateSession(session: Object)           // updateSession( session )
    | ConfirmModal(request: ConfirmRequest)    // setConfirmModalState( request )
      /** `inatjs.observations.fetch( id, params )`; on success the `then` body runs
          against `snapshot`, the state read before the call; failures are not caught. */
    | Fetch(id: Option<int>, params: Object, snapshot: Store, options: FetchOptions)
    | Call(endpoint: Endpoint, payload: Object, onSuccess: Then, onFailure: OnFailure)
      /** `setTimeout( …, 2000 )`: the batch runs later; no time is modelled. */
    | Later(batch: seq<Effect>)
      /** A TypeError: a property of `undefined` was read; nothing after it happens. */
    | Throw

  /** Some effect is a remote call. */
  predicate HasCall(effects: seq<Effect>)
    decreases |effects|
  {
    effects != [] && (effects[0].Call? || HasCall(effects[1..]))
  }

  /** Some effect opens the confirm modal. */
  predicate HasConfirm(effects: seq<Effect>)
    decreases |effects|
  {
    effects != [] && (effects[0].ConfirmModal? || HasConfirm(effects[1..]))
  }

  /** `HasCall` and `HasConfirm` hold exactly when some single effect is of that kind. */
  lemma {:induction false} HasKindIff(effects: seq<Effect>)
    decreases |effects|
    ensures HasCall(effects) <==> exists i :: 0 <= i < |effects| && effects[i].Call?
    ensures HasConfirm(effects) <==> exists i :: 0 <= i < |effects| && effects[i].ConfirmModal?
  {
    if effects != [] {
      HasKindIff(effects[1..]);
      assert forall i :: 0 < i < |effects| ==> effects[i] == effects[1..][i - 1];
    }
  }

  /**
   * The shape of every mutating action: when an observation is loaded, exactly
   * one call to `endpoint` with `payload`, re-fetching the current observation
   * with `options` on success and logging failures; otherwise a TypeError
   * before anything is sent.
   */
  predicate CallsThenRefetches(s: Store, effects: seq<Effect>, endpoint: Endpoint, payload: Object, options: FetchOptions)
  {
    match s.observation
    case None => effects == [Throw]
    case Some(o) => effects == [Call(endpoint, payload, Refetch(o.id, options), LogToConsole)]
  }
}
