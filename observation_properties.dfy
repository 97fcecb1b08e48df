/**
 * Properties of the observation page's reducer and action creators that
 * relate several of them: the flagging-item search order, the re-fetch that
 * follows every mutation, the opposite ownership guards, and what the
 * confirm modals do once confirmed.
 */
module ObservationProperties {
  import opened Wrappers
  import opened JsValues
  import opened ObservationState
  import opened ObservationEffects
  import A = ObservationActions

  /** `i` is the position of the first entry whose id is `id`. */
  predicate IsFirstWithId(entries: seq<Entry>, i: int, id: Option<int>)
  {
    0 <= i < |entries| && Some(entries[i].id) == id &&
    forall j :: 0 <= j < i ==> Some(entries[j].id) != id
  }

  /** `_.find` returns the first match, not merely some match. */
  lemma {:induction false} FindByIdTakesFirst(entries: seq<Entry>, i: int, id: Option<int>)
    requires IsFirstWithId(entries, i, id)
    ensures A.FindById(entries, id) == Some(entries[i])
    decreases i
  {
    if i > 0 {
      assert Some(entries[0].id) != id;
      assert IsFirstWithId(entries[1..], i - 1, id) by {
        forall j | 0 <= j < i - 1 ensures Some(entries[1..][j].id) != id {
          assert entries[1..][j] == entries[j + 1];
        }
      }
      FindByIdTakesFirst(entries[1..], i - 1, id);
    }
  }

  /**
   * The prioritised search of the flagging reconciliation: when the fetched
   * id is not the item's, the first comment with the item's id wins; only
   * when no comment has it does the first identification with it win.
   */
  lemma ReconcilePicksFirstComment(id: Option<int>, item: FlagItem, o: Observation, i: int)
    requires id != item.Id()
    requires IsFirstWithId(o.comments, i, item.Id())
    ensures A.Reconcile(id, item, o) == Some(FlaggedEntry(o.comments[i]))
  {
    FindByIdTakesFirst(o.comments, i, item.Id());
  }

  lemma ReconcilePicksFirstIdentification(id: Option<int>, item: FlagItem, o: Observation, i: int)
    requires id != item.Id()
    requires forall j :: 0 <= j < |o.comments| ==> Some(o.comments[j].id) != item.Id()
    requires IsFirstWithId(o.identifications, i, item.Id())
    ensures A.Reconcile(id, item, o) == Some(FlaggedEntry(o.identifications[i]))
  {
    FindByIdTakesFirst(o.identifications, i, item.Id());
  }

  /**
   * A fetch that resolves replaces the observation slice: the first thing its
   * `then` body does is dispatch the fetched observation, which the reducer
   * adopts whatever the state was.
   */
  lemma FetchReplacesObservation(
    snapshot: Store, id: Option<int>, options: FetchOptions, fetched: Option<Observation>, state: Option<Observation>)
    ensures var e := A.FetchSucceeded(snapshot, id, options, fetched)[0];
      e.Dispatch? && Reduce(state, e.action) == fetched
  {
  }

  /**
   * The mutating action creators that act on the observation, with their
   * arguments. `followUser`, `unfollowUser` and `subscribe` are not among
   * them: they change the viewer's relation to the owner or the observation,
   * and their success reloads subscriptions instead of re-fetching
   * (`SubscriptionMutationsReload`).
   */
  datatype Mutation =
    | UpdateObservation(attributes: Object)
    | AddComment(body: string)
    | DeleteComment(commentId: int)
    | DoAddID(taxon: Taxon, body: string, confirmForm: Option<ConfirmForm>)
    | DeleteID(identificationId: int)
    | RestoreID(identificationId: int)
    | Vote(scope: Option<string>, params: Object)
    | Unvote(scope: Option<string>)
    | Fave
    | Unfave
    | AddAnnotation(controlledAttributeId: int, controlledValueId: int)
    | DeleteAnnotation(annotationId: int)
    | VoteAnnotation(annotationId: int, vote: Value)
    | UnvoteAnnotation(annotationId: int)
    | VoteMetric(metric: string, params: Object)
    | UnvoteMetric(metric: string)
    | AddToProject(project: Project)
    | RemoveFromProject(project: Project)

  /** Dispatching a mutation against the store. */
  function Perform(s: Store, m: Mutation): seq<Effect>
  {
    match m
    case UpdateObservation(attributes) => A.UpdateObservation(s, attributes)
    case AddComment(body) => A.AddComment(s, body)
    case DeleteComment(commentId) => A.DeleteComment(s, commentId)
    case DoAddID(taxon, body, form) => A.DoAddID(s, taxon, body, form)
    case DeleteID(identificationId) => A.DeleteID(s, identificationId)
    case RestoreID(identificationId) => A.RestoreID(s, identificationId)
    case Vote(scope, params) => A.Vote(s, scope, params)
    case Unvote(scope) => A.Unvote(s, scope)
    case Fave => A.Fave(s)
    case Unfave => A.Unfave(s)
    case AddAnnotation(attribute, value) => A.AddAnnotation(s, attribute, value)
    case DeleteAnnotation(annotationId) => A.DeleteAnnotation(s, annotationId)
    case VoteAnnotation(annotationId, vote) => A.VoteAnnotation(s, annotationId, vote)
    case UnvoteAnnotation(annotationId) => A.UnvoteAnnotation(s, annotationId)
    case VoteMetric(metric, params) => A.VoteMetric(s, metric, params)
    case UnvoteMetric(metric) => A.UnvoteMetric(s, metric)
    case AddToProject(project) => A.AddToProject(s, project)
    case RemoveFromProject(project) => A.RemoveFromProject(s, project)
  }

  /** The last effect of a mutation is its remote call, if it makes one. */
  function LastCall(effects: seq<Effect>): Option<Effect>
  {
    if effects != [] && effects[|effects| - 1].Call? then Some(effects[|effects| - 1]) else None
  }

  /**
   * Every mutation of a loaded observation other than the owner-only project
   * actions (which send nothing for anyone else) sends exactly one request,
   * as its last effect, and when that request succeeds it issues exactly
   * one fetch, of the observation that was current when the mutation ran
   * (whatever the store holds by then, as long as it has a config).
   */
  lemma MutationRefetchesCurrent(s: Store, m: Mutation, later: Store, locale: string)
    requires s.observation.Some? && later.config.Some?
    requires !m.AddToProject? && !m.RemoveFromProject?
    ensures LastCall(Perform(s, m)).Some?
    ensures forall i :: 0 <= i < |Perform(s, m)| - 1 ==> !Perform(s, m)[i].Call?
    ensures var next := A.Succeeded(later, LastCall(Perform(s, m)).value.onSuccess, locale);
      |next| == 1 && next[0].Fetch? && next[0].id == s.observation.value.id
  {
  }

  /** The project mutations obey the same rule, for the observation's owner. */
  lemma ProjectMutationRefetchesCurrent(s: Store, m: Mutation, later: Store, locale: string)
    requires m.AddToProject? || m.RemoveFromProject?
    requires A.Identified(s) && A.ViewerId(s) == A.OwnerId(s) && later.config.Some?
    ensures |Perform(s, m)| == 1 && Perform(s, m)[0].Call?
    ensures var next := A.Succeeded(later, Perform(s, m)[0].onSuccess, locale);
      |next| == 1 && next[0].Fetch? && next[0].id == s.observation.value.id
  {
  }

  /**
   * The ownership guards point in opposite directions: on a store where both
   * users are known, exactly one of following the owner and adding to a
   * project sends a request, and likewise for every pairing of the two kinds.
   */
  lemma OwnerGuardsAreOpposite(s: Store, project: Project)
    requires A.Identified(s)
    ensures HasCall(A.FollowUser(s)) != HasCall(A.AddToProject(s, project))
    ensures HasCall(A.UnfollowUser(s)) != HasCall(A.RemoveFromProject(s, project))
    ensures HasCall(A.Subscribe(s)) != HasCall(A.AddToProject(s, project))
    ensures HasCall(A.FollowUser(s)) != HasCall(A.RemoveFromProject(s, project))
    ensures HasCall(A.UnfollowUser(s)) != HasCall(A.AddToProject(s, project))
    ensures HasCall(A.Subscribe(s)) != HasCall(A.RemoveFromProject(s, project))
  {
  }

  /**
   * Following, unfollowing and subscribing send one request whose success
   * reloads subscriptions, and the observation is not re-fetched.
   */
  lemma SubscriptionMutationsReload(s: Store, later: Store, locale: string)
    requires A.Identified(s) && A.ViewerId(s) != A.OwnerId(s)
    ensures |A.FollowUser(s)| == 1 && A.FollowUser(s)[0].Call? && A.FollowUser(s)[0].onSuccess == ReloadSubscriptions
    ensures |A.UnfollowUser(s)| == 1 && A.UnfollowUser(s)[0].Call? && A.UnfollowUser(s)[0].onSuccess == ReloadSubscriptions
    ensures |A.Subscribe(s)| == 1 && A.Subscribe(s)[0].Call? && A.Subscribe(s)[0].onSuccess == ReloadSubscriptions
    ensures A.Succeeded(later, ReloadSubscriptions, locale) == [Load(Subscriptions)]
  {
  }

  /** No follow, subscribe or project request is sent without a config, a current user and an observation. */
  lemma GuardsNeedViewerAndObservation(s: Store, project: Project)
    requires s.config.None? || s.config.value.currentUser.None? || s.observation.None?
    ensures A.FollowUser(s) == [] && A.UnfollowUser(s) == [] && A.Subscribe(s) == []
    ensures A.AddToProject(s, project) == [] && A.RemoveFromProject(s, project) == []
  {
  }

  /**
   * Confirming the coarser-ID modal adds the identification after all, with
   * the form the user confirmed: the session preference is saved only when
   * the user ticked the box, and the request is the one a direct add sends.
   */
  lemma CoarserIDConfirmAdds(s: Store, taxon: Taxon, body: string, later: Store, form: Option<ConfirmForm>)
    requires HasConfirm(A.AddID(s, taxon, body))
    ensures var d := A.AddID(s, taxon, body)[0].request.onConfirm;
      A.Confirmed(later, d, form) == A.DoAddID(later, taxon, body, form)
    ensures var d := A.AddID(s, taxon, body)[0].request.onConfirm;
      var e := A.Confirmed(later, d, form);
      (e[0].UpdateSession? <==> form.Some? && form.value.silenceCoarse) &&
      e[|e| - 1] == A.DoAddID(later, taxon, body, None)[0]
  {
  }

  /** The guard never fires for the observation's own taxon, nor for a user who prefers to skip it. */
  lemma CoarserIDOnlyForStrictAncestors(s: Store, taxon: Taxon, body: string)
    requires A.PrefersSkip(s) || s.observation.None? || s.observation.value.taxon.None? ||
             taxon.id == s.observation.value.taxon.value.id ||
             taxon.id !in s.observation.value.taxon.value.ancestorIds
    ensures A.AddID(s, taxon, body) == A.DoAddID(s, taxon, body, None)
  {
  }

  /** Confirming the delete prompt deletes that comment, against the state at confirmation time. */
  lemma ConfirmDeleteCommentDeletes(commentId: int, later: Store, form: Option<ConfirmForm>)
    ensures var d := A.ConfirmDeleteComment(commentId)[0].request.onConfirm;
      CallsThenRefetches(later, A.Confirmed(later, d, form), CommentsDelete, map["id" := Int(commentId)], NO_OPTIONS)
  {
  }

  /** Confirming the removal prompt removes the observation from that project, if the owner confirms it. */
  lemma ConfirmRemoveFromProjectRemoves(project: Project, later: Store, form: Option<ConfirmForm>)
    ensures var d := A.ConfirmRemoveFromProject(project)[0].request.onConfirm;
      A.Confirmed(later, d, form) == A.RemoveFromProject(later, project)
    ensures var d := A.ConfirmRemoveFromProject(project)[0].request.onConfirm;
      HasCall(A.Confirmed(later, d, form)) <==> A.Identified(later) && A.ViewerId(later) == A.OwnerId(later)
  {
  }

  /** `needs_id` never reaches the quality-metric endpoints; other metrics never reach the vote endpoints. */
  lemma NeedsIdIsAVote(s: Store, metric: string, params: Object)
    requires s.observation.Some?
    ensures var v := A.VoteMetric(s, metric, params)[0];
      v.Call? && (v.endpoint == ObservationsFave <==> metric == "needs_id")
    ensures var u := A.UnvoteMetric(s, metric)[0];
      u.Call? && (u.endpoint == ObservationsUnfave <==> metric == "needs_id")
    ensures metric != "needs_id" ==>
      A.VoteMetric(s, metric, params)[0].onSuccess.options.fetchQualityMetrics &&
      A.UnvoteMetric(s, metric)[0].onSuccess.options.fetchQualityMetrics
  {
  }

  /** The `needs_id` vote depends on `params` only through `agree === "false"`. */
  lemma NeedsIdVoteReadsOnlyAgree(s: Store, p: Object, q: Object)
    requires ("agree" in p && p["agree"] == Str("false")) <==> ("agree" in q && q["agree"] == Str("false"))
    ensures A.VoteMetric(s, "needs_id", p) == A.VoteMetric(s, "needs_id", q)
  {
  }
}
