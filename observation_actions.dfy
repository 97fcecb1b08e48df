/**
 * The action creators of the observation page
 * (app/webpack/observations/show/ducks/observation.js, lines 32-409).
 *
 * Each thunk is a function from the store it reads (and its arguments) to the
 * effects it produces, in order. A thunk that dispatches another thunk
 * synchronously produces that thunk's effects in place; callbacks that run
 * later (a confirm modal's `onConfirm`, a call's `then`) are values that
 * `Confirmed`, `Succeeded` and `FetchSucceeded` interpret.
 */
module ObservationActions {
  import opened Wrappers
  import opened JsValues
  import opened ObservationState
  import opened ObservationEffects

  /** `getState( ).observation.id`, when an observation slice is present. */
  function CurrentId(s: Store): Option<int>
  {
    if s.observation.Some? then s.observation.value.id else None
  }

  /** `config && config.currentUser && config.currentUser.prefers_skip_coarer_id_modal`. */
  predicate PrefersSkip(s: Store)
  {
    s.config.Some? && s.config.value.currentUser.Some? && s.config.value.currentUser.value.prefersSkipCoarserIdModal
  }

  /** The config, its current user, the observation and the observation's user are all present. */
  predicate Identified(s: Store)
  {
    s.config.Some? && s.config.value.currentUser.Some? && s.observation.Some? && s.observation.value.user.Some?
  }

  /** The config, its current user and the observation are present, but the observation has no user. */
  predicate OwnerUnreadable(s: Store)
  {
    s.config.Some? && s.config.value.currentUser.Some? && s.observation.Some? && s.observation.value.user.None?
  }

  function ViewerId(s: Store): int
    requires Identified(s)
  {
    s.config.value.currentUser.value.id
  }

  function OwnerId(s: Store): int
    requires Identified(s)
  {
    s.observation.value.user.value.id
  }

  // ---------------------------------------------------------------- fetching

  /** `fetchObservation( id, options )` up to the remote call (lines 32-39). */
  function FetchObservation(s: Store, id: Option<int>, options: FetchOptions, locale: string): (effects: seq<Effect>)
    ensures s.config.None? ==> effects == [Throw]
    ensures s.config.Some? ==> |effects| == 1 && effects[0].Fetch?
    ensures s.config.Some? ==> effects[0].id == id && effects[0].snapshot == s && effects[0].options == options
    ensures s.config.Some? ==>
      effects[0].params.Keys == {"preferred_place_id", "locale"} && effects[0].params["locale"] == Str(locale) &&
      effects[0].params["preferred_place_id"] ==
        (if s.config.value.preferredPlace.Some? then Int(s.config.value.preferredPlace.value.id) else Null)
  {
    match s.config
    case None => [Throw]
    case Some(c) =>
      var place := match c.preferredPlace case Some(p) => Int(p.id) case None => Null;
      [Fetch(id, map["preferred_place_id" := place, "locale" := Str(locale)], s, options)]
  }

  /** `{ taxon_id: taxon.id, per_page: 10 }`. */
  function IdentifiersParams(t: Taxon): Object
  {
    map["taxon_id" := Int(t.id), "per_page" := Int(10)]
  }

  /**
   * `options.fetchIdentifiers && observation.taxon && observation.taxon.rank_level <= 50`;
   * an absent rank level compares false, as `undefined <= 50` does. A
   * `rank_level: null` would compare true in JavaScript (`null <= 50`); the
   * model does not tell it apart from an absent one.
   */
  predicate RequestsIdentifiers(options: FetchOptions, fetched: Option<Observation>)
  {
    options.fetchIdentifiers && fetched.Some? && fetched.value.taxon.Some? &&
    fetched.value.taxon.value.rankLevel.Some? && fetched.value.taxon.value.rankLevel.value <= 50.0
  }

  /** The batch scheduled with `setTimeout` once an observation has arrived (lines 46-55). */
  function DelayedBatch(options: FetchOptions, fetched: Option<Observation>): (batch: seq<Effect>)
    ensures options.fetchOtherObservations ==>
      |batch| >= 3 && batch[..3] == [Load(MoreFromThisUser), Load(Nearby), Load(MoreFromClade)]
    ensures Throw in batch <==> options.fetchIdentifiers && fetched.None?
    ensures RequestsIdentifiers(options, fetched) ==>
      |batch| > 0 && batch[|batch| - 1] == Load(Identifiers(IdentifiersParams(fetched.value.taxon.value)))
    ensures !RequestsIdentifiers(options, fetched) ==>
      forall i :: 0 <= i < |batch| ==> !(batch[i].Load? && batch[i].loader.Identifiers?)
    ensures !options.fetchOtherObservations ==>
      forall e <- batch :: e !in [Load(MoreFromThisUser), Load(Nearby), Load(MoreFromClade)]
    ensures forall e <- batch ::
      e in [Load(MoreFromThisUser), Load(Nearby), Load(MoreFromClade), Throw] || (e.Load? && e.loader.Identifiers?)
    ensures |batch| == (if options.fetchOtherObservations then 3 else 0) +
      (if options.fetchIdentifiers && (fetched.None? || RequestsIdentifiers(options, fetched)) then 1 else 0)
  {
    var others := if options.fetchOtherObservations
      then [Load(MoreFromThisUser), Load(Nearby), Load(MoreFromClade)] else [];
    var identifiers :=
      if !options.fetchIdentifiers then []
      else match fetched
        case None => [Throw]
        case Some(o) =>
          match o.taxon
          case None => []
          case Some(t) =>
            if t.rankLevel.Some? && t.rankLevel.value <= 50.0
            then [Load(Identifiers(IdentifiersParams(t)))]
            else [];
    others + identifiers
  }

  /** `_.find( entries, c => c.id === id )`. */
  function FindById(entries: seq<Entry>, id: Option<int>): (r: Option<Entry>)
    ensures r.Some? <==> exists i :: 0 <= i < |entries| && Some(entries[i].id) == id
    ensures r.Some? ==> r.value in entries && Some(r.value.id) == id
  {
    if entries == [] then None
    else if Some(entries[0].id) == id then Some(entries[0])
    else FindById(entries[1..], id)
  }

  /**
   * The new flagging item for a freshly fetched observation (lines 58-62):
   * the observation itself when it was fetched under the item's id, else the
   * first comment with that id, else the first identification with that id.
   */
  function Reconcile(id: Option<int>, item: FlagItem, o: Observation): (r: Option<FlagItem>)
    ensures id == item.Id() ==> r == Some(FlaggedObservation(o))
    ensures id != item.Id() && r.Some? ==> r.value.FlaggedEntry?
    ensures r.None? <==>
      id != item.Id() &&
      (forall i :: 0 <= i < |o.comments| ==> Some(o.comments[i].id) != item.Id()) &&
      (forall i :: 0 <= i < |o.identifications| ==> Some(o.identifications[i].id) != item.Id())
    ensures r.Some? && r.value.FlaggedEntry? ==>
      id != item.Id() && Some(r.value.entry.id) == item.Id() &&
      (r.value.entry in o.comments ||
       ((forall i :: 0 <= i < |o.comments| ==> Some(o.comments[i].id) != item.Id()) &&
        r.value.entry in o.identifications))
  {
    if id == item.Id() then Some(FlaggedObservation(o))
    else match FindById(o.comments, item.Id())
      case Some(c) => Some(FlaggedEntry(c))
      case None =>
        match FindById(o.identifications, item.Id())
        case Some(e) => Some(FlaggedEntry(e))
        case None => None
  }

  /** The flagging-modal part of the `then` body (lines 56-64), against the state read before the fetch. */
  function FlaggingUpdate(snapshot: Store, id: Option<int>, fetched: Option<Observation>): (effects: seq<Effect>)
    ensures |effects| <= 1
    ensures effects != [] ==>
      snapshot.flaggingModal.Some? && snapshot.flaggingModal.value.show && snapshot.flaggingModal.value.item.Some?
    ensures effects == [Throw] <==>
      snapshot.flaggingModal.Some? && snapshot.flaggingModal.value.show &&
      snapshot.flaggingModal.value.item.Some? && fetched.None?
    ensures (snapshot.flaggingModal.Some? && snapshot.flaggingModal.value.show &&
             snapshot.flaggingModal.value.item.Some? && fetched.Some?) ==>
      var r := Reconcile(id, snapshot.flaggingModal.value.item.value, fetched.value);
      effects == if r.Some? then [SetFlaggingItem(r.value)] else []
  {
    match snapshot.flaggingModal
    case Some(FlaggingModal(show, Some(item))) =>
      if !show then []
      else (
        match fetched
        case None => [Throw]
        case Some(o) => (
          match Reconcile(id, item, o)
          case Some(n) => [SetFlaggingItem(n)]
          case None => []))
    case _ => []
  }

  /** Where a loader stands among the `then` body's immediate dispatches (lines 42-45); 4 for any other effect. */
  function ImmediateRank(e: Effect): nat
  {
    if e == Load(ControlledTerms) then 0
    else if e == Load(QualityMetrics) then 1
    else if e == Load(Subscriptions) then 2
    else if e == Load(ObservationPlaces) then 3
    else 4
  }

  /** The loader dispatched `k`-th among lines 42-45. */
  function LoaderOfRank(k: nat): Effect
    requires k < 4
  {
    [Load(ControlledTerms), Load(QualityMetrics), Load(Subscriptions), Load(ObservationPlaces)][k]
  }

  /** The option flag that guards the `k`-th loader. */
  predicate FlagOfRank(options: FetchOptions, k: nat)
    requires k < 4
  {
    [options.fetchControlledTerms, options.fetchQualityMetrics, options.fetchSubscriptions, options.fetchPlaces][k]
  }

  /** The `if` statements of lines 42-45 from the `k`-th on. */
  function LoadsFrom(options: FetchOptions, k: nat): (loads: seq<Effect>)
    decreases 4 - k
    ensures forall i :: 0 <= i < |loads| ==> loads[i].Load? && k <= ImmediateRank(loads[i]) < 4
    ensures forall i, j :: 0 <= i < j < |loads| ==> ImmediateRank(loads[i]) < ImmediateRank(loads[j])
    ensures forall m :: k <= m < 4 ==> (LoaderOfRank(m) in loads <==> FlagOfRank(options, m))
  {
    if k >= 4 then []
    else
      var rest := LoadsFrom(options, k + 1);
      assert ImmediateRank(LoaderOfRank(k)) == k;
      assert LoaderOfRank(k) !in rest;
      (if FlagOfRank(options, k) then [LoaderOfRank(k)] else []) + rest
  }

  /** The loaders the `then` body starts at once, one per option flag (lines 42-45). */
  function ImmediateLoads(options: FetchOptions): (loads: seq<Effect>)
    ensures forall i :: 0 <= i < |loads| ==> loads[i].Load? && ImmediateRank(loads[i]) < 4
    ensures forall i, j :: 0 <= i < j < |loads| ==> ImmediateRank(loads[i]) < ImmediateRank(loads[j])
    ensures Load(ControlledTerms) in loads <==> options.fetchControlledTerms
    ensures Load(QualityMetrics) in loads <==> options.fetchQualityMetrics
    ensures Load(Subscriptions) in loads <==> options.fetchSubscriptions
    ensures Load(ObservationPlaces) in loads <==> options.fetchPlaces
  {
    assert LoaderOfRank(0) == Load(ControlledTerms) && FlagOfRank(options, 0) == options.fetchControlledTerms;
    assert LoaderOfRank(1) == Load(QualityMetrics) && FlagOfRank(options, 1) == options.fetchQualityMetrics;
    assert LoaderOfRank(2) == Load(Subscriptions) && FlagOfRank(options, 2) == options.fetchSubscriptions;
    assert LoaderOfRank(3) == Load(ObservationPlaces) && FlagOfRank(options, 3) == options.fetchPlaces;
    LoadsFrom(options, 0)
  }

  /**
   * The `then` body of `fetchObservation` (lines 39-65); `fetched` is
   * `response.results[0]`. The store is replaced first; the loaders, the
   * delayed batch and the flagging update follow in that order.
   */
  function FetchSucceeded(snapshot: Store, id: Option<int>, options: FetchOptions, fetched: Option<Observation>): (effects: seq<Effect>)
    ensures var n := |ImmediateLoads(options)|;
      && |effects| >= n + 2
      && effects[0] == Dispatch(SetObservation(fetched))
      && effects[1..n + 1] == ImmediateLoads(options)
      && effects[n + 1] == Later(DelayedBatch(options, fetched))
      && effects[n + 2..] == FlaggingUpdate(snapshot, id, fetched)
  {
    var loads := ImmediateLoads(options);
    var flagging := FlaggingUpdate(snapshot, id, fetched);
    var later := Later(DelayedBatch(options, fetched));
    SlicesOfConcat(Dispatch(SetObservation(fetched)), loads, later, flagging);
    [Dispatch(SetObservation(fetched))] + loads + [later] + flagging
  }

  /** Where the parts of `[first] + middle + [next] + rest` sit. */
  lemma SlicesOfConcat(first: Effect, middle: seq<Effect>, next: Effect, rest: seq<Effect>)
    ensures var all := [first] + middle + [next] + rest;
      && |all| == |middle| + |rest| + 2
      && all[0] == first && all[1..|middle| + 1] == middle
      && all[|middle| + 1] == next && all[|middle| + 2..] == rest
  {
  }

  // ---------------------------------------------------------------- mutations

  /** `updateObservation( attributes )` (lines 69-83). */
  function UpdateObservation(s: Store, attributes: Object): (effects: seq<Effect>)
    ensures CallsThenRefetches(s, effects, ObservationsUpdate,
      map["id" := IdValue(CurrentId(s)), "ignore_photos" := Bool(true),
          "observation" := Obj(Assign(map["id" := IdValue(CurrentId(s))], attributes))],
      NO_OPTIONS)
  {
    match s.observation
    case None => [Throw]
    case Some(o) =>
      var payload := map["id" := IdValue(o.id), "ignore_photos" := Bool(true),
                         "observation" := Obj(Assign(map["id" := IdValue(o.id)], attributes))];
      [Call(ObservationsUpdate, payload, Refetch(o.id, NO_OPTIONS), LogToConsole)]
  }

  /** `addComment( body )` (lines 85-99). */
  function AddComment(s: Store, body: string): (effects: seq<Effect>)
    ensures CallsThenRefetches(s, effects, CommentsCreate,
      map["parent_type" := Str("Observation"), "parent_id" := IdValue(CurrentId(s)), "body" := Str(body)],
      NO_OPTIONS)
  {
    match s.observation
    case None => [Throw]
    case Some(o) =>
      var payload := map["parent_type" := Str("Observation"), "parent_id" := IdValue(o.id), "body" := Str(body)];
      [Call(CommentsCreate, payload, Refetch(o.id, NO_OPTIONS), LogToConsole)]
  }

  /** `deleteComment( id )` (lines 101-111). */
  function DeleteComment(s: Store, commentId: int): (effects: seq<Effect>)
    ensures CallsThenRefetches(s, effects, CommentsDelete, map["id" := Int(commentId)], NO_OPTIONS)
  {
    match s.observation
    case None => [Throw]
    case Some(o) => [Call(CommentsDelete, map["id" := Int(commentId)], Refetch(o.id, NO_OPTIONS), LogToConsole)]
  }

  /** `confirmDeleteComment( id )` (lines 114-125): only asks; the deletion waits for the confirmation. */
  function ConfirmDeleteComment(commentId: int): (effects: seq<Effect>)
    ensures !HasCall(effects)
    ensures effects == [ConfirmModal(Prompt("Are you sure you want to delete this comment?", "Yes",
                                            DeleteCommentLater(commentId)))]
  {
    [ConfirmModal(Prompt("Are you sure you want to delete this comment?", "Yes", DeleteCommentLater(commentId)))]
  }

  /** `doAddID( taxon, body, confirmForm )` (lines 127-144). */
  function DoAddID(s: Store, taxon: Taxon, body: string, confirmForm: Option<ConfirmForm>): (effects: seq<Effect>)
    ensures effects != [] && (effects[0].UpdateSession? <==> confirmForm.Some? && confirmForm.value.silenceCoarse)
    ensures confirmForm.Some? && confirmForm.value.silenceCoarse ==>
      effects[0] == UpdateSession(map["prefers_skip_coarer_id_modal" := Bool(true)])
    ensures var rest := if confirmForm.Some? && confirmForm.value.silenceCoarse then effects[1..] else effects;
      CallsThenRefetches(s, rest, IdentificationsCreate,
        map["observation_id" := IdValue(CurrentId(s)), "taxon_id" := Int(taxon.id), "body" := Str(body)],
        NO_OPTIONS)
  {
    var session := if confirmForm.Some? && confirmForm.value.silenceCoarse
      then [UpdateSession(map["prefers_skip_coarer_id_modal" := Bool(true)])] else [];
    session +
      match s.observation
      case None => [Throw]
      case Some(o) =>
        var payload := map["observation_id" := IdValue(o.id), "taxon_id" := Int(taxon.id), "body" := Str(body)];
        [Call(IdentificationsCreate, payload, Refetch(o.id, NO_OPTIONS), LogToConsole)]
  }

  /**
   * `addID( taxon, body )` (lines 146-168): a proposed taxon that is a strict
   * ancestor of the observation's taxon goes through the coarser-ID modal,
   * unless the user prefers to skip it; anything else is added at once.
   */
  function AddID(s: Store, taxon: Taxon, body: string): (effects: seq<Effect>)
    ensures HasConfirm(effects) <==>
      !PrefersSkip(s) && s.observation.Some? && s.observation.value.taxon.Some? &&
      taxon.id != s.observation.value.taxon.value.id &&
      taxon.id in s.observation.value.taxon.value.ancestorIds
    ensures HasConfirm(effects) ==>
      effects == [ConfirmModal(CoarserID(taxon, s.observation.value.taxon.value, "Proceed", AddIDLater(taxon, body)))]
    ensures HasConfirm(effects) ==> !HasCall(effects)
    ensures !HasConfirm(effects) ==> effects == DoAddID(s, taxon, body, None)
  {
    match s.observation
    case Some(o) =>
      if !PrefersSkip(s) && o.taxon.Some? && taxon.id != o.taxon.value.id && taxon.id in o.taxon.value.ancestorIds
      then [ConfirmModal(CoarserID(taxon, o.taxon.value, "Proceed", AddIDLater(taxon, body)))]
      else DoAddID(s, taxon, body, None)
    case None =>
      // `observation.taxon` of undefined throws unless the preference short-circuits first;
      // then `doAddID` throws reading `observation.id`.
      if PrefersSkip(s) then DoAddID(s, taxon, body, None) else [Throw]
  }

  /** `deleteID( id )` (lines 170-180). */
  function DeleteID(s: Store, identificationId: int): (effects: seq<Effect>)
    ensures CallsThenRefetches(s, effects, IdentificationsDelete, map["id" := Int(identificationId)], NO_OPTIONS)
  {
    match s.observation
    case None => [Throw]
    case Some(o) =>
      [Call(IdentificationsDelete, map["id" := Int(identificationId)], Refetch(o.id, NO_OPTIONS), LogToConsole)]
  }

  /** `restoreID( id )` (lines 182-196): marks an identification current again. */
  function RestoreID(s: Store, identificationId: int): (effects: seq<Effect>)
    ensures CallsThenRefetches(s, effects, IdentificationsUpdate,
      map["id" := Int(identificationId), "current" := Bool(true)], NO_OPTIONS)
  {
    match s.observation
    case None => [Throw]
    case Some(o) =>
      var payload := map["id" := Int(identificationId), "current" := Bool(true)];
      [Call(IdentificationsUpdate, payload, Refetch(o.id, NO_OPTIONS), LogToConsole)]
  }

  /**
   * `vote( scope, params )` (lines 198-209): the payload is the observation id
   * overlaid with `params`, plus `scope` when it is truthy.
   */
  function Vote(s: Store, scope: Option<string>, params: Object): (effects: seq<Effect>)
    ensures s.observation.None? <==> effects == [Throw]
    ensures s.observation.Some? ==>
      |effects| == 1 && effects[0].Call? && effects[0].endpoint == ObservationsFave &&
      effects[0].onSuccess == Refetch(CurrentId(s), NO_OPTIONS) && effects[0].onFailure == LogToConsole
    ensures s.observation.Some? ==>
      var p := effects[0].payload;
      && p.Keys == params.Keys + {"id"} + (if Truthy(scope) then {"scope"} else {})
      && p["id"] == (if "id" in params then params["id"] else IdValue(CurrentId(s)))
      && (Truthy(scope) ==> p["scope"] == Str(scope.value))
      && (forall k :: k in params && (k != "scope" || !Truthy(scope)) ==> p[k] == params[k])
  {
    match s.observation
    case None => [Throw]
    case Some(o) =>
      var base := Assign(map["id" := IdValue(o.id)], params);
      var payload := if Truthy(scope) then base["scope" := Str(scope.value)] else base;
      [Call(ObservationsFave, payload, Refetch(o.id, NO_OPTIONS), LogToConsole)]
  }

  /** `unvote( scope )` (lines 211-222). */
  function Unvote(s: Store, scope: Option<string>): (effects: seq<Effect>)
    ensures s.observation.None? <==> effects == [Throw]
    ensures s.observation.Some? ==>
      |effects| == 1 && effects[0].Call? && effects[0].endpoint == ObservationsUnfave &&
      effects[0].onSuccess == Refetch(CurrentId(s), NO_OPTIONS) && effects[0].onFailure == LogToConsole
    ensures s.observation.Some? ==>
      var p := effects[0].payload;
      && p.Keys == {"id"} + (if Truthy(scope) then {"scope"} else {})
      && p["id"] == IdValue(CurrentId(s))
      && (Truthy(scope) ==> p["scope"] == Str(scope.value))
  {
    match s.observation
    case None => [Throw]
    case Some(o) =>
      var base := map["id" := IdValue(o.id)];
      var payload := if Truthy(scope) then base["scope" := Str(scope.value)] else base;
      [Call(ObservationsUnfave, payload, Refetch(o.id, NO_OPTIONS), LogToConsole)]
  }

  /** `fave( )` (lines 224-226): `vote( )` with no scope and no params. */
  function Fave(s: Store): (effects: seq<Effect>)
    ensures CallsThenRefetches(s, effects, ObservationsFave, map["id" := IdValue(CurrentId(s))], NO_OPTIONS)
  {
    assert Assign(map["id" := IdValue(CurrentId(s))], map[]) == map["id" := IdValue(CurrentId(s))];
    Vote(s, None, map[])
  }

  /** `unfave( )` (lines 228-230): `unvote( )` with no scope. */
  function Unfave(s: Store): (effects: seq<Effect>)
    ensures CallsThenRefetches(s, effects, ObservationsUnfave, map["id" := IdValue(CurrentId(s))], NO_OPTIONS)
  {
    Unvote(s, None)
  }

  // ------------------------------------------------- follow and subscribe

  /** `followUser( )` (lines 232-246): only someone else's observation. */
  function FollowUser(s: Store): (effects: seq<Effect>)
    ensures HasCall(effects) <==> Identified(s) && ViewerId(s) != OwnerId(s)
    ensures effects == [Throw] <==> OwnerUnreadable(s)
    ensures !HasCall(effects) && !OwnerUnreadable(s) ==> effects == []
    ensures HasCall(effects) ==>
      effects == [Call(UsersUpdate, map["id" := Int(ViewerId(s)), "friend_id" := Int(OwnerId(s))],
                       ReloadSubscriptions, LogToConsole)]
  {
    if s.config.None? || s.config.value.currentUser.None? || s.observation.None? then []
    else match s.observation.value.user
      case None => [Throw]
      case Some(owner) =>
        var viewer := s.config.value.currentUser.value;
        if viewer.id == owner.id then []
        else [Call(UsersUpdate, map["id" := Int(viewer.id), "friend_id" := Int(owner.id)],
                   ReloadSubscriptions, LogToConsole)]
  }

  /** `unfollowUser( )` (lines 248-265): only someone else's observation. */
  function UnfollowUser(s: Store): (effects: seq<Effect>)
    ensures HasCall(effects) <==> Identified(s) && ViewerId(s) != OwnerId(s)
    ensures effects == [Throw] <==> OwnerUnreadable(s)
    ensures !HasCall(effects) && !OwnerUnreadable(s) ==> effects == []
    ensures HasCall(effects) ==>
      effects == [Call(UsersUpdate, map["id" := Int(ViewerId(s)), "remove_friend_id" := Int(OwnerId(s))],
                       ReloadSubscriptions, LogToConsole)]
  {
    if s.config.None? || s.config.value.currentUser.None? || s.observation.None? then []
    else match s.observation.value.user
      case None => [Throw]
      case Some(owner) =>
        var viewer := s.config.value.currentUser.value;
        if viewer.id == owner.id then []
        else [Call(UsersUpdate, map["id" := Int(viewer.id), "remove_friend_id" := Int(owner.id)],
                   ReloadSubscriptions, LogToConsole)]
  }

  /** `subscribe( )` (lines 267-281): only someone else's observation. */
  function Subscribe(s: Store): (effects: seq<Effect>)
    ensures HasCall(effects) <==> Identified(s) && ViewerId(s) != OwnerId(s)
    ensures effects == [Throw] <==> OwnerUnreadable(s)
    ensures !HasCall(effects) && !OwnerUnreadable(s) ==> effects == []
    ensures HasCall(effects) ==>
      effects == [Call(ObservationsSubscribe, map["id" := IdValue(CurrentId(s))], ReloadSubscriptions, LogToConsole)]
  {
    if s.config.None? || s.config.value.currentUser.None? || s.observation.None? then []
    else match s.observation.value.user
      case None => [Throw]
      case Some(owner) =>
        var viewer := s.config.value.currentUser.value;
        if viewer.id == owner.id then []
        else [Call(ObservationsSubscribe, map["id" := IdValue(s.observation.value.id)],
                   ReloadSubscriptions, LogToConsole)]
  }

  // ------------------------------------------------------------ annotations

  /** `addAnnotation( controlledAttributeID, controlledValueID )` (lines 283-298). */
  function AddAnnotation(s: Store, controlledAttributeId: int, controlledValueId: int): (effects: seq<Effect>)
    ensures CallsThenRefetches(s, effects, AnnotationsCreate,
      map["resource_type" := Str("Observation"), "resource_id" := IdValue(CurrentId(s)),
          "controlled_attribute_id" := Int(controlledAttributeId),
          "controlled_value_id" := Int(controlledValueId)],
      NO_OPTIONS)
  {
    match s.observation
    case None => [Throw]
    case Some(o) =>
      var payload := map["resource_type" := Str("Observation"), "resource_id" := IdValue(o.id),
                         "controlled_attribute_id" := Int(controlledAttributeId),
                         "controlled_value_id" := Int(controlledValueId)];
      [Call(AnnotationsCreate, payload, Refetch(o.id, NO_OPTIONS), LogToConsole)]
  }

  /** `deleteAnnotation( id )` (lines 300-310). */
  function DeleteAnnotation(s: Store, annotationId: int): (effects: seq<Effect>)
    ensures CallsThenRefetches(s, effects, AnnotationsDelete, map["id" := Int(annotationId)], NO_OPTIONS)
  {
    match s.observation
    case None => [Throw]
    case Some(o) => [Call(AnnotationsDelete, map["id" := Int(annotationId)], Refetch(o.id, NO_OPTIONS), LogToConsole)]
  }

  /** `voteAnnotation( id, vote )` (lines 312-322). */
  function VoteAnnotation(s: Store, annotationId: int, vote: Value): (effects: seq<Effect>)
    ensures CallsThenRefetches(s, effects, AnnotationsVote, map["id" := Int(annotationId), "vote" := vote], NO_OPTIONS)
  {
    match s.observation
    case None => [Throw]
    case Some(o) =>
      [Call(AnnotationsVote, map["id" := Int(annotationId), "vote" := vote], Refetch(o.id, NO_OPTIONS), LogToConsole)]
  }

  /** `unvoteAnnotation( id )` (lines 324-334). */
  function UnvoteAnnotation(s: Store, annotationId: int): (effects: seq<Effect>)
    ensures CallsThenRefetches(s, effects, AnnotationsUnvote, map["id" := Int(annotationId)], NO_OPTIONS)
  {
    match s.observation
    case None => [Throw]
    case Some(o) => [Call(AnnotationsUnvote, map["id" := Int(annotationId)], Refetch(o.id, NO_OPTIONS), LogToConsole)]
  }

  // -------------------------------------------------------- quality metrics

  /** `params.agree === "false" ? "no" : "yes"`. */
  function NeedsIdVote(params: Object): Value
  {
    Str(if "agree" in params && params["agree"] == Str("false") then "no" else "yes")
  }

  /**
   * `voteMetric( metric, params )` (lines 336-349): the `needs_id` metric is
   * a scoped fave vote; any other metric is set as a quality metric and the
   * re-fetch also reloads the quality metrics.
   */
  function VoteMetric(s: Store, metric: string, params: Object): (effects: seq<Effect>)
    ensures metric == "needs_id" ==> effects == Vote(s, Some("needs_id"), map["vote" := NeedsIdVote(params)])
    ensures metric == "needs_id" && s.observation.Some? ==>
      effects == [Call(ObservationsFave,
                       map["id" := IdValue(CurrentId(s)), "vote" := NeedsIdVote(params), "scope" := Str("needs_id")],
                       Refetch(CurrentId(s), NO_OPTIONS), LogToConsole)]
    ensures metric != "needs_id" ==>
      CallsThenRefetches(s, effects, ObservationsSetQualityMetric,
        Assign(map["id" := IdValue(CurrentId(s)), "metric" := Str(metric)], params), QUALITY_METRICS_OPTIONS)
  {
    if metric == "needs_id" then
      assert Assign(map["id" := IdValue(CurrentId(s))], map["vote" := NeedsIdVote(params)])["scope" := Str("needs_id")]
          == map["id" := IdValue(CurrentId(s)), "vote" := NeedsIdVote(params), "scope" := Str("needs_id")];
      Vote(s, Some("needs_id"), map["vote" := NeedsIdVote(params)])
    else match s.observation
      case None => [Throw]
      case Some(o) =>
        var payload := Assign(map["id" := IdValue(o.id), "metric" := Str(metric)], params);
        [Call(ObservationsSetQualityMetric, payload, Refetch(o.id, QUALITY_METRICS_OPTIONS), LogToConsole)]
  }

  /** `unvoteMetric( metric )` (lines 351-364). */
  function UnvoteMetric(s: Store, metric: string): (effects: seq<Effect>)
    ensures metric == "needs_id" ==> effects == Unvote(s, Some("needs_id"))
    ensures metric == "needs_id" && s.observation.Some? ==>
      effects == [Call(ObservationsUnfave, map["id" := IdValue(CurrentId(s)), "scope" := Str("needs_id")],
                       Refetch(CurrentId(s), NO_OPTIONS), LogToConsole)]
    ensures metric != "needs_id" ==>
      CallsThenRefetches(s, effects, ObservationsDeleteQualityMetric,
        map["id" := IdValue(CurrentId(s)), "metric" := Str(metric)], QUALITY_METRICS_OPTIONS)
  {
    if metric == "needs_id" then Unvote(s, Some("needs_id"))
    else match s.observation
      case None => [Throw]
      case Some(o) =>
        [Call(ObservationsDeleteQualityMetric, map["id" := IdValue(o.id), "metric" := Str(metric)],
              Refetch(o.id, QUALITY_METRICS_OPTIONS), LogToConsole)]
  }

  // --------------------------------------------------------------- projects

  /** `addToProject( project )` (lines 366-380): only the owner's own observation; failures are reported. */
  function AddToProject(s: Store, project: Project): (effects: seq<Effect>)
    ensures HasCall(effects) <==> Identified(s) && ViewerId(s) == OwnerId(s)
    ensures effects == [Throw] <==> OwnerUnreadable(s)
    ensures !HasCall(effects) && !OwnerUnreadable(s) ==> effects == []
    ensures HasCall(effects) ==>
      effects == [Call(ProjectsAdd, map["id" := Int(project.id), "observation_id" := IdValue(CurrentId(s))],
                       Refetch(CurrentId(s), NO_OPTIONS),
                       ReportAPIError("Failed to add to project " + project.title))]
  {
    if s.config.None? || s.config.value.currentUser.None? || s.observation.None? then []
    else match s.observation.value.user
      case None => [Throw]
      case Some(owner) =>
        var o := s.observation.value;
        if s.config.value.currentUser.value.id != owner.id then []
        else [Call(ProjectsAdd, map["id" := Int(project.id), "observation_id" := IdValue(o.id)],
                   Refetch(o.id, NO_OPTIONS), ReportAPIError("Failed to add to project " + project.title))]
  }

  /** `removeFromProject( project )` (lines 382-396): only the owner's own observation. */
  function RemoveFromProject(s: Store, project: Project): (effects: seq<Effect>)
    ensures HasCall(effects) <==> Identified(s) && ViewerId(s) == OwnerId(s)
    ensures effects == [Throw] <==> OwnerUnreadable(s)
    ensures !HasCall(effects) && !OwnerUnreadable(s) ==> effects == []
    ensures HasCall(effects) ==>
      effects == [Call(ProjectsRemove, map["id" := Int(project.id), "observation_id" := IdValue(CurrentId(s))],
                       Refetch(CurrentId(s), NO_OPTIONS), LogToConsole)]
  {
    if s.config.None? || s.config.value.currentUser.None? || s.observation.None? then []
    else match s.observation.value.user
      case None => [Throw]
      case Some(owner) =>
        var o := s.observation.value;
        if s.config.value.currentUser.value.id != owner.id then []
        else [Call(ProjectsRemove, map["id" := Int(project.id), "observation_id" := IdValue(o.id)],
                   Refetch(o.id, NO_OPTIONS), LogToConsole)]
  }

  /** `confirmRemoveFromProject( project )` (lines 398-409): only asks. */
  function ConfirmRemoveFromProject(project: Project): (effects: seq<Effect>)
    ensures !HasCall(effects)
    ensures effects == [ConfirmModal(Prompt("Are you sure you want to remove this observation from " + project.title + "?",
                                            "Yes", RemoveFromProjectLater(project)))]
  {
    [ConfirmModal(Prompt("Are you sure you want to remove this observation from " + project.title + "?",
                         "Yes", RemoveFromProjectLater(project)))]
  }

  // ------------------------------------------------------------ callbacks

  /** A confirm modal's `onConfirm`, run against the state at confirmation time. */
  function Confirmed(s: Store, deferred: Deferred, confirmForm: Option<ConfirmForm>): (effects: seq<Effect>)
    ensures !HasConfirm(effects)
    ensures HasCall(effects) ==> s.observation.Some?
    ensures forall e <- effects :: e.Call? ==> e.onSuccess == Refetch(CurrentId(s), NO_OPTIONS)
  {
    var effects :=
      match deferred
      case DeleteCommentLater(commentId) => DeleteComment(s, commentId)
      case AddIDLater(taxon, body) => DoAddID(s, taxon, body, confirmForm)
      case RemoveFromProjectLater(project) => RemoveFromProject(s, project);
    HasKindIff(effects);
    effects
  }

  /** A remote call's success continuation, run against the state at that time. */
  function Succeeded(s: Store, next: Then, locale: string): (effects: seq<Effect>)
    ensures !HasCall(effects) && !HasConfirm(effects)
    ensures next.ReloadSubscriptions? ==> effects == [Load(Subscriptions)]
    ensures next.Refetch? ==> |effects| == 1 && (effects[0] == Throw <==> s.config.None?)
    ensures next.Refetch? && s.config.Some? ==>
      effects[0].Fetch? && effects[0].id == next.id && effects[0].options == next.options && effects[0].snapshot == s
  {
    match next
    case Refetch(id, options) => FetchObservation(s, id, options, locale)
    case ReloadSubscriptions => [Load(Subscriptions)]
  }
}
