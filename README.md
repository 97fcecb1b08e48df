# Observation page actions and project overview map, in Dafny

This project models two pieces of decision logic from the iNaturalist web
front end and proves properties of them.

1. **The observation page's store and action creators**
   (`app/webpack/observations/show/ducks/observation.js`).
   - The reducer replaces the observation slice wholesale.
   - Each action creator (a Redux thunk) reads the store and its arguments and
     produces a sequence of effects: a confirm-modal request, a remote call
     with an exact payload and a success continuation, a plain action, a loader
     of another duck, a flagging-modal update, a session update, a delayed
     batch, or a TypeError.
   - Thunks are modelled as functions from the store to that sequence
     (module `ObservationActions`).
   - Callbacks that run later are data: a confirm modal's `onConfirm` is a
     `Deferred` and a call's `then` is a `Then`. `Confirmed` and `Succeeded`
     interpret them against the store as it is when they run.
   - Most mutations re-fetch the observation when their request succeeds.
     `followUser`, `unfollowUser` and `subscribe` reload subscriptions
     instead, and the project actions send nothing unless the viewer owns
     the observation.
   - The `then` body of `fetchObservation` is `FetchSucceeded`. It reads the
     store *snapshot* taken before the fetch, as the source does.
   - Payloads are maps from property names to JavaScript values, so
     `Object.assign` (later keys win) is exact. For instance, a caller's
     `params` can override the `id` of a vote.
2. **The project overview map** (`app/webpack/projects/show/components/overview_map.jsx`).
   - Without recent-observation bounds, the component folds the place rules'
     GeoJSON bounding boxes into one set of bounds.
   - `OverviewMap.UnionPlaceBounds` is that loop, written as a `while` loop
     over the rules. It is proved equal to the fold `PlaceBounds`.
   - Lemmas prove that the fold is tight (each bound is a minimum or maximum
     that some included place attains) and independent of rule order.
     It fails (`TypeError`) exactly when an included place's ring is too short.
   - `OverviewMap.Props` chooses the title and derives the props; the
     `placeLayers` id is shown to split back into the rules' operand ids.

JavaScript's absent values are `Option`s. The reducer's initial state `{ }` is
an observation with no id and no user. It is truthy, so the follow and
project guards let it through, and reading `observation.user.id` from it
raises. The model raises there too (`Throw`).

## Model

| member | source | states |
|---|---|---|
| ObservationState.Reduce | app/webpack/observations/show/ducks/observation.js:15-23 | the reducer: the state is undefined exactly when a SET_OBSERVATION carries undefined; otherwise it is the carried observation, the prior state, or `{ }` from an undefined start |
| ObservationState.ReduceAll | app/webpack/observations/show/ducks/observation.js:15-23 | the reducer over a sequence of actions: undefined exactly when the last action sets it undefined (or there is none and it started so); the state is the start, `{ }`, or some action's observation |
| ObservationState.SetObservation | app/webpack/observations/show/ducks/observation.js:25-30 | the action carries the observation so that the reducer adopts it even from an undefined state |
| ObservationState.SetObservationReplaces | app/webpack/observations/show/ducks/observation.js:15-18 | SET_OBSERVATION yields exactly the carried observation, whatever the prior state |
| ObservationState.OtherActionsKeepState | app/webpack/observations/show/ducks/observation.js:15-23 | any other action keeps a defined state, and an undefined state becomes the default `{ }` |
| ObservationState.LastSetObservationWins | app/webpack/observations/show/ducks/observation.js:15-23 | when the last SET_OBSERVATION in a sequence carries an observation, the state is that observation, whatever preceded or followed it; an undefined one is replaced by `{ }` at the next action, as the default parameter does |
| ObservationState.NoSetObservationKeepsState | app/webpack/observations/show/ducks/observation.js:15-23 | without SET_OBSERVATION a loaded observation survives every action |
| ObservationActions.FetchObservation | app/webpack/observations/show/ducks/observation.js:32-39 | one fetch of the given id with `preferred_place_id` (or null) and `locale`, continuing against the state read before it; a TypeError without config |
| ObservationActions.ImmediateLoads | app/webpack/observations/show/ducks/observation.js:42-45 | a loader starts exactly when its option flag is set; only the four flagged loaders start, each at most once, in the source's order: controlled terms, quality metrics, subscriptions, places |
| ObservationActions.DelayedBatch | app/webpack/observations/show/ducks/observation.js:46-55 | the three other-observation loaders come first exactly when asked for and are absent otherwise; identifiers are requested with `{taxon_id, per_page: 10}` exactly when asked for, with a taxon whose rank level is at most 50; a TypeError exactly when asked for with no observation; nothing else is in the batch |
| ObservationActions.FindById | app/webpack/observations/show/ducks/observation.js:61-62 | finds an entry exactly when some entry has the id, and what it finds has that id |
| ObservationActions.Reconcile | app/webpack/observations/show/ducks/observation.js:58-62 | the observation itself exactly when fetched under the item's id; else a comment or identification with that id, a comment before any identification; nothing exactly when no candidate matches |
| ObservationActions.FlaggingUpdate | app/webpack/observations/show/ducks/observation.js:56-64 | affects the flagging item only when the snapshot's modal is shown with an item, and then sets it to the reconciled item, or does nothing when none matches |
| ObservationActions.FetchSucceeded | app/webpack/observations/show/ducks/observation.js:39-65 | the fetched observation is dispatched first, then the flagged loaders, then the delayed batch, then the flagging update |
| ObservationActions.UpdateObservation | app/webpack/observations/show/ducks/observation.js:69-83 | one update call carrying the current id, `ignore_photos` and the attributes over the current id, re-fetching the current observation |
| ObservationActions.AddComment | app/webpack/observations/show/ducks/observation.js:85-99 | one comment-create call on the current observation with the body, then a re-fetch |
| ObservationActions.DeleteComment | app/webpack/observations/show/ducks/observation.js:101-111 | one comment-delete call for that comment, then a re-fetch of the current observation |
| ObservationActions.ConfirmDeleteComment | app/webpack/observations/show/ducks/observation.js:114-125 | only opens the "Yes" prompt; no call is sent |
| ObservationActions.DoAddID | app/webpack/observations/show/ducks/observation.js:127-144 | the session preference is saved first exactly when `silenceCoarse` is set; then one create call `{observation_id, taxon_id, body}` and a re-fetch |
| ObservationActions.AddID | app/webpack/observations/show/ducks/observation.js:146-168 | the "Proceed" coarser-ID modal, and no call, exactly when the user does not skip it, the observation has a taxon, and the proposed taxon differs from it and is among its ancestors; otherwise exactly a direct add |
| ObservationActions.DeleteID | app/webpack/observations/show/ducks/observation.js:170-180 | one identification-delete call, then a re-fetch |
| ObservationActions.RestoreID | app/webpack/observations/show/ducks/observation.js:182-196 | one identification-update call with `current: true`, then a re-fetch |
| ObservationActions.Vote | app/webpack/observations/show/ducks/observation.js:198-209 | one fave call whose payload is the current id overridden by `params`, plus `scope` exactly when it is truthy |
| ObservationActions.Unvote | app/webpack/observations/show/ducks/observation.js:211-222 | one unfave call with the current id, plus `scope` exactly when it is truthy |
| ObservationActions.Fave | app/webpack/observations/show/ducks/observation.js:224-226 | a fave call with the id alone, no scope |
| ObservationActions.Unfave | app/webpack/observations/show/ducks/observation.js:228-230 | an unfave call with the id alone, no scope |
| ObservationActions.FollowUser | app/webpack/observations/show/ducks/observation.js:232-246 | a `friend_id` call exactly when viewer and owner are known and differ; nothing when a slice is missing; a TypeError when the owner is missing |
| ObservationActions.UnfollowUser | app/webpack/observations/show/ducks/observation.js:248-265 | a `remove_friend_id` call exactly when viewer and owner are known and differ |
| ObservationActions.Subscribe | app/webpack/observations/show/ducks/observation.js:267-281 | a subscribe call exactly when viewer and owner are known and differ |
| ObservationActions.AddAnnotation | app/webpack/observations/show/ducks/observation.js:283-298 | one annotation-create call on the current observation, then a re-fetch |
| ObservationActions.DeleteAnnotation | app/webpack/observations/show/ducks/observation.js:300-310 | one annotation-delete call, then a re-fetch |
| ObservationActions.VoteAnnotation | app/webpack/observations/show/ducks/observation.js:312-322 | one annotation-vote call `{id, vote}`, then a re-fetch |
| ObservationActions.UnvoteAnnotation | app/webpack/observations/show/ducks/observation.js:324-334 | one annotation-unvote call, then a re-fetch |
| ObservationActions.VoteMetric | app/webpack/observations/show/ducks/observation.js:336-349 | `needs_id` becomes a fave with `scope: "needs_id"` and vote "no" exactly when `agree` is "false"; other metrics set a quality metric and re-fetch with quality metrics |
| ObservationActions.UnvoteMetric | app/webpack/observations/show/ducks/observation.js:351-364 | `needs_id` becomes an unfave with that scope; other metrics delete the quality metric and re-fetch with quality metrics |
| ObservationActions.AddToProject | app/webpack/observations/show/ducks/observation.js:366-380 | a `{id: project.id, observation_id}` call exactly when the viewer owns the observation; its failures are reported |
| ObservationActions.RemoveFromProject | app/webpack/observations/show/ducks/observation.js:382-396 | the same owner-only call to the remove endpoint; failures are logged |
| ObservationActions.ConfirmRemoveFromProject | app/webpack/observations/show/ducks/observation.js:398-409 | only opens the prompt naming the project; no call is sent |
| ObservationActions.Confirmed | app/webpack/observations/show/ducks/observation.js:120-122 | an `onConfirm` closure (also lines 160-162 and 404-406) run against the state at confirmation: it opens no further modal, sends a call only when an observation is loaded, and every call it sends re-fetches the observation current at confirmation |
| ObservationActions.Succeeded | app/webpack/observations/show/ducks/observation.js:77-79 | a `.then` closure (also line 275 and the other mutations): a re-fetch is one fetch of that id with those options against the state at that time, or a TypeError exactly without config; the subscribe path reloads subscriptions; neither sends a mutating call nor opens a modal |
| ObservationProperties.FindByIdTakesFirst | app/webpack/observations/show/ducks/observation.js:61-62 | the search returns the first entry with the id |
| ObservationProperties.ReconcilePicksFirstComment | app/webpack/observations/show/ducks/observation.js:59-61 | when the fetched id is not the item's, the first matching comment becomes the item |
| ObservationProperties.ReconcilePicksFirstIdentification | app/webpack/observations/show/ducks/observation.js:59-62 | when no comment matches, the first matching identification becomes the item |
| ObservationProperties.FetchReplacesObservation | app/webpack/observations/show/ducks/observation.js:39-41 | a resolved fetch replaces the observation slice with the fetched record, whatever it held |
| ObservationProperties.MutationRefetchesCurrent | app/webpack/observations/show/ducks/observation.js:69-364 | each mutation of a loaded observation other than follow/unfollow/subscribe (lines 232-281, which reload subscriptions instead) and the owner-only project actions (which send nothing for a non-owner) sends one request, as its last effect, whose success issues exactly one fetch of the observation current when it ran |
| ObservationProperties.SubscriptionMutationsReload | app/webpack/observations/show/ducks/observation.js:232-281 | when viewer and owner differ, following, unfollowing and subscribing each send one request whose success reloads subscriptions, not the observation |
| ObservationProperties.ProjectMutationRefetchesCurrent | app/webpack/observations/show/ducks/observation.js:366-396 | for the owner, a project add or remove sends one request whose success re-fetches the observation |
| ObservationProperties.OwnerGuardsAreOpposite | app/webpack/observations/show/ducks/observation.js:232-396 | with viewer and owner known, exactly one of follow/subscribe and project add/remove sends a request |
| ObservationProperties.GuardsNeedViewerAndObservation | app/webpack/observations/show/ducks/observation.js:232-396 | without config, current user or observation, none of the guarded actions does anything |
| ObservationProperties.CoarserIDConfirmAdds | app/webpack/observations/show/ducks/observation.js:127-168 | confirming the coarser-ID modal adds the identification with the confirmed form: the session is updated exactly when the box was ticked, and the request is the one a direct add sends |
| ObservationProperties.CoarserIDOnlyForStrictAncestors | app/webpack/observations/show/ducks/observation.js:146-168 | with the skip preference, without a taxon, for the same taxon or a non-ancestor, the identification is added directly |
| ObservationProperties.ConfirmDeleteCommentDeletes | app/webpack/observations/show/ducks/observation.js:101-125 | confirming the prompt deletes that comment and re-fetches |
| ObservationProperties.ConfirmRemoveFromProjectRemoves | app/webpack/observations/show/ducks/observation.js:382-409 | confirming the prompt runs the owner-guarded removal against the state at confirmation time |
| ObservationProperties.NeedsIdIsAVote | app/webpack/observations/show/ducks/observation.js:336-364 | `needs_id` and only it reaches the fave/unfave endpoints; other metrics re-fetch with quality metrics |
| ObservationProperties.NeedsIdVoteReadsOnlyAgree | app/webpack/observations/show/ducks/observation.js:336-339 | the `needs_id` vote depends on `params` only through `agree === "false"` |
| OverviewMap.Step | app/webpack/projects/show/components/overview_map.jsx:12-23 | one turn of `_.each`: a skipped rule keeps the bounds; a TypeError exactly when an included ring is unreadable; otherwise every field is set, south-west fields no greater and north-east fields no smaller than both the old value and the rule's corner |
| OverviewMap.PlaceBounds | app/webpack/projects/show/components/overview_map.jsx:10-24 | the loop as a fold from all-null bounds: no rules keeps all four null, and the only failure is the TypeError; with `PlaceBoundsOkIff`, `PlaceBoundsTight` and `OrderIrrelevant` it is the tight, order-independent union |
| OverviewMap.PlaceBoundsOkIff | app/webpack/projects/show/components/overview_map.jsx:12-24 | the union raises exactly when an included rule's ring lacks one of the positions it reads |
| OverviewMap.PlaceBoundsTight | app/webpack/projects/show/components/overview_map.jsx:14-22 | each field is null exactly when no rule is included; otherwise it bounds every included coordinate (min for south-west, max for north-east) and is attained by one |
| OverviewMap.NoIncludedRuleKeepsNull | app/webpack/projects/show/components/overview_map.jsx:11-13 | rules without place or bounding box are skipped; if none qualifies all four fields stay null |
| OverviewMap.OrderIrrelevant | app/webpack/projects/show/components/overview_map.jsx:12-24 | rule lists holding the same rules, in any order and with repeats, give the same union |
| OverviewMap.UnionPlaceBounds | app/webpack/projects/show/components/overview_map.jsx:9-25 | the loop computes exactly the fold `PlaceBounds` over the rules in order |
| OverviewMap.OperandIds | app/webpack/projects/show/components/overview_map.jsx:46 | one decimal numeral per rule, in rule order |
| OverviewMap.PlaceLayers | app/webpack/projects/show/components/overview_map.jsx:44-49 | null exactly when there are no rules; otherwise a layer named "Places" whose id splits on "," back into the operand ids in rule order |
| OverviewMap.Props | app/webpack/projects/show/components/overview_map.jsx:6-54 | recent bounds are used unchanged under "map_of_observations"; otherwise place rules give "map" and the union as min/max X/Y, or a TypeError exactly when a ring is unreadable |
| Strings.SplitJoin | app/webpack/projects/show/components/overview_map.jsx:46 | splitting a join on its separator gives the parts back when none contains it |

## Left out

- Network: the API client's requests are `Call` and `Fetch` effects. Nothing is sent and no response is modelled beyond the fetched observation. A promise rejection is only the `OnFailure` tag (console log or `handleAPIError`); `fetchObservation` has no failure handler at all.
- Timing and concurrency: `setTimeout( …, 2000 )` is the `Later` effect with no time semantics. Overlapping requests, whichever response lands last, and the uncancelled timer are not modelled.
- The other ducks' thunks (controlled terms, quality metrics, subscriptions, places, other observations, identifiers, the confirm and flagging modals, `updateSession`) are opaque effects; their own logic is not part of this model.
- `I18n`: the title is the translation key and `I18n.locale` is a parameter. React rendering, `TaxonMap`'s constant props, the `google.maps` control options and the Bootstrap grid are UI.
- JavaScript values are simplified. `null` and `undefined` are both `None`, except that the reducer treats `None` as `undefined` when it applies its default. A taxon's `rank_level: null` is read as absent, so it never requests identifiers, whereas `null <= 50` is true in JavaScript. `prefers_skip_coarer_id_modal` and `show` are booleans. A missing `comments` or `identifications` array is the empty sequence. A response whose `results` array itself is missing is not modelled; a missing `results[0]` is.
- The store's setup (how the slice reducers are combined) is not part of this model. A `results[0]` that is missing is dispatched and the rest of the `then` body runs; a combined Redux store would instead throw on a slice reducer returning `undefined`, and nothing after that dispatch would run.
- Overview map inputs are simplified. A non-empty `total_bounds` with some keys missing reads them as null. GeoJSON positions always hold two numbers. `operand_id` is a non-negative integer, written in decimal as `join` writes it.
- Floating point: coordinates and rank levels are reals. `Math.min`/`Math.max` on `NaN` are not modelled.
- `app/controllers/taxon_frameworks_controller.rb` is not part of this model. It is Rails CRUD plumbing over the ORM. Its one rule, the rank-level notice for non-admins, sits behind an admin-only filter.
