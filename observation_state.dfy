/**
 * The Redux state of the observation page and the observation reducer
 * (app/webpack/observations/show/ducks/observation.js, lines 13-30).
 *
 * The store is the combination of three slices read by the action creators:
 * `config`, `observation` and `flaggingModal`. An absent slice (`undefined`)
 * is `None`. The observation slice starts as the empty object `{ }`, which is
 * truthy but has no id and no user; that is why an observation's `id` and
 * `user` are optional.
 */
module ObservationState {
  import opened Wrappers

  /** A taxon: its id, its rank level (lower is more specific; fractional levels such as 33.5 exist) and its ancestor ids. */
  datatype Taxon = Taxon(id: int, rankLevel: Option<real>, ancestorIds: seq<int>)

  /** A comment or an identification; the model keeps its id and an opaque content. */
  datatype Entry = Entry(id: int, content: string)

  datatype User = User(id: int)

  datatype Observation = Observation(
    id: Option<int>,
    user: Option<User>,
    taxon: Option<Taxon>,
    comments: seq<Entry>,
    identifications: seq<Entry>)

  /** The signed-in user as held in `config.currentUser`. */
  datatype CurrentUser = CurrentUser(id: int, prefersSkipCoarserIdModal: bool)

  datatype Place = Place(id: int)

  datatype Config = Config(currentUser: Option<CurrentUser>, preferredPlace: Option<Place>)

  /** The item a flagging modal points at: the observation itself, or one of its comments or identifications. */
  datatype FlagItem =
    | FlaggedObservation(observation: Observation)
    | FlaggedEntry(entry: Entry)
  {
    /** The item's `id` property; the empty observation `{ }` has none. */
    function Id(): Option<int>
    {
      match this
      case FlaggedObservation(o) => o.id
      case FlaggedEntry(e) => Some(e.id)
    }
  }

  datatype FlaggingModal = FlaggingModal(show: bool, item: Option<FlagItem>)

  datatype Store = Store(
    config: Option<Config>,
    observation: Option<Observation>,
    flaggingModal: Option<FlaggingModal>)

  /** The reducer's default state `{ }`. */
  const BLANK: Observation := Observation(None, None, None, [], [])

  const SET_OBSERVATION: string := "obs-show/observation/SET_OBSERVATION"

  /** A Redux action as seen by this reducer: its type and its `observation` property. */
  datatype Action = Action(kind: string, observation: Option<Observation>)

  /** `setObservation`: the action that carries a fetched observation. */
  function SetObservation(observation: Option<Observation>): (a: Action)
    ensures Reduce(None, a) == observation
  {
    Action(SET_OBSERVATION, observation)
  }

  /**
   * `reducer( state = { }, action )`. An undefined state is replaced by the
   * default `{ }` before the action is looked at.
   */
  function Reduce(state: Option<Observation>, action: Action): (r: Option<Observation>)
    ensures r.None? <==> action.kind == SET_OBSERVATION && action.observation.None?
    ensures r == action.observation || r == state || (state.None? && r == Some(BLANK))
  {
    if action.kind == SET_OBSERVATION then action.observation
    else if state.None? then Some(BLANK)
    else state
  }

  /** The state after the reducer has seen each action in turn. */
  function ReduceAll(state: Option<Observation>, actions: seq<Action>): (r: Option<Observation>)
    decreases |actions|
    ensures r.None? <==>
      if actions == [] then state.None?
      else actions[|actions| - 1].kind == SET_OBSERVATION && actions[|actions| - 1].observation.None?
    ensures r == state || r == Some(BLANK) || exists i :: 0 <= i < |actions| && r == actions[i].observation
  {
    if actions == [] then state
    else Reduce(ReduceAll(state, actions[..|actions| - 1]), actions[|actions| - 1])
  }

  /** SET_OBSERVATION yields exactly the carried observation, whatever the prior state. */
  lemma SetObservationReplaces(state: Option<Observation>, o: Option<Observation>)
    ensures Reduce(state, SetObservation(o)) == o
  {
  }

  /** Every other action leaves a defined state untouched, and turns an undefined one into `{ }`. */
  lemma OtherActionsKeepState(state: Option<Observation>, action: Action)
    requires action.kind != SET_OBSERVATION
    ensures state.Some? ==> Reduce(state, action) == state
    ensures state.None? ==> Reduce(state, action) == Some(BLANK)
  {
  }

  /**
   * The last SET_OBSERVATION wins: after any sequence of actions, the state is
   * the observation carried by the last SET_OBSERVATION among them, whatever
   * came before it and whatever other actions followed.
   */
  lemma {:induction false} LastSetObservationWins(state: Option<Observation>, actions: seq<Action>, i: nat)
    requires i < |actions|
    requires actions[i].kind == SET_OBSERVATION && actions[i].observation.Some?
    requires forall j :: i < j < |actions| ==> actions[j].kind != SET_OBSERVATION
    ensures ReduceAll(state, actions) == actions[i].observation
    decreases |actions|
  {
    if i < |actions| - 1 {
      var prefix := actions[..|actions| - 1];
      assert forall j :: i < j < |prefix| ==> prefix[j] == actions[j];
      LastSetObservationWins(state, prefix, i);
    } else {
      assert actions[|actions| - 1] == actions[i];
    }
  }

  /** Without any SET_OBSERVATION, a loaded observation survives every action. */
  lemma {:induction false} NoSetObservationKeepsState(state: Option<Observation>, actions: seq<Action>)
    requires state.Some?
    requires forall j :: 0 <= j < |actions| ==> actions[j].kind != SET_OBSERVATION
    ensures ReduceAll(state, actions) == state
    decreases |actions|
  {
    if actions != [] {
      var prefix := actions[..|actions| - 1];
      assert forall j :: 0 <= j < |prefix| ==> prefix[j] == actions[j];
      NoSetObservationKeepsState(state, prefix);
    }
  }
}
