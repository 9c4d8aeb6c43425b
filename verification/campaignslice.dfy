/** The campaign slice of the client store: its state, the actions its reducer handles, the
    reducer as a specification function, and the store object whose fields each case rewrites. */
module CampaignSlice {
  import opened Common
  import opened CampaignDocs

  /** What a cached collection holds: an array of documents (the initial and the cleared value
      is the empty array), a single document's data, a document reference (what `addDoc`
      resolves to), or `undefined` (what a thunk that caught an error returns). */
  datatype Cached = Undefined | Entries(entries: seq<Entry>) | Doc(campaign: Campaign) | DocRef(refId: string)

  const Cleared: Cached := Entries([])

  datatype Status = Idle | Loading | Succeeded | Failed

  /** The seven asynchronous operations. */
  datatype Thunk =
    | GetAllCampaigns
    | AddUserCampaign
    | AddUserDonation
    | GetCurrentCampaign
    | UpdateCurrentCampaign
    | GetAllUserCampaigns
    | GetAllUserDonations

  /** The actions the reducer handles: the three phases of each thunk, and the reset. */
  datatype Action =
    | Pending(thunk: Thunk)
    | Fulfilled(thunk: Thunk, payload: Cached)
    | Rejected(thunk: Thunk, message: Option<string>)
    | ReturnToInitialState

  /** How a thunk's body ends: it returns a value, or it throws (outside its `try`). */
  datatype Outcome = Resolved(value: Cached) | Thrown(message: Option<string>)

  /** The action that settles a thunk: a returned value fulfils it, a throw rejects it. */
  function Settle(t: Thunk, o: Outcome): (a: Action)
    ensures (a.Fulfilled? || a.Rejected?) && a.thunk == t
    ensures a.Fulfilled? <==> o.Resolved?
    ensures a.Fulfilled? ==> a.payload == o.value
    ensures a.Rejected? ==> a.message == o.message
  {
    match o
    case Resolved(v) => Fulfilled(t, v)
    case Thrown(m) => Rejected(t, m)
  }

  /** The four cached collections. */
  datatype Slot = AllCampaigns | UserCampaigns | UserDonations | CurrentCampaign

  datatype SliceState = SliceState(
    allCampaigns: Cached,
    userCampaigns: Cached,
    userDonations: Cached,
    currentCampaign: Cached,
    status: Status,
    error: Option<string>)

  /** `initialState`: four empty arrays, status "idle", no error. */
  function InitialState(): (s: SliceState)
    ensures forall k :: Get(s, k) == Cleared
    ensures s.status == Idle && s.error == None
  {
    SliceState(Cleared, Cleared, Cleared, Cleared, Idle, None)
  }

  /** The collection each thunk's cases write. */
  function SlotOf(t: Thunk): (k: Slot)
    ensures k == AllCampaigns <==> t == GetAllCampaigns
    ensures k == UserCampaigns <==> t == GetAllUserCampaigns
    ensures k == UserDonations <==> t == GetAllUserDonations
    ensures k == CurrentCampaign <==>
              t in {AddUserCampaign, AddUserDonation, GetCurrentCampaign, UpdateCurrentCampaign}
  {
    match t
    case GetAllCampaigns => AllCampaigns
    case AddUserCampaign => CurrentCampaign
    case AddUserDonation => CurrentCampaign
    case GetCurrentCampaign => CurrentCampaign
    case UpdateCurrentCampaign => CurrentCampaign
    case GetAllUserCampaigns => UserCampaigns
    case GetAllUserDonations => UserDonations
  }

  function Get(s: SliceState, k: Slot): Cached
  {
    match k
    case AllCampaigns => s.allCampaigns
    case UserCampaigns => s.userCampaigns
    case UserDonations => s.userDonations
    case CurrentCampaign => s.currentCampaign
  }

  function Put(s: SliceState, k: Slot, v: Cached): SliceState
  {
    match k
    case AllCampaigns => s.(allCampaigns := v)
    case UserCampaigns => s.(userCampaigns := v)
    case UserDonations => s.(userDonations := v)
    case CurrentCampaign => s.(currentCampaign := v)
  }

  /** The status an action leaves behind. */
  function StatusAfter(a: Action): Status
  {
    match a
    case Pending(_) => Loading
    case Fulfilled(_, _) => Succeeded
    case Rejected(_, _) => Failed
    case ReturnToInitialState => Idle
  }

  /** The error an action leaves behind: a rejection's message, otherwise none. */
  function ErrorAfter(a: Action): Option<string>
  {
    if a.Rejected? then a.message else None
  }

  /** The reducer. A reset gives the initial state. A thunk's action writes that thunk's
      collection (pending and rejected clear it, fulfilled stores the payload), sets the
      shared status and error, and leaves the other three collections as they were. */
  function Reduce(s: SliceState, a: Action): (r: SliceState)
    ensures a.ReturnToInitialState? ==> r == InitialState()
    ensures !a.ReturnToInitialState? ==>
              && (forall k :: k != SlotOf(a.thunk) ==> Get(r, k) == Get(s, k))
              && Get(r, SlotOf(a.thunk)) == (if a.Fulfilled? then a.payload else Cleared)
    ensures r.status == StatusAfter(a) && r.error == ErrorAfter(a)
  {
    match a
    case ReturnToInitialState => InitialState()
    case Pending(t) => Put(s, SlotOf(t), Cleared).(status := Loading, error := None)
    case Fulfilled(t, p) => Put(s, SlotOf(t), p).(status := Succeeded, error := None)
    case Rejected(t, m) => Put(s, SlotOf(t), Cleared).(status := Failed, error := m)
  }

  /** The state after a series of actions, one after another. */
  function ReduceAll(s: SliceState, actions: seq<Action>): SliceState
    decreases |actions|
  {
    if actions == [] then s else ReduceAll(Reduce(s, actions[0]), actions[1..])
  }

  /** `returnToInitialState` gives the initial state from any state; a second reset changes
      nothing. */
  lemma ResetIsIdempotent(s: SliceState)
    ensures Reduce(s, ReturnToInitialState) == InitialState()
    ensures Reduce(Reduce(s, ReturnToInitialState), ReturnToInitialState)
            == Reduce(s, ReturnToInitialState)
  {
  }

  /** A collection keeps its value through any series of actions that neither resets the
      store nor belongs to a thunk that writes that collection. */
  lemma {:induction false} UntouchedSlotKeepsValue(s: SliceState, actions: seq<Action>, k: Slot)
    requires forall i :: 0 <= i < |actions| ==>
               !actions[i].ReturnToInitialState? && SlotOf(actions[i].thunk) != k
    ensures Get(ReduceAll(s, actions), k) == Get(s, k)
    decreases |actions|
  {
    if actions != [] {
      UntouchedSlotKeepsValue(Reduce(s, actions[0]), actions[1..], k);
    }
  }

  /** Status and error are shared by all operations: after any non-empty series of actions
      they are those of the last action, whatever the earlier ones were. */
  lemma {:induction false} LastActionDecidesStatus(s: SliceState, actions: seq<Action>)
    requires |actions| >= 1
    ensures ReduceAll(s, actions).status == StatusAfter(actions[|actions| - 1])
    ensures ReduceAll(s, actions).error == ErrorAfter(actions[|actions| - 1])
    decreases |actions|
  {
    if |actions| > 1 {
      LastActionDecidesStatus(Reduce(s, actions[0]), actions[1..]);
    }
  }

  /** A thunk that caught a remote failure returns `undefined`, which fulfils it: the store
      shows success with an `undefined` collection, not a failure. */
  lemma CaughtFailureLooksLikeSuccess(s: SliceState, t: Thunk)
    ensures var r := Reduce(s, Settle(t, Resolved(Undefined)));
            r.status == Succeeded && r.error == None && Get(r, SlotOf(t)) == Undefined
  {
  }

  /** The store's slice state, updated in place by each dispatched action. */
  class CampaignStore {
    var allCampaigns: Cached
    var userCampaigns: Cached
    var userDonations: Cached
    var currentCampaign: Cached
    var status: Status
    var error: Option<string>

    function Snapshot(): SliceState
      reads this
    {
      SliceState(allCampaigns, userCampaigns, userDonations, currentCampaign, status, error)
    }

    constructor ()
      ensures Snapshot() == InitialState()
    {
      allCampaigns, userCampaigns, userDonations, currentCampaign := Cleared, Cleared, Cleared, Cleared;
      status, error := Idle, None;
    }

    /** The reducer's cases, each assigning the fields it names. */
    method Dispatch(a: Action)
      modifies this
      ensures Snapshot() == Reduce(old(Snapshot()), a)
    {
      match a
      case ReturnToInitialState =>
        allCampaigns := Cleared;
        userCampaigns := Cleared;
        userDonations := Cleared;
        currentCampaign := Cleared;
        status := Idle;
        error := None;

      case Pending(GetAllCampaigns) =>
        allCampaigns := Cleared; status := Loading; error := None;
      case Fulfilled(GetAllCampaigns, payload) =>
        allCampaigns := payload; status := Succeeded; error := None;
      case Rejected(GetAllCampaigns, message) =>
        allCampaigns := Cleared; status := Failed; error := message;

      case Pending(AddUserCampaign) =>
        currentCampaign := Cleared; status := Loading; error := None;
      case Fulfilled(AddUserCampaign, payload) =>
        currentCampaign := payload; status := Succeeded; error := None;
      case Rejected(AddUserCampaign, message) =>
        currentCampaign := Cleared; status := Failed; error := message;

      case Pending(AddUserDonation) =>
        currentCampaign := Cleared; status := Loading; error := None;
      case Fulfilled(AddUserDonation, payload) =>
        currentCampaign := payload; status := Succeeded; error := None;
      case Rejected(AddUserDonation, message) =>
        currentCampaign := Cleared; status := Failed; error := message;

      case Pending(GetCurrentCampaign) =>
        currentCampaign := Cleared; status := Loading; error := None;
      case Fulfilled(GetCurrentCampaign, payload) =>
        currentCampaign := payload; status := Succeeded; error := None;
      case Rejected(GetCurrentCampaign, message) =>
        currentCampaign := Cleared; status := Failed; error := message;

      case Pending(UpdateCurrentCampaign) =>
        currentCampaign := Cleared; status := Loading; error := None;
      case Fulfilled(UpdateCurrentCampaign, payload) =>
        currentCampaign := payload; status := Succeeded; error := None;
      case Rejected(UpdateCurrentCampaign, message) =>
        currentCampaign := Cleared; status := Failed; error := message;

      case Pending(GetAllUserCampaigns) =>
        userCampaigns := Cleared; status := Loading; error := None;
      case Fulfilled(GetAllUserCampaigns, payload) =>
        userCampaigns := payload; status := Succeeded; error := None;
      case Rejected(GetAllUserCampaigns, message) =>
        userCampaigns := Cleared; status := Failed; error := message;

      case Pending(GetAllUserDonations) =>
        userDonations := Cleared; status := Loading; error := None;
      case Fulfilled(GetAllUserDonations, payload) =>
        userDonations := payload; status := Succeeded; error := None;
      case Rejected(GetAllUserDonations, message) =>
        userDonations := Cleared; status := Failed; error := message;
    }
  }
}
