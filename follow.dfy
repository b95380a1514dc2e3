/**
 * The follow-stats controller bound to one target user: the counts and the
 * follow relation, a `loading` flag and the last error message.
 *
 * As in the session manager, each action is a step function over the whole
 * `FollowState` value and the `FollowHook` class performs that step on its
 * fields. The gateway call of an action is its `outcome` parameter; the
 * guards that reject an action before any call ignore it.
 */
module Follow {
  import opened Wrappers
  import opened Gateway

  const UserIdRequired := "User ID required"
  const CannotFollowSelf := "You cannot follow yourself"
  const CannotUnfollowSelf := "You cannot unfollow yourself"
  const FollowFailed := "Failed to follow user"
  const UnfollowFailed := "Failed to unfollow user"
  const FetchFailed := "Failed to fetch follow stats"
  const RefreshFailed := "Failed to refresh follow stats"

  datatype FollowStats = FollowStats(followersCount: int, followingCount: int, isFollowing: bool)

  datatype FollowState = FollowState(stats: FollowStats, loading: bool, error: Option<string>)

  /** Zero counts, not following, loading, no error. */
  const InitialState := FollowState(FollowStats(0, 0, false), true, None)

  /** A target id is usable when present and truthy (not 0). */
  predicate HasTarget(userId: Option<int>): (b: bool)
    ensures userId.None? ==> !b
    ensures userId == Some(0) ==> !b
    ensures userId.Some? && userId.value != 0 ==> b
  {
    userId.Some? && userId.value != 0
  }

  /**
   * The signed-in viewer is the target. It is only asked once a target is
   * known; without a signed-in viewer the comparison never holds.
   */
  predicate IsSelf(currentUser: Option<User>, userId: Option<int>): (b: bool)
    ensures currentUser.None? ==> !b
    ensures currentUser.Some? && HasTarget(userId) ==> (b <==> currentUser.value.id == userId.value)
  {
    currentUser.Some? && userId.Some? && currentUser.value.id == userId.value
  }

  /** Both guards of follow and unfollow pass, so the gateway is called. */
  predicate GuardsPass(userId: Option<int>, currentUser: Option<User>)
  {
    HasTarget(userId) && !IsSelf(currentUser, userId)
  }

  /** The update applied after a successful follow, and as the "revert" of a failed unfollow. */
  function Followed(s: FollowStats): FollowStats
  {
    s.(isFollowing := true, followersCount := s.followersCount + 1)
  }

  /** The update applied after a successful unfollow, and as the "revert" of a failed follow. */
  function Unfollowed(s: FollowStats): FollowStats
  {
    s.(isFollowing := false, followersCount := s.followersCount - 1)
  }

  /**
   * The fetch effect. Without a target nothing happens; otherwise success
   * replaces the whole record and failure keeps it and records the message.
   */
  function FetchStep(st: FollowState, userId: Option<int>, outcome: Outcome<FollowStats>): (r: FollowState)
    ensures !HasTarget(userId) ==> r == st
    ensures HasTarget(userId) ==> !r.loading
    ensures HasTarget(userId) && outcome.Ok? ==> r.stats == outcome.value && r.error.None?
    ensures outcome.Err? ==> r.stats == st.stats
    ensures HasTarget(userId) && outcome.Err? ==> r.error == Some(OrDefault(outcome.error, FetchFailed))
  {
    if !HasTarget(userId) then st
    else
      match outcome
      case Ok(stats) => FollowState(stats, false, None)
      case Err(e, _, _, _) => FollowState(st.stats, false, Some(OrDefault(e, FetchFailed)))
  }

  /**
   * Follow. The guards reject a missing target and the viewer themself
   * without touching the state. Past them, success marks the relation and
   * adds one follower; failure clears the relation and takes one follower
   * away, although nothing was added before the call.
   */
  function FollowStep(st: FollowState, userId: Option<int>, currentUser: Option<User>, outcome: Outcome<()>)
    : (r: (FollowState, Reply<()>))
    ensures !HasTarget(userId) ==> r == (st, Failed(UserIdRequired, None))
    ensures HasTarget(userId) && IsSelf(currentUser, userId) ==> r == (st, Failed(CannotFollowSelf, None))
    ensures GuardsPass(userId, currentUser) ==>
              !r.0.loading && r.0.stats.followingCount == st.stats.followingCount &&
              (r.1.Done? <==> outcome.Ok?) &&
              r.0.stats.isFollowing == outcome.Ok? &&
              r.0.stats.followersCount == st.stats.followersCount + (if outcome.Ok? then 1 else -1)
    ensures GuardsPass(userId, currentUser) && outcome.Ok? ==> r.0.error.None?
    ensures GuardsPass(userId, currentUser) && outcome.Err? ==>
              r.1 == FailureReply(outcome, FollowFailed) && r.0.error == Some(r.1.error)
    ensures !r.1.Expired?
  {
    if !HasTarget(userId) then (st, Failed(UserIdRequired, None))
    else if IsSelf(currentUser, userId) then (st, Failed(CannotFollowSelf, None))
    else
      match outcome
      case Ok(_) => (FollowState(Followed(st.stats), false, None), Done(()))
      case Err(e, f, _, _) =>
        var message := OrDefault(e, FollowFailed);
        (FollowState(Unfollowed(st.stats), false, Some(message)), Failed(message, f))
  }

  /** Unfollow: the mirror image of follow, with its own messages. */
  function UnfollowStep(st: FollowState, userId: Option<int>, currentUser: Option<User>, outcome: Outcome<()>)
    : (r: (FollowState, Reply<()>))
    ensures !HasTarget(userId) ==> r == (st, Failed(UserIdRequired, None))
    ensures HasTarget(userId) && IsSelf(currentUser, userId) ==> r == (st, Failed(CannotUnfollowSelf, None))
    ensures GuardsPass(userId, currentUser) ==>
              !r.0.loading && r.0.stats.followingCount == st.stats.followingCount &&
              (r.1.Done? <==> outcome.Ok?) &&
              r.0.stats.isFollowing == outcome.Err? &&
              r.0.stats.followersCount == st.stats.followersCount + (if outcome.Ok? then -1 else 1)
    ensures GuardsPass(userId, currentUser) && outcome.Ok? ==> r.0.error.None?
    ensures GuardsPass(userId, currentUser) && outcome.Err? ==>
              r.1 == FailureReply(outcome, UnfollowFailed) && r.0.error == Some(r.1.error)
    ensures !r.1.Expired?
  {
    if !HasTarget(userId) then (st, Failed(UserIdRequired, None))
    else if IsSelf(currentUser, userId) then (st, Failed(CannotUnfollowSelf, None))
    else
      match outcome
      case Ok(_) => (FollowState(Unfollowed(st.stats), false, None), Done(()))
      case Err(e, f, _, _) =>
        var message := OrDefault(e, UnfollowFailed);
        (FollowState(Followed(st.stats), false, Some(message)), Failed(message, f))
  }

  /** Toggle unfollows exactly when the viewer currently follows, and follows otherwise. */
  function ToggleStep(st: FollowState, userId: Option<int>, currentUser: Option<User>, outcome: Outcome<()>)
    : (r: (FollowState, Reply<()>))
    ensures st.stats.isFollowing ==> r == UnfollowStep(st, userId, currentUser, outcome)
    ensures !st.stats.isFollowing ==> r == FollowStep(st, userId, currentUser, outcome)
    ensures GuardsPass(userId, currentUser) && outcome.Ok? ==> r.0.stats.isFollowing == !st.stats.isFollowing
  {
    if st.stats.isFollowing then UnfollowStep(st, userId, currentUser, outcome)
    else FollowStep(st, userId, currentUser, outcome)
  }

  /**
   * Refresh: like the fetch effect, but it answers the caller (nothing at
   * all without a target) and uses its own default message.
   */
  function RefreshStep(st: FollowState, userId: Option<int>, outcome: Outcome<FollowStats>)
    : (r: (FollowState, Option<Reply<FollowStats>>))
    ensures !HasTarget(userId) ==> r == (st, None)
    ensures HasTarget(userId) ==> r.1.Some? && !r.0.loading && (r.1.value.Done? <==> outcome.Ok?)
    ensures HasTarget(userId) && outcome.Ok? ==>
              r.0.stats == outcome.value && r.0.error.None? && r.1 == Some(Done(outcome.value))
    ensures outcome.Err? ==> r.0.stats == st.stats
    ensures HasTarget(userId) && outcome.Err? ==>
              r.1 == Some(FailureReply(outcome, RefreshFailed)) && r.0.error == Some(r.1.value.error)
  {
    if !HasTarget(userId) then (st, None)
    else
      match outcome
      case Ok(stats) => (FollowState(stats, false, None), Some(Done(stats)))
      case Err(e, f, _, _) =>
        var message := OrDefault(e, RefreshFailed);
        (FollowState(st.stats, false, Some(message)), Some(Failed(message, f)))
  }

  /** A rejected follow or unfollow does not depend on what the gateway would have answered: no call is made. */
  lemma GuardedActionsIgnoreGateway(st: FollowState, userId: Option<int>, currentUser: Option<User>,
                                    o1: Outcome<()>, o2: Outcome<()>)
    requires !GuardsPass(userId, currentUser)
    ensures FollowStep(st, userId, currentUser, o1) == FollowStep(st, userId, currentUser, o2)
    ensures UnfollowStep(st, userId, currentUser, o1) == UnfollowStep(st, userId, currentUser, o2)
  {
  }

  /** A successful follow followed by a successful unfollow restores the counts and the relation. */
  lemma FollowThenUnfollowRestores(st: FollowState, userId: Option<int>, currentUser: Option<User>)
    requires GuardsPass(userId, currentUser)
    requires !st.stats.isFollowing
    ensures var followed := FollowStep(st, userId, currentUser, Ok(())).0;
            var back := UnfollowStep(followed, userId, currentUser, Ok(())).0;
            back.stats == st.stats && !back.loading && back.error.None?
  {
  }

  /** Two successful toggles in a row return the record to where it started. */
  lemma ToggleTwiceRestores(st: FollowState, userId: Option<int>, currentUser: Option<User>)
    requires GuardsPass(userId, currentUser)
    ensures ToggleStep(ToggleStep(st, userId, currentUser, Ok(())).0, userId, currentUser, Ok(())).0.stats == st.stats
  {
  }

  /**
   * A failed follow leaves the follower count one below where it started
   * (from 10 it ends at 9, from 0 at -1): the "revert" undoes an increment
   * that was never applied.
   */
  lemma FailedFollowEndsOneBelow(st: FollowState, userId: Option<int>, currentUser: Option<User>, failure: Outcome<()>)
    requires GuardsPass(userId, currentUser)
    requires failure.Err?
    ensures var after := FollowStep(st, userId, currentUser, failure).0;
            after.stats.followersCount == st.stats.followersCount - 1 && !after.stats.isFollowing
  {
  }

  /** Without a target the fetch effect returns early, so `loading` stays at its initial true. */
  lemma NoTargetStaysLoading(userId: Option<int>, outcome: Outcome<FollowStats>)
    requires !HasTarget(userId)
    ensures FetchStep(InitialState, userId, outcome).loading
  {
  }

  /** The controller the follow hook keeps for one target. */
  class FollowHook {
    const userId: Option<int>
    var stats: FollowStats
    var loading: bool
    var error: Option<string>

    function State(): FollowState
      reads this
    {
      FollowState(stats, loading, error)
    }

    constructor (userId: Option<int>)
      ensures this.userId == userId && State() == InitialState
    {
      this.userId := userId;
      stats := FollowStats(0, 0, false);
      loading := true;
      error := None;
    }

    /** The effect that runs when the target or the viewer changes. */
    method FetchFollowStats(outcome: Outcome<FollowStats>)
      modifies this
      ensures State() == FetchStep(old(State()), userId, outcome)
    {
      if !HasTarget(userId) {
        return;
      }
      loading := true;
      error := None;
      match outcome {
        case Ok(s) =>
          stats := s;
        case Err(e, _, _, _) =>
          error := Some(OrDefault(e, FetchFailed));
      }
      loading := false;
    }

    method FollowUser(currentUser: Option<User>, outcome: Outcome<()>) returns (reply: Reply<()>)
      modifies this
      ensures (State(), reply) == FollowStep(old(State()), userId, currentUser, outcome)
    {
      if !HasTarget(userId) {
        return Failed(UserIdRequired, None);
      }
      if IsSelf(currentUser, userId) {
        return Failed(CannotFollowSelf, None);
      }
      loading := true;
      error := None;
      match outcome {
        case Ok(_) =>
          stats := stats.(isFollowing := true, followersCount := stats.followersCount + 1);
          reply := Done(());
        case Err(e, f, _, _) =>
          var message := OrDefault(e, FollowFailed);
          error := Some(message);
          stats := stats.(isFollowing := false, followersCount := stats.followersCount - 1);
          reply := Failed(message, f);
      }
      loading := false;
    }

    method UnfollowUser(currentUser: Option<User>, outcome: Outcome<()>) returns (reply: Reply<()>)
      modifies this
      ensures (State(), reply) == UnfollowStep(old(State()), userId, currentUser, outcome)
    {
      if !HasTarget(userId) {
        return Failed(UserIdRequired, None);
      }
      if IsSelf(currentUser, userId) {
        return Failed(CannotUnfollowSelf, None);
      }
      loading := true;
      error := None;
      match outcome {
        case Ok(_) =>
          stats := stats.(isFollowing := false, followersCount := stats.followersCount - 1);
          reply := Done(());
        case Err(e, f, _, _) =>
          var message := OrDefault(e, UnfollowFailed);
          error := Some(message);
          stats := stats.(isFollowing := true, followersCount := stats.followersCount + 1);
          reply := Failed(message, f);
      }
      loading := false;
    }

    method ToggleFollow(currentUser: Option<User>, outcome: Outcome<()>) returns (reply: Reply<()>)
      modifies this
      ensures (State(), reply) == ToggleStep(old(State()), userId, currentUser, outcome)
    {
      if stats.isFollowing {
        reply := UnfollowUser(currentUser, outcome);
      } else {
        reply := FollowUser(currentUser, outcome);
      }
    }

    method RefreshStats(outcome: Outcome<FollowStats>) returns (reply: Option<Reply<FollowStats>>)
      modifies this
      ensures (State(), reply) == RefreshStep(old(State()), userId, outcome)
    {
      if !HasTarget(userId) {
        return None;
      }
      loading := true;
      error := None;
      match outcome {
        case Ok(s) =>
          stats := s;
          reply := Some(Done(s));
        case Err(e, f, _, _) =>
          var message := OrDefault(e, RefreshFailed);
          error := Some(message);
          reply := Some(Failed(message, f));
      }
      loading := false;
    }

    method ClearError()
      modifies this
      ensures State() == old(State()).(error := None)
    {
      error := None;
    }
  }
}
