/** The Thread role tracker: when the node counts as detached and since when. */
module ThreadLink {
  import opened Base

  datatype Role = Disabled | Detached | Child | Router | Leader

  /** `static_cast<uint32_t>(otDeviceRole)`. */
  function RoleCode(r: Role): Word {
    match r
    case Disabled => 0
    case Detached => 1
    case Child => 2
    case Router => 3
    case Leader => 4
  }

  /** The change flags the handler looks at. */
  datatype Flags = Flags(role: bool, rlocAdded: bool, rlocRemoved: bool, partition: bool)

  const ALL := Flags(true, true, true, true)

  /** What OpenThread reports during one call: no instance, or a role and perhaps a parent's RLOC16. */
  datatype Observation = Observation(instance: bool, role: Role, ms: int, parent: Option<int>)
  {
    predicate Sees(r: Role) {
      instance && role == r
    }
  }

  datatype ThreadState = ThreadState(lastRole: Role, detached: bool, sinceMs: int,
                                     hasParent: bool, parentRloc: int)

  const UNLINKED := ThreadState(Disabled, false, 0, false, 0)

  datatype Edge = Steady | WentDetached | Reattached

  function EdgeOf(t: ThreadState, flags: Flags, o: Observation): Edge {
    if !o.instance || !flags.role || o.role == t.lastRole then Steady
    else if o.role == Detached && !t.detached then WentDetached
    else if o.role != Detached && t.detached then Reattached
    else Steady
  }

  function TrackRole(t: ThreadState, flags: Flags, o: Observation): ThreadState {
    if !o.instance || !flags.role || o.role == t.lastRole then t
    else
      match EdgeOf(t, flags, o)
      case WentDetached => t.(detached := true, sinceMs := o.ms, lastRole := o.role)
      case Reattached => t.(detached := false, sinceMs := 0, lastRole := o.role)
      case Steady => t.(lastRole := o.role)
  }

  function TrackParent(t: ThreadState, flags: Flags, o: Observation): ThreadState {
    if !o.instance || flags == Flags(false, false, false, false) then t
    else if o.role == Child then
      if o.parent.Some? && (!t.hasParent || t.parentRloc != o.parent.value)
      then t.(parentRloc := o.parent.value, hasParent := true)
      else t
    else if t.hasParent then t.(hasParent := false, parentRloc := 0)
    else t
  }

  function Handle(t: ThreadState, flags: Flags, o: Observation): ThreadState {
    TrackParent(TrackRole(t, flags, o), flags, o)
  }

  /** The tracker after a sequence of policy-tick observations. */
  function Track(obs: seq<Observation>): ThreadState {
    if obs == [] then UNLINKED
    else Handle(Track(obs[..|obs| - 1]), ALL, obs[|obs| - 1])
  }

  /** From observation j on, every role that was observed was DETACHED. */
  ghost predicate DetachedFrom(obs: seq<Observation>, j: int) {
    && 0 <= j < |obs|
    && obs[j].Sees(Detached)
    && forall i | j <= i < |obs| && obs[i].instance :: obs[i].role == Detached
  }

  /** The history definition of the current detachment: the earliest such observation. */
  ghost predicate DetachmentStarts(obs: seq<Observation>, j: int) {
    DetachedFrom(obs, j) && forall h | DetachedFrom(obs, h) :: j <= h
  }

  lemma DetachedFromStep(obs: seq<Observation>, j: int)
    requires obs != []
    ensures var n := |obs| - 1;
            DetachedFrom(obs, j) <==>
              if !obs[n].instance then DetachedFrom(obs[..n], j)
              else obs[n].role == Detached && (j == n || DetachedFrom(obs[..n], j))
  {
    var n := |obs| - 1;
    assert forall i | 0 <= i < n :: obs[..n][i] == obs[i];
    if DetachedFrom(obs[..n], j) && (!obs[n].instance || obs[n].role == Detached) {
      forall i | j <= i < |obs| && obs[i].instance ensures obs[i].role == Detached {
        if i < n {
          assert obs[..n][i].instance;
        }
      }
    }
  }

  /** The tracker always equals the history: detached iff a detachment is running, dated from where it began. */
  lemma {:induction false} TrackerMatchesHistory(obs: seq<Observation>)
    ensures Track(obs).detached <==> Track(obs).lastRole == Detached
    ensures Track(obs).detached <==> exists j :: DetachmentStarts(obs, j)
    ensures forall j | DetachmentStarts(obs, j) :: Track(obs).sinceMs == obs[j].ms
    ensures !Track(obs).detached ==> Track(obs).sinceMs == 0 && forall j :: !DetachedFrom(obs, j)
  {
    if obs != [] {
      var n := |obs| - 1;
      var front := obs[..n];
      TrackerMatchesHistory(front);
      forall j ensures DetachedFrom(obs, j) <==>
                         if !obs[n].instance then DetachedFrom(front, j)
                         else obs[n].role == Detached && (j == n || DetachedFrom(front, j)) {
        DetachedFromStep(obs, j);
      }
      if Track(front).detached {
        var j :| DetachmentStarts(front, j);
        if !obs[n].instance || obs[n].role == Detached {
          assert DetachmentStarts(obs, j);
        }
      } else if obs[n].Sees(Detached) {
        assert DetachmentStarts(obs, n);
      }
    }
  }

  /** A parent is remembered only while the node is a child, and its address only while it is remembered. */
  lemma {:induction false} ParentOnlyAsChild(obs: seq<Observation>)
    ensures Track(obs).hasParent ==> Track(obs).lastRole == Child
    ensures !Track(obs).hasParent ==> Track(obs).parentRloc == 0
  {
    if obs != [] {
      ParentOnlyAsChild(obs[..|obs| - 1]);
    }
  }

  /** The role last observed; none counts as disabled. */
  function LatestRole(obs: seq<Observation>): Role {
    if obs == [] then Disabled
    else if obs[|obs| - 1].instance then obs[|obs| - 1].role
    else LatestRole(obs[..|obs| - 1])
  }

  lemma {:induction false} TrackerHasLatestRole(obs: seq<Observation>)
    ensures Track(obs).lastRole == LatestRole(obs)
  {
    if obs != [] {
      TrackerHasLatestRole(obs[..|obs| - 1]);
    }
  }

  /** v is OpenThread's number for a role. */
  predicate Numbers(v: int, r: Role) {
    && (r == Disabled ==> v == 0) && (r == Detached ==> v == 1) && (r == Child ==> v == 2)
    && (r == Router ==> v == 3) && (r == Leader ==> v == 4)
  }

  /** Observation j reports a parent, and from it on every role that was observed was CHILD. */
  ghost predicate Reports(obs: seq<Observation>, j: int) {
    && 0 <= j < |obs|
    && obs[j].Sees(Child) && obs[j].parent.Some?
    && forall i | j <= i < |obs| && obs[i].instance :: obs[i].role == Child
  }

  ghost predicate LatestReport(obs: seq<Observation>, j: int) {
    Reports(obs, j) && forall h | Reports(obs, h) :: h <= j
  }

  lemma ReportsStep(obs: seq<Observation>, j: int)
    requires obs != []
    ensures var n := |obs| - 1;
            Reports(obs, j) <==>
              if !obs[n].instance then Reports(obs[..n], j)
              else obs[n].role == Child && ((j == n && obs[n].parent.Some?) || Reports(obs[..n], j))
  {
    var n := |obs| - 1;
    assert forall i | 0 <= i < n :: obs[..n][i] == obs[i];
    if Reports(obs[..n], j) && (!obs[n].instance || obs[n].role == Child) {
      forall i | j <= i < |obs| && obs[i].instance ensures obs[i].role == Child {
        if i < n {
          assert obs[..n][i].instance;
        }
      }
    }
  }

  /** The remembered parent always equals the history: the latest one reported since the node last became a child. */
  lemma {:induction false} ParentMatchesHistory(obs: seq<Observation>)
    ensures Track(obs).hasParent <==> exists j :: LatestReport(obs, j)
    ensures forall j | LatestReport(obs, j) :: Track(obs).parentRloc == obs[j].parent.value
    ensures !Track(obs).hasParent ==> Track(obs).parentRloc == 0 && forall j :: !Reports(obs, j)
  {
    if obs != [] {
      var n := |obs| - 1;
      var front := obs[..n];
      ParentMatchesHistory(front);
      ParentOnlyAsChild(front);
      forall j ensures Reports(obs, j) <==>
                         if !obs[n].instance then Reports(front, j)
                         else obs[n].role == Child && ((j == n && obs[n].parent.Some?) || Reports(front, j)) {
        ReportsStep(obs, j);
      }
      if obs[n].Sees(Child) && obs[n].parent.Some? {
        assert LatestReport(obs, n);
      } else if Track(front).hasParent && (!obs[n].instance || obs[n].role == Child) {
        var j :| LatestReport(front, j);
        assert LatestReport(obs, j);
      }
    }
  }

  /** The tracker reports a new detachment exactly at the observation where one begins. */
  lemma EdgeIsStart(obs: seq<Observation>)
    requires obs != []
    ensures EdgeOf(Track(obs[..|obs| - 1]), ALL, obs[|obs| - 1]) == WentDetached
            <==> DetachmentStarts(obs, |obs| - 1)
  {
    var n := |obs| - 1;
    TrackerMatchesHistory(obs[..n]);
    forall j ensures DetachedFrom(obs, j) <==>
                       if !obs[n].instance then DetachedFrom(obs[..n], j)
                       else obs[n].role == Detached && (j == n || DetachedFrom(obs[..n], j)) {
      DetachedFromStep(obs, j);
    }
  }

  /** How many observations caused the given edge. */
  function Edges(obs: seq<Observation>, e: Edge): nat {
    if obs == [] then 0
    else
      var n := |obs| - 1;
      Edges(obs[..n], e) + if EdgeOf(Track(obs[..n]), ALL, obs[n]) == e then 1 else 0
  }

  lemma {:induction false} EdgesBalance(obs: seq<Observation>)
    ensures Edges(obs, WentDetached) - Edges(obs, Reattached) == if Track(obs).detached then 1 else 0
  {
    if obs != [] {
      EdgesBalance(obs[..|obs| - 1]);
    }
  }
}
