/**
 * `NavigationService`: the follow-mode switch, the person being followed
 * and the last tracked position.
 */
module Navigation {
  import opened Wrappers

  datatype FollowMode = Active | Inactive

  datatype Position = Position(x: real, y: real, z: real)

  /** The fixed position the tracker reports. */
  const TrackedPosition: Position := Position(2.5, 0.5, 1.8)

  datatype FollowToggle =
    | Activated(tracking: string)
    | Deactivated
    | PersonIdRequired                    // 'Person ID required to activate follow mode'
  {
    predicate Success() { !PersonIdRequired? }
  }

  datatype FollowStatus = FollowStatus(followMode: FollowMode, isActive: bool,
                                       trackedPerson: Option<string>, lastPosition: Position)

  datatype TrackResult =
    | Tracked(personId: string, position: Position, distance: real, trackingConfidence: real)
    | FollowModeNotActive

  /** Python's truth test on an optional string: `None` and `""` are both false. */
  predicate Truthy(s: Option<string>) {
    s.Some? && s.value != ""
  }

  class NavigationService {
    var followMode: FollowMode
    var trackedPersonId: Option<string>
    var lastPosition: Position

    /** Follow mode is active exactly while a (non-empty) person id is being tracked. */
    ghost predicate Valid()
      reads this
    {
      (followMode == Active <==> trackedPersonId.Some?) && Truthy(trackedPersonId) == trackedPersonId.Some?
    }

    /** Inactive, following nobody, at the origin. */
    constructor ()
      ensures Valid()
      ensures followMode == Inactive && trackedPersonId.None? && lastPosition == Position(0.0, 0.0, 0.0)
    {
      followMode := Inactive;
      trackedPersonId := None;
      lastPosition := Position(0.0, 0.0, 0.0);
    }

    /** `toggle_follow_mode`: activation needs a non-empty person id; deactivation always succeeds. */
    method ToggleFollowMode(activate: bool, personId: Option<string>) returns (r: FollowToggle)
      modifies this
      ensures lastPosition == old(lastPosition)
      ensures activate && !Truthy(personId) ==>
        r == PersonIdRequired && followMode == old(followMode) && trackedPersonId == old(trackedPersonId)
      ensures activate && Truthy(personId) ==>
        r == Activated(personId.value) && followMode == Active && trackedPersonId == personId
      ensures !activate ==> r == Deactivated && followMode == Inactive && trackedPersonId.None?
      ensures r.Success() <==> !activate || Truthy(personId)
      ensures r.Success() ==> Valid()
      ensures old(Valid()) ==> Valid()
    {
      if activate {
        if !Truthy(personId) {
          return PersonIdRequired;
        }
        followMode := Active;
        trackedPersonId := personId;
        r := Activated(personId.value);
      } else {
        followMode := Inactive;
        trackedPersonId := None;
        r := Deactivated;
      }
    }

    /** `get_follow_status` */
    function GetFollowStatus(): (st: FollowStatus)
      reads this
      ensures st.isActive <==> followMode == Active
      ensures st.followMode == followMode && st.trackedPerson == trackedPersonId
      ensures st.lastPosition == lastPosition
    {
      FollowStatus(followMode, followMode == Active, trackedPersonId, lastPosition)
    }

    /** `track_person`: refused unless following; otherwise the reported position becomes the last position. */
    method TrackPerson(personId: string) returns (r: TrackResult)
      modifies this
      ensures old(Valid()) ==> Valid()
      ensures followMode == old(followMode) && trackedPersonId == old(trackedPersonId)
      ensures old(followMode) != Active ==> r == FollowModeNotActive && lastPosition == old(lastPosition)
      ensures old(followMode) == Active ==>
        r.Tracked? && r.personId == personId && lastPosition == r.position == TrackedPosition
    {
      if followMode != Active {
        return FollowModeNotActive;
      }
      var position := TrackedPosition;
      lastPosition := position;
      r := Tracked(personId, position, 2.6, 0.93);
    }
  }
}
