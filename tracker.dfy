/**
 * The tracker view model (`feature/tracker/TrackerViewModel.kt`): a list of tracked targets
 * held in the view state, edited action by action, and targets whose position and path are
 * updated in place as the broker reports them. Each method is proved against `TrackerSpec`.
 */
module Tracker {
  import opened Wrappers
  import opened Geo
  import opened Text
  import opened Backend
  import opened TrackerSpec

  /** `model/TrackingTarget.kt`: a target object whose position and path are changed in place. */
  class TrackingTarget {
    var id: string
    var currentPosition: Option<LatLng>
    var path: seq<LatLng>

    /** `TrackingTarget(id)`: no position yet and an empty path. */
    constructor (id: string)
      ensures Value() == NewTarget(id)
    {
      this.id := id;
      currentPosition := None;
      path := [];
    }

    /** The target's current value. */
    function Value(): Target
      reads this
    {
      Target(id, currentPosition, path)
    }
  }

  /** The tracker view state: the target objects and the screen's flags. */
  datatype TrackerViewState = TrackerViewState(
    targetsList: seq<TrackingTarget>,
    isTracking: bool,
    isAddTargetDialogShown: bool,
    isTargetsDialogShown: bool,
    selectedTargetPathId: string,
    isShowTargetPath: bool,
    isTargetUpdate: bool,
    isShowSelfLocation: bool,
    selfPosition: LatLng)

  /** A position report from the broker (`hivemq/MqttMessage.kt`). */
  datatype MqttMessage = MqttMessage(clientId: string, latitude: Double, longitude: Double)

  /**
   * The backend requests a tracker action makes, given the signed-in user's id (None when no
   * user is signed in): adding stores the new target only when it was actually added, while
   * deleting asks the backend to delete the id whether or not it was in the list.
   */
  function TrackerCalls(ts: seq<Target>, a: TrackerAction, currentUser: Option<string>): (calls: seq<BackendCall>)
    ensures |calls| <= 1
    ensures currentUser.None? ==> calls == []
    ensures a.AddTarget? && currentUser.Some? && !Tracked(ts, a.targetId)
            ==> calls == [AddTargetDocument(currentUser.value, NewTarget(Trim(a.targetId)))]
    ensures a.AddTarget? && Tracked(ts, a.targetId) ==> calls == []
    ensures a.DeleteTarget? && currentUser.Some? ==> calls == [DeleteTargetDocument(currentUser.value, a.targetId)]
    ensures !a.AddTarget? && !a.DeleteTarget? ==> calls == []
  {
    match (a, currentUser)
    case (AddTarget(id), Some(uid)) =>
      if IndexOfFirst(ts, id) == -1 then [AddTargetDocument(uid, NewTarget(Trim(id)))] else []
    case (DeleteTarget(id), Some(uid)) => [DeleteTargetDocument(uid, id)]
    case _ => []
  }

  /** Objects that are pairwise distinct stay so when one of them is removed. */
  lemma DistinctAfterRemoval(list: seq<TrackingTarget>, k: nat)
    requires k < |list|
    requires forall i, j :: 0 <= i < j < |list| ==> list[i] != list[j]
    ensures var rest := list[..k] + list[k + 1..];
            forall i, j :: 0 <= i < j < |rest| ==> rest[i] != rest[j]
  {
    var rest := list[..k] + list[k + 1..];
    forall i, j | 0 <= i < j < |rest| ensures rest[i] != rest[j] {
      var i' := if i < k then i else i + 1;
      var j' := if j < k then j else j + 1;
      assert rest[i] == list[i'] && rest[j] == list[j'];
    }
  }

  /** Values that mirror a list of objects still mirror it when the same position is removed from both. */
  lemma MirrorAfterRemoval(list: seq<TrackingTarget>, values: seq<Target>, k: nat)
    requires k < |list| == |values|
    requires forall i :: 0 <= i < |values| ==> values[i] == list[i].Value()
    ensures var rest := list[..k] + list[k + 1..];
            var vs := values[..k] + values[k + 1..];
            |vs| == |rest| && forall i :: 0 <= i < |vs| ==> vs[i] == rest[i].Value()
  {
    var rest := list[..k] + list[k + 1..];
    var vs := values[..k] + values[k + 1..];
    forall i | 0 <= i < |vs| ensures vs[i] == rest[i].Value() {
      var i' := if i < k then i else i + 1;
      assert vs[i] == values[i'] && rest[i] == list[i'];
    }
  }

  class TrackerViewModel {
    var viewState: TrackerViewState
    /** The values of the target objects, in list order. */
    ghost var Targets: seq<Target>

    /** `Targets` mirrors the target objects, and no object is listed twice. */
    ghost predicate Valid()
      reads this, viewState.targetsList
    {
      && |Targets| == |viewState.targetsList|
      && (forall i :: 0 <= i < |Targets| ==> Targets[i] == viewState.targetsList[i].Value())
      && (forall i, j :: 0 <= i < j < |viewState.targetsList| ==> viewState.targetsList[i] != viewState.targetsList[j])
    }

    /** The view state as a value. */
    ghost function Snapshot(): TrackerView
      reads this
    {
      var s := viewState;
      TrackerView(Targets, s.isTracking, s.isAddTargetDialogShown, s.isTargetsDialogShown,
                  s.selectedTargetPathId, s.isShowTargetPath, s.isTargetUpdate, s.isShowSelfLocation, s.selfPosition)
    }

    /**
     * Creating the view model starts tracking. (Loading the stored targets from the backend
     * is not modelled; the list starts empty.)
     */
    constructor ()
      ensures Valid() && Snapshot() == Initial()
    {
      viewState := TrackerViewState([], false, false, false, "", false, false, false, LatLng(0.0, 0.0));
      Targets := [];
      new;
      StartTrackingTargets();
    }

    /** `indexOfFirst { it.id == targetId }` over the target list. */
    method IndexOfTarget(targetId: string) returns (index: int)
      requires Valid()
      ensures index == IndexOfFirst(Targets, targetId)
      ensures index == -1 <==> !Tracked(Targets, targetId)
    {
      var list := viewState.targetsList;
      index := 0;
      while index < |list| && list[index].id != targetId
        invariant 0 <= index <= |list|
        invariant forall i :: 0 <= i < index ==> Targets[i].id != targetId
      {
        index := index + 1;
      }
      if index == |list| {
        index := -1;
      } else {
        assert Targets[index].id == targetId;
      }
    }

    /** `addTarget`, with the signed-in user's id as the reply of `getCurrentUser`. */
    method AddTarget(targetId: string, currentUser: Option<string>) returns (calls: seq<BackendCall>)
      requires Valid()
      modifies this
      ensures Valid()
      ensures Snapshot() == old(Snapshot()).(targets := Added(old(Targets), targetId))
      ensures viewState.targetsList[..|old(viewState.targetsList)|] == old(viewState.targetsList)
      ensures calls == if !Tracked(old(Targets), targetId) && currentUser.Some?
                       then [AddTargetDocument(currentUser.value, NewTarget(Trim(targetId)))] else []
    {
      var addIndex := IndexOfTarget(targetId);
      calls := [];
      if addIndex == -1 {
        var newTrackingTarget := new TrackingTarget(Trim(targetId));
        viewState := viewState.(targetsList := viewState.targetsList + [newTrackingTarget]);
        Targets := Targets + [newTrackingTarget.Value()];
        if currentUser.Some? {
          calls := [AddTargetDocument(currentUser.value, newTrackingTarget.Value())];
        }
      }
    }

    /** `removeAt(index)` on the target list: the object at `index` leaves the list, the others keep their order. */
    method RemoveTargetAt(index: nat)
      requires Valid() && index < |viewState.targetsList|
      modifies this
      ensures Valid()
      ensures Targets == old(Targets)[..index] + old(Targets)[index + 1..]
      ensures viewState == old(viewState).(targetsList := viewState.targetsList)
    {
      var list := viewState.targetsList;
      MirrorAfterRemoval(list, Targets, index);
      DistinctAfterRemoval(list, index);
      viewState := viewState.(targetsList := list[..index] + list[index + 1..]);
      Targets := Targets[..index] + Targets[index + 1..];
    }

    /** `deleteTarget`: the backend is asked to delete the id whether or not it was listed. */
    method DeleteTarget(targetId: string, currentUser: Option<string>) returns (calls: seq<BackendCall>)
      requires Valid()
      modifies this
      ensures Valid()
      ensures Snapshot() == old(Snapshot()).(targets := Deleted(old(Targets), targetId))
      ensures calls == if currentUser.Some? then [DeleteTargetDocument(currentUser.value, targetId)] else []
    {
      var deletionIndex := IndexOfTarget(targetId);
      if deletionIndex != -1 {
        RemoveTargetAt(deletionIndex);
      }
      calls := if currentUser.Some? then [DeleteTargetDocument(currentUser.value, targetId)] else [];
    }

    /**
     * `updateTargetPosition`: the first target with that id is changed in place (the list keeps
     * the same objects) and `isTargetUpdate` flips so that the new state differs from the old.
     * The id must be tracked, as the only caller checks.
     */
    method UpdateTargetPosition(targetId: string, latitude: Double, longitude: Double)
      requires Valid() && Tracked(Targets, targetId)
      modifies this, viewState.targetsList
      ensures Valid()
      ensures Snapshot() == Received(old(Snapshot()), targetId, LatLng(latitude, longitude))
      ensures viewState.targetsList == old(viewState.targetsList)
    {
      var updationIndex := IndexOfTarget(targetId);
      var target := viewState.targetsList[updationIndex];
      target.currentPosition := Some(LatLng(latitude, longitude));
      target.path := target.path + [LatLng(latitude, longitude)];
      Targets := Targets[updationIndex := target.Value()];
      viewState := viewState.(isTargetUpdate := !viewState.isTargetUpdate);
    }

    /** The broker's message callback: only messages from tracked clients are applied. */
    method ReceiveMessage(message: MqttMessage)
      requires Valid()
      modifies this, viewState.targetsList
      ensures Valid()
      ensures Snapshot() == Received(old(Snapshot()), message.clientId, LatLng(message.latitude, message.longitude))
      ensures viewState.targetsList == old(viewState.targetsList)
    {
      var trackedTargetId := IndexOfTarget(message.clientId);
      if trackedTargetId != -1 {
        UpdateTargetPosition(message.clientId, message.latitude, message.longitude);
      }
    }

    /** `startTrackingTargets`: sets `isTracking` whether or not the broker connection succeeds. */
    method StartTrackingTargets()
      requires Valid()
      modifies this
      ensures Valid() && Snapshot() == Step(old(Snapshot()), TrackerAction.StartTrackingTargets)
      ensures viewState.targetsList == old(viewState.targetsList)
    {
      viewState := viewState.(isTracking := true);
    }

    /** `stopTrackingTargets`. */
    method StopTrackingTargets()
      requires Valid()
      modifies this
      ensures Valid() && Snapshot() == Step(old(Snapshot()), TrackerAction.StopTrackingTargets)
      ensures viewState.targetsList == old(viewState.targetsList)
    {
      viewState := viewState.(isTracking := false);
    }

    /** `startUpdateSelfPosition`: shows the device location; the location requests are not modelled. */
    method StartUpdateSelfPosition()
      requires Valid()
      modifies this
      ensures Valid() && Snapshot() == Step(old(Snapshot()), TrackerAction.StartShowingSelfLocation)
      ensures viewState.targetsList == old(viewState.targetsList)
    {
      viewState := viewState.(isShowSelfLocation := true);
    }

    /** `stopUpdateSelfPosition`. */
    method StopUpdateSelfPosition()
      requires Valid()
      modifies this
      ensures Valid() && Snapshot() == Step(old(Snapshot()), TrackerAction.StopShowingSelfLocation)
      ensures viewState.targetsList == old(viewState.targetsList)
    {
      viewState := viewState.(isShowSelfLocation := false);
    }

    /** The location callback of `startUpdateSelfPosition`: a fix becomes `selfPosition`. */
    method OnSelfLocation(latitude: Double, longitude: Double)
      requires Valid()
      modifies this
      ensures Valid() && Snapshot() == SelfLocated(old(Snapshot()), LatLng(latitude, longitude))
      ensures viewState.targetsList == old(viewState.targetsList)
    {
      viewState := viewState.(selfPosition := LatLng(latitude, longitude));
    }

    /** The add-target dialog is shown or hidden. */
    method ToggleAddTargetDialog(shown: bool)
      requires Valid()
      modifies this
      ensures Valid() && Snapshot() == Step(old(Snapshot()), TrackerAction.ToggleAddTargetDialog(shown))
      ensures viewState.targetsList == old(viewState.targetsList)
    {
      viewState := viewState.(isAddTargetDialogShown := shown);
    }

    /** The targets dialog is shown or hidden. */
    method ToggleShowTargetsDialog(shown: bool)
      requires Valid()
      modifies this
      ensures Valid() && Snapshot() == Step(old(Snapshot()), TrackerAction.ToggleShowTargetsDialog(shown))
      ensures viewState.targetsList == old(viewState.targetsList)
    {
      viewState := viewState.(isTargetsDialogShown := shown);
    }

    /** The path of one target is selected and shown. */
    method ShowTargetPath(targetId: string)
      requires Valid()
      modifies this
      ensures Valid() && Snapshot() == Step(old(Snapshot()), TrackerAction.ShowTargetPath(targetId))
      ensures viewState.targetsList == old(viewState.targetsList)
    {
      viewState := viewState.(selectedTargetPathId := targetId, isShowTargetPath := true);
    }

    /** The shown path is hidden and the selection cleared. */
    method HideTargetPath()
      requires Valid()
      modifies this
      ensures Valid() && Snapshot() == Step(old(Snapshot()), TrackerAction.HideTargetPath)
      ensures viewState.targetsList == old(viewState.targetsList)
    {
      viewState := viewState.(selectedTargetPathId := "", isShowTargetPath := false);
    }

    /** `handleTrackerAction`: one action applied as one step. */
    method HandleTrackerAction(action: TrackerAction, currentUser: Option<string>) returns (calls: seq<BackendCall>)
      requires Valid()
      modifies this
      ensures Valid()
      ensures Snapshot() == Step(old(Snapshot()), action)
      ensures calls == TrackerCalls(old(Targets), action, currentUser)
    {
      calls := [];
      match action
      case StartTrackingTargets => StartTrackingTargets();
      case StopTrackingTargets => StopTrackingTargets();
      case StartShowingSelfLocation => StartUpdateSelfPosition();
      case StopShowingSelfLocation => StopUpdateSelfPosition();
      case ToggleAddTargetDialog(shown) => ToggleAddTargetDialog(shown);
      case ToggleShowTargetsDialog(shown) => ToggleShowTargetsDialog(shown);
      case AddTarget(id) =>
        AddOnlyChangesTargets(old(Snapshot()), id);
        calls := AddTarget(id, currentUser);
      case DeleteTarget(id) =>
        DeleteKeepsPathSelection(old(Snapshot()), id);
        calls := DeleteTarget(id, currentUser);
      case ShowTargetPath(id) => ShowTargetPath(id);
      case HideTargetPath => HideTargetPath();
    }
  }
}
