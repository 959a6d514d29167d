/**
 * The tracker screen's state as a value, and what each tracker action does to it: the
 * specification that the `TrackerViewModel` class is proved against. Targets are the values
 * of the app's `TrackingTarget` objects; coordinates are opaque pairs.
 */
module TrackerSpec {
  import opened Wrappers
  import opened Geo
  import opened Text

  /** A tracked target: the broker client id, its last reported position, and every position reported so far. */
  datatype Target = Target(id: string, currentPosition: Option<LatLng>, path: seq<LatLng>)

  /** A freshly added target: no position yet and an empty path. */
  function NewTarget(id: string): (t: Target)
    ensures t.id == id && t.currentPosition == None && t.path == []
  {
    Target(id, None, [])
  }

  /** The fields of the tracker view state that the view model writes. */
  datatype TrackerView = TrackerView(
    targets: seq<Target>,
    isTracking: bool,
    isAddTargetDialogShown: bool,
    isTargetsDialogShown: bool,
    selectedTargetPathId: string,
    isShowTargetPath: bool,
    isTargetUpdate: bool,
    isShowSelfLocation: bool,
    selfPosition: LatLng)

  /** The actions the tracker screen dispatches (the Android `Context` they carry is not modelled). */
  datatype TrackerAction =
    | StartTrackingTargets
    | StopTrackingTargets
    | StartShowingSelfLocation
    | StopShowingSelfLocation
    | ToggleAddTargetDialog(isAddTargetDialogShown: bool)
    | ToggleShowTargetsDialog(isTargetsDialogShown: bool)
    | AddTarget(targetId: string)
    | DeleteTarget(targetId: string)
    | ShowTargetPath(targetId: string)
    | HideTargetPath

  /** Whether some target has exactly this id. */
  predicate Tracked(ts: seq<Target>, id: string) {
    exists i :: 0 <= i < |ts| && ts[i].id == id
  }

  /** No two targets share an id. */
  predicate UniqueIds(ts: seq<Target>) {
    forall i, j :: 0 <= i < j < |ts| ==> ts[i].id != ts[j].id
  }

  /** Kotlin's `indexOfFirst { it.id == id }`: the first index with that id, or -1 when there is none. */
  function IndexOfFirst(ts: seq<Target>, id: string): (r: int)
    ensures -1 <= r < |ts|
    ensures r == -1 <==> !Tracked(ts, id)
    ensures r != -1 ==> ts[r].id == id && forall i :: 0 <= i < r ==> ts[i].id != id
  {
    if ts == [] then -1
    else if ts[0].id == id then 0
    else
      var k := IndexOfFirst(ts[1..], id);
      assert forall i :: 1 <= i < |ts| ==> ts[i] == ts[1..][i - 1];
      if k == -1 then -1 else k + 1
  }

  /**
   * `addTarget`: the duplicate check compares the id exactly as given, but the new target
   * stores the trimmed id. An id already present leaves the list as it is; otherwise one new
   * target is appended after the unchanged existing ones.
   */
  function Added(ts: seq<Target>, id: string): (r: seq<Target>)
    ensures Tracked(ts, id) ==> r == ts
    ensures !Tracked(ts, id) ==> |r| == |ts| + 1 && r[..|ts|] == ts && r[|ts|] == NewTarget(Trim(id))
  {
    if IndexOfFirst(ts, id) == -1 then ts + [NewTarget(Trim(id))] else ts
  }

  /**
   * `deleteTarget`: removes the first target with that id and keeps the others in order; an
   * unknown id leaves the list as it is.
   */
  function Deleted(ts: seq<Target>, id: string): (r: seq<Target>)
    ensures !Tracked(ts, id) ==> r == ts
    ensures var k := IndexOfFirst(ts, id);
            k != -1 ==> |r| == |ts| - 1 && r[..k] == ts[..k] && r[k..] == ts[k + 1..]
  {
    var k := IndexOfFirst(ts, id);
    if k == -1 then ts else ts[..k] + ts[k + 1..]
  }

  /**
   * `updateTargetPosition`: the first target with that id gets `p` as its position and at the
   * end of its path; every other target is unchanged. The id must be tracked: the source
   * indexes the list without checking.
   */
  function PositionUpdated(ts: seq<Target>, id: string, p: LatLng): (r: seq<Target>)
    requires Tracked(ts, id)
    ensures |r| == |ts|
    ensures var k := IndexOfFirst(ts, id);
            && r[k].id == id && r[k].currentPosition == Some(p)
            && r[k].path == ts[k].path + [p] && |r[k].path| == |ts[k].path| + 1
            && forall i :: 0 <= i < |ts| && i != k ==> r[i] == ts[i]
  {
    var k := IndexOfFirst(ts, id);
    ts[k := ts[k].(currentPosition := Some(p), path := ts[k].path + [p])]
  }

  /** The initial view state: tracking is started as the view model is created. */
  function Initial(): (v: TrackerView)
    ensures v.targets == [] && v.isTracking
  {
    TrackerView([], true, false, false, "", false, false, false, LatLng(0.0, 0.0))
  }

  /** One tracker action applied to the view state. */
  function Step(v: TrackerView, a: TrackerAction): TrackerView {
    match a
    case StartTrackingTargets => v.(isTracking := true)
    case StopTrackingTargets => v.(isTracking := false)
    case StartShowingSelfLocation => v.(isShowSelfLocation := true)
    case StopShowingSelfLocation => v.(isShowSelfLocation := false)
    case ToggleAddTargetDialog(shown) => v.(isAddTargetDialogShown := shown)
    case ToggleShowTargetsDialog(shown) => v.(isTargetsDialogShown := shown)
    case AddTarget(id) => v.(targets := Added(v.targets, id))
    case DeleteTarget(id) => v.(targets := Deleted(v.targets, id))
    case ShowTargetPath(id) => v.(selectedTargetPathId := id, isShowTargetPath := true)
    case HideTargetPath => v.(selectedTargetPathId := "", isShowTargetPath := false)
  }

  /**
   * The broker's message callback: a position for a tracked client id updates that target and
   * flips `isTargetUpdate`; a message from any other client is dropped.
   */
  function Received(v: TrackerView, clientId: string, p: LatLng): TrackerView {
    if IndexOfFirst(v.targets, clientId) == -1 then v
    else v.(targets := PositionUpdated(v.targets, clientId, p), isTargetUpdate := !v.isTargetUpdate)
  }

  /** A device location fix shown on the map. */
  function SelfLocated(v: TrackerView, p: LatLng): TrackerView {
    v.(selfPosition := p)
  }

  /** Each flag action sets exactly its one field and leaves the targets alone. */
  lemma FlagActionsSetOneField(v: TrackerView, shown: bool)
    ensures Step(v, StartTrackingTargets) == v.(isTracking := true)
    ensures Step(v, StopTrackingTargets) == v.(isTracking := false)
    ensures Step(v, StartShowingSelfLocation) == v.(isShowSelfLocation := true)
    ensures Step(v, StopShowingSelfLocation) == v.(isShowSelfLocation := false)
    ensures Step(v, ToggleAddTargetDialog(shown)) == v.(isAddTargetDialogShown := shown)
    ensures Step(v, ToggleShowTargetsDialog(shown)) == v.(isTargetsDialogShown := shown)
  {
  }

  /** Showing a path selects it; hiding clears the selection; neither touches the targets. */
  lemma TargetPathSelection(v: TrackerView, id: string)
    ensures Step(v, ShowTargetPath(id)) == v.(selectedTargetPathId := id, isShowTargetPath := true)
    ensures Step(v, HideTargetPath) == v.(selectedTargetPathId := "", isShowTargetPath := false)
  {
  }

  /** Adding changes only the list. */
  lemma AddOnlyChangesTargets(v: TrackerView, id: string)
    ensures Step(v, AddTarget(id)) == v.(targets := Added(v.targets, id))
  {
  }

  /** Deleting changes only the list: a path shown for the deleted target stays selected. */
  lemma DeleteKeepsPathSelection(v: TrackerView, id: string)
    ensures Step(v, DeleteTarget(id)) == v.(targets := Deleted(v.targets, id))
    ensures Step(v, DeleteTarget(id)).selectedTargetPathId == v.selectedTargetPathId
    ensures Step(v, DeleteTarget(id)).isShowTargetPath == v.isShowTargetPath
  {
  }

  /** A message from an untracked client leaves the whole state unchanged. */
  lemma UntrackedMessageIgnored(v: TrackerView, clientId: string, p: LatLng)
    requires !Tracked(v.targets, clientId)
    ensures Received(v, clientId, p) == v
  {
  }

  /** A target appended to a list that does not track its id is found at the end, so deleting by that id removes it again. */
  lemma DeletedAppended(ts: seq<Target>, t: Target)
    requires !Tracked(ts, t.id)
    ensures IndexOfFirst(ts + [t], t.id) == |ts|
    ensures Deleted(ts + [t], t.id) == ts
  {
    var r := ts + [t];
    assert r[|ts|].id == t.id;
    assert forall i :: 0 <= i < |ts| ==> r[i] == ts[i];
    assert r[..|ts|] == ts;
  }

  /** Adding a trimmed id that is not tracked, then deleting it, restores the list. */
  lemma {:induction false} DeleteUndoesAdd(ts: seq<Target>, id: string)
    requires !Tracked(ts, id) && Trim(id) == id
    ensures Deleted(Added(ts, id), id) == ts
  {
    assert Added(ts, id) == ts + [NewTarget(id)];
    DeletedAppended(ts, NewTarget(id));
  }

  /** An id with surrounding whitespace is stored trimmed, so deleting by the same text finds nothing. */
  lemma DeleteMissesTrimmedTarget()
    ensures Added([], " a") == [NewTarget("a")]
    ensures Deleted(Added([], " a"), " a") == [NewTarget("a")]
  {
    assert LeadingWhitespace(" a") == 1 by {
      assert IsWhitespace(' ') && !IsWhitespace('a');
      assert " a"[1..] == "a";
    }
    assert TrailingWhitespace("a") == 0;
    assert Trim(" a") == "a";
  }

  /** Id uniqueness is not an invariant of adding: " a" passes the duplicate check against "a" and is stored as "a". */
  lemma AddCanDuplicateIds()
    ensures UniqueIds([NewTarget("a")])
    ensures !UniqueIds(Added([NewTarget("a")], " a"))
  {
    DeleteMissesTrimmedTarget();
    var r := Added([NewTarget("a")], " a");
    assert !Tracked([NewTarget("a")], " a");
    assert r[0].id == r[1].id;
  }

  /**
   * Adding keeps the ids unique exactly when the id is already tracked as given, or its
   * trimmed form is not tracked yet.
   */
  lemma {:induction false} AddedKeepsUniqueIds(ts: seq<Target>, id: string)
    requires UniqueIds(ts)
    ensures UniqueIds(Added(ts, id)) <==> Tracked(ts, id) || !Tracked(ts, Trim(id))
  {
    var r := Added(ts, id);
    if !Tracked(ts, id) && Tracked(ts, Trim(id)) {
      var i :| 0 <= i < |ts| && ts[i].id == Trim(id);
      assert r[i].id == r[|ts|].id;
    }
    if !Tracked(ts, id) && !Tracked(ts, Trim(id)) {
      forall i, j | 0 <= i < j < |r| ensures r[i].id != r[j].id {
        if j == |ts| {
          assert r[i] == ts[i];
        } else {
          assert r[i] == ts[i] && r[j] == ts[j];
        }
      }
    }
  }

  /** Deleting keeps the ids unique. */
  lemma {:induction false} DeletedKeepsUniqueIds(ts: seq<Target>, id: string)
    requires UniqueIds(ts)
    ensures UniqueIds(Deleted(ts, id))
  {
    var k := IndexOfFirst(ts, id);
    if k != -1 {
      var r := Deleted(ts, id);
      forall i, j | 0 <= i < j < |r| ensures r[i].id != r[j].id {
        var i' := if i < k then i else i + 1;
        var j' := if j < k then j else j + 1;
        assert r[i] == ts[i'] && r[j] == ts[j'];
      }
    }
  }

  /** A position update keeps every id, so it keeps the ids unique and the target findable. */
  lemma {:induction false} PositionUpdatedKeepsIds(ts: seq<Target>, id: string, p: LatLng)
    requires Tracked(ts, id)
    ensures forall i :: 0 <= i < |ts| ==> PositionUpdated(ts, id, p)[i].id == ts[i].id
    ensures UniqueIds(ts) ==> UniqueIds(PositionUpdated(ts, id, p))
    ensures IndexOfFirst(PositionUpdated(ts, id, p), id) == IndexOfFirst(ts, id)
  {
    var r := PositionUpdated(ts, id, p);
    var k := IndexOfFirst(ts, id);
    assert forall i :: 0 <= i < |ts| ==> r[i].id == ts[i].id;
    assert r[k].id == id;
  }
}
