/** syncVolumes, control flow only: the persistent volumes are compared with
    the size the manifest declares, and resized only when they need it. */
module Volumes {
  import opened Results
  import opened Objects

  /** What the helpers answer: volumesNeedResizing (whether to act, or an
      error) and resizeVolumes. */
  datatype VolumesWorld = VolumesWorld(needsResizing: Result<bool>, resize: Outcome)

  function SyncVolumes(w: VolumesWorld): (Outcome, seq<Call>)
  {
    match w.needsResizing
    case Failure(e) => (Fail(Wrapped(e)), [CompareVolumes])
    case Success(act) =>
      if !act then (Pass, [CompareVolumes])
      else if w.resize.Fail? then (Fail(Wrapped(w.resize.error)), [CompareVolumes, ResizeVolumes])
      else (Pass, [CompareVolumes, ResizeVolumes])
  }

  /** The volumes are resized exactly when the comparison succeeded and
      found a volume to resize; the stage fails exactly when the comparison
      or the resize does; every call is a volumes-stage call. */
  lemma SyncVolumesContract(w: VolumesWorld)
    ensures var (err, calls) := SyncVolumes(w);
            && |calls| >= 1 && calls[0] == CompareVolumes
            && (ResizeVolumes in calls <==> w.needsResizing == Success(true))
            && (err.Pass? <==> w.needsResizing.Success? && (w.needsResizing.value ==> w.resize.Pass?))
            && AllAt(calls, VolumesStage)
  {
    var (err, calls) := SyncVolumes(w);
    assert forall i :: 0 <= i < |calls| ==> calls[i] in {CompareVolumes, ResizeVolumes};
  }
}
