/** The atomic replacement of the file that holds a token document. Whatever another user of the
    path could notice is recorded, where it happens, as a step of the sharing protocol. */
module TokenFiles {
  import opened Common
  import opened TokenDocuments
  import opened TokenSharing

  /** The steps of writing a document that may be written. */
  function WriteSteps(who: nat, value: Value, fault: Fault): seq<Step> {
    if !Replaces(value, fault) then [Offer(who, value), Abandon(who)]
    else [Offer(who, value), Rename(who), if fault.NoFault? then Sync(who) else LoseSync(who)]
  }

  class TokenFile {
    var target: Option<Contents>
    var temporary: Option<Contents>
    // What a crash, or a reader, would have found at the path after each step.
    ghost var seen: seq<Option<Contents>>
    ghost var steps: seq<Step>

    constructor (initial: Option<Contents>)
      ensures target == initial && temporary == None && seen == [] && steps == []
    {
      target, temporary, seen, steps := initial, None, [], [];
    }

    ghost method Observe()
      modifies this`seen
      ensures seen == old(seen) + [target]
    {
      seen := seen + [target];
    }

    ghost method Record(step: Step)
      modifies this`steps
      ensures steps == old(steps) + [step]
    {
      steps := steps + [step];
    }

    /** Write a sibling, then rename it over the path. `failed` is the persistence error. */
    method Write(who: nat, token: Value, fault: Fault) returns (failed: bool)
      modifies this
      ensures failed <==> Effective(token, fault) != NoFault
      ensures target == if Replaces(token, fault) then Some(Complete(token)) else old(target)
      ensures temporary == if Effective(token, fault).CreateFails? then old(temporary) else None
      // At every instant the path holds the whole old document or the whole new one, and
      // never goes back.
      ensures old(seen) <= seen
      ensures forall i :: |old(seen)| <= i < |seen| ==> seen[i] == old(target) || seen[i] == Some(Complete(token))
      ensures forall i, j :: |old(seen)| <= i < j < |seen| && seen[i] != old(target) ==> seen[j] == seen[i]
      // A rename is recorded exactly if it happens, a sync exactly if it succeeds.
      ensures steps == old(steps) + WriteSteps(who, token, fault)
    {
      hide Serializable;
      failed := true;
      Record(Offer(who, token));
      var ready := Prepare(token, fault);
      if ready {
        failed := Install(who, token, fault.DirectorySyncFails?);
      } else {
        Record(Abandon(who));
      }
    }

    /** The sibling file, up to the point where it may be renamed; what failed is removed again. */
    method Prepare(token: Value, fault: Fault) returns (ready: bool)
      modifies this`temporary, this`seen
      ensures ready <==> Replaces(token, fault)
      ensures temporary == if ready then Some(Complete(token)) else if fault.CreateFails? then old(temporary) else None
      ensures old(seen) <= seen && forall i :: |old(seen)| <= i < |seen| ==> seen[i] == target
    {
      hide Serializable;
      ready := false;
      if fault.CreateFails? {
        Observe();
        return;
      }
      temporary := Some(Torn);
      Observe();
      if !fault.PermissionFails? && !fault.EncodeFails? && Serializable(token) {
        temporary := Some(Complete(token));
        Observe();
        ready := !fault.SyncFails? && !fault.ReplaceFails?;
      }
      if !ready {
        temporary := None;
        Observe();
      }
    }

    /** The rename, and the directory sync after it. */
    method Install(who: nat, token: Value, syncFails: bool) returns (failed: bool)
      requires temporary == Some(Complete(token))
      modifies this
      ensures failed == syncFails
      ensures target == Some(Complete(token)) && temporary == None
      ensures old(seen) <= seen && forall i :: |old(seen)| <= i < |seen| ==> seen[i] == target
      ensures steps == old(steps) + [Rename(who), if syncFails then LoseSync(who) else Sync(who)]
    {
      target := temporary;
      temporary := None;
      Record(Rename(who));
      Observe();
      failed := syncFails;
      Record(if syncFails then LoseSync(who) else Sync(who));
      Observe();
    }

    method Read() returns (value: Option<Value>, missing: bool)
      ensures missing <==> target.None?
      ensures value == if target.Some? && target.value.Complete? then Some(target.value.value) else None
    {
      missing := target.None?;
      value := if target.Some? && target.value.Complete? then Some(target.value.value) else None;
    }
  }
}
