/** The review store: per-hunk decisions on proposed file changes, and applying them. */
module CodeChangeStore {
  import opened Common
  import opened Hunks
  import opened Lines
  import opened Reconstruct
  import opened PartialApply
  import opened RetainedDecisions

  datatype FileStatus = FilePending | FileAccepted | FileRejected

  datatype FileChange = FileChange(
    id: string,
    sessionId: string,
    filePath: string,
    oldContent: Option<string>,
    newContent: Option<string>,
    status: FileStatus,
    hunkDecisions: Decisions)
  {
    /** `oldContent ?? ''`. */
    function Old(): string {
      if oldContent.Some? then oldContent.value else ""
    }

    function New(): string {
      if newContent.Some? then newContent.value else ""
    }
  }

  datatype ChangeSet = ChangeSet(id: string, files: map<string, FileChange>)

  /** What can come of an apply: nothing to apply to, one of the two failures that throw before the apply
      touches the store, or the content written to the remote file. */
  datatype ApplyOutcome = Missing | NoConnection | WriteFailed | Written(content: string)

  /** What an apply computes before it writes. */
  datatype Prepared = Prepared(content: string, allDecided: bool)

  function Folded(f: FileChange, prepared: Prepared): FileChange {
    f.(oldContent := Some(prepared.content), status := if prepared.allDecided then FileAccepted else f.status)
  }

  type ChangeSets = map<string, ChangeSet>

  predicate HasFile(css: ChangeSets, changeSetId: string, filePath: string) {
    changeSetId in css && filePath in css[changeSetId].files
  }

  function GetFile(css: ChangeSets, changeSetId: string, filePath: string): FileChange
    requires HasFile(css, changeSetId, filePath)
  {
    css[changeSetId].files[filePath]
  }

  function PutFile(css: ChangeSets, changeSetId: string, filePath: string, file: FileChange): ChangeSets
    requires HasFile(css, changeSetId, filePath)
  {
    var cs := css[changeSetId];
    css[changeSetId := cs.(files := cs.files[filePath := file])]
  }

  /** Every hunk of the change has been accepted or rejected. */
  predicate AllDecided(hunks: seq<Hunk<string>>, d: Decisions) {
    forall i :: 0 <= i < |hunks| ==> hunks[i].id in d && d[hunks[i].id] != Pending
  }

  class Store {
    var changeSets: ChangeSets

    constructor ()
      ensures changeSets == map[]
    {
      changeSets := map[];
    }

    method SetHunkDecision(changeSetId: string, filePath: string, hunkId: string, decision: Decision)
      modifies this
      ensures if HasFile(old(changeSets), changeSetId, filePath)
              then var f := GetFile(old(changeSets), changeSetId, filePath);
                   changeSets == PutFile(old(changeSets), changeSetId, filePath,
                                         f.(hunkDecisions := f.hunkDecisions[hunkId := decision]))
              else changeSets == old(changeSets)
    {
      if HasFile(changeSets, changeSetId, filePath) {
        var f := GetFile(changeSets, changeSetId, filePath);
        changeSets := PutFile(changeSets, changeSetId, filePath,
                              f.(hunkDecisions := f.hunkDecisions[hunkId := decision]));
      }
    }

    /** The first half of an apply: what is to be written, read off the store as it is now. */
    method PrepareApply(changeSetId: string, filePath: string) returns (prepared: Option<Prepared>)
      ensures prepared.Some? <==> HasFile(changeSets, changeSetId, filePath)
      ensures prepared.Some? ==>
                var f := GetFile(changeSets, changeSetId, filePath);
                && prepared.value.content == Applied(f.Old(), f.New(), f.hunkDecisions)
                && (prepared.value.allDecided <==> AllDecided(DiffOf(f.Old(), f.New()).hunks, f.hunkDecisions))
    {
      if !HasFile(changeSets, changeSetId, filePath) {
        return None;
      }
      var file := GetFile(changeSets, changeSetId, filePath);
      var diff := ComputeDiff(file.Old(), file.New());
      var hunks := diff.hunks;
      PartialApply.OpsTransform(file.Old(), file.New());
      ReconstructionIsReplay(OpsOf(file.Old(), file.New()), hunks, file.hunkDecisions);
      var content := ReconstructContent(file.Old(), hunks, file.hunkDecisions);
      prepared := Some(Prepared(content, AllDecided(hunks, file.hunkDecisions)));
    }

    /** The second half, after the write: the content is folded into the file as it is by then, which
        keeps whatever was proposed or decided in the meantime. */
    method FoldWritten(changeSetId: string, filePath: string, prepared: Prepared)
      modifies this
      ensures changeSets
              == if HasFile(old(changeSets), changeSetId, filePath)
                 then PutFile(old(changeSets), changeSetId, filePath,
                              Folded(GetFile(old(changeSets), changeSetId, filePath), prepared))
                 else old(changeSets)
    {
      if HasFile(changeSets, changeSetId, filePath) {
        changeSets := PutFile(changeSets, changeSetId, filePath,
                              Folded(GetFile(changeSets, changeSetId, filePath), prepared));
      }
    }

    /** `connected` and `writeSucceeds` stand for the session lookup and the remote write, and `others` for
        all that other calls do to the store while these are awaited. The content and whether everything is
        decided are those of the file at the beginning; they are folded into the file as it is at the end. */
    method ApplyAcceptedHunks(changeSetId: string, filePath: string, connected: bool, writeSucceeds: bool,
                              others: ChangeSets -> ChangeSets)
      returns (outcome: ApplyOutcome)
      modifies this
      ensures outcome.Missing? <==> !HasFile(old(changeSets), changeSetId, filePath)
      ensures outcome.NoConnection? <==> !outcome.Missing? && !connected
      ensures outcome.WriteFailed? <==> !outcome.Missing? && connected && !writeSucceeds
      ensures outcome.Missing? ==> changeSets == old(changeSets)
      ensures outcome.NoConnection? || outcome.WriteFailed? ==> changeSets == others(old(changeSets))
      ensures outcome.Written? ==>
                var f, meanwhile := GetFile(old(changeSets), changeSetId, filePath), others(old(changeSets));
                && outcome.content == Applied(f.Old(), f.New(), f.hunkDecisions)
                && var decided := AllDecided(DiffOf(f.Old(), f.New()).hunks, f.hunkDecisions);
                   var prepared := Prepared(outcome.content, decided);
                   changeSets == if HasFile(meanwhile, changeSetId, filePath)
                                 then PutFile(meanwhile, changeSetId, filePath,
                                              Folded(GetFile(meanwhile, changeSetId, filePath), prepared))
                                 else meanwhile
    {
      var prepared := PrepareApply(changeSetId, filePath);
      if prepared.None? {
        return Missing;
      }
      changeSets := others(changeSets);
      if !connected {
        return NoConnection;
      }
      if !writeSucceeds {
        return WriteFailed;
      }
      FoldWritten(changeSetId, filePath, prepared.value);
      outcome := Written(prepared.value.content);
    }
  }

  /** One apply that succeeds while nobody else is at work. */
  method ApplyOnce(store: Store, changeSetId: string, filePath: string)
    requires HasFile(store.changeSets, changeSetId, filePath)
    modifies store
    ensures HasFile(store.changeSets, changeSetId, filePath)
    ensures var f, g := GetFile(old(store.changeSets), changeSetId, filePath),
                        GetFile(store.changeSets, changeSetId, filePath);
            && g.New() == f.New() && g.hunkDecisions == f.hunkDecisions
            && g.Old() == Applied(f.Old(), f.New(), f.hunkDecisions)
  {
    var _ := store.ApplyAcceptedHunks(changeSetId, filePath, true, true, css => css);
  }

  /** Applying a file again and again: the proposal and the decisions stay as they are, so the hunks that
      are still shown fall under decisions that were made on others. */
  method ApplyTimes(store: Store, changeSetId: string, filePath: string, n: nat)
    requires HasFile(store.changeSets, changeSetId, filePath)
    modifies store
    ensures HasFile(store.changeSets, changeSetId, filePath)
    ensures var f, g := GetFile(old(store.changeSets), changeSetId, filePath),
                        GetFile(store.changeSets, changeSetId, filePath);
            && g.New() == f.New() && g.hunkDecisions == f.hunkDecisions
            && g.Old() == Reapplied(f.Old(), f.New(), f.hunkDecisions, n)
    decreases n
  {
    if n > 0 {
      ghost var f := GetFile(store.changeSets, changeSetId, filePath);
      ApplyOnce(store, changeSetId, filePath);
      ApplyTimes(store, changeSetId, filePath, n - 1);
      ReappliedNext(f.Old(), f.New(), f.hunkDecisions, n - 1);
    }
  }
}
