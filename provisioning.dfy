/**
 * Whether the remote folders of a course module exist yet. Folder creation
 * runs as a background ad-hoc task; while a pending creation task names
 * the course module, its folders are not there.
 */
module Provisioning {

  /**
   * The scan over the pending `collaborativefolders_create` tasks, each
   * given by the course-module id in its payload. Every task is looked
   * at; one that names `id` clears the flag.
   */
  method FoldersCreated(pendingCmids: seq<int>, id: nat) returns (created: bool)
    ensures created <==> id !in pendingCmids
    ensures pendingCmids == [] ==> created
  {
    created := true;
    for i := 0 to |pendingCmids|
      invariant created <==> id !in pendingCmids[..i]
    {
      if id == pendingCmids[i] {
        created := false;
      }
      assert pendingCmids[..i + 1] == pendingCmids[..i] + [pendingCmids[i]];
    }
    assert pendingCmids[..|pendingCmids|] == pendingCmids;
  }
}
