/** The parts of the pinset bucket that the pinning manager reads.

    The bucket itself is an external collaborator. The manager only ever
    looks at two things of it: the optional list of links currently queued
    for the next commit, and the bucket's answer to "is this pinned?".
    Both are captured here as an immutable snapshot taken at the moment an
    operation reads them.
 */
module Bucket {
  import opened Options

  /** What the manager can observe of the bucket at one instant.
      `latestQueuedLinks` is absent before the bucket has been fetched.
      A queued link is a plain string: the same value is asked about with
      `isPinned` and stored in the manager's sets. */
  datatype Snapshot = Snapshot(latestQueuedLinks: Option<seq<string>>, isPinned: string -> bool)

  /** The links of `links` that the bucket does not report as pinned. */
  function Unpinned(links: seq<string>, isPinned: string -> bool): set<string>
  {
    set v | v in links && !isPinned(v)
  }

  /** The queued-but-not-pinned links of a snapshot; empty when no queued
      list is available. This is the set that both failure reconciliation
      and retry reconciliation act on. */
  function UnpinnedQueued(b: Snapshot): (u: set<string>)
    ensures b.latestQueuedLinks.None? ==> u == {}
    ensures forall v :: v in u <==>
      b.latestQueuedLinks.Some? && v in b.latestQueuedLinks.value && !b.isPinned(v)
  {
    match b.latestQueuedLinks
    case None => {}
    case Some(links) => Unpinned(links, b.isPinned)
  }

  /** Splitting off the first link: it contributes itself exactly when it is
      not pinned, and the rest contributes the remainder. */
  lemma UnpinnedCons(links: seq<string>, isPinned: string -> bool)
    requires |links| > 0
    ensures Unpinned(links, isPinned)
         == (if isPinned(links[0]) then {} else {links[0]}) + Unpinned(links[1..], isPinned)
  {
  }
}
