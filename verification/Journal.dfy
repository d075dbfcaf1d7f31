/**
 * The write path of one flow's persisted record: the compare-and-swap of
 * `src/client/flow-store.ts` and `FlowJournal.commit` of `src/client/flow-resume.ts`.
 *
 * A digest is an injective name of the bytes it was taken from, so a journal here holds
 * the version itself where the source holds the version's sha256.
 */
module Journal {
  import opened Options

  /** One saved record: its body, and the two fields every save moves. */
  datatype Version<B> = Version(revision: nat, updatedAtMs: nat, body: B)

  /** What the store holds under the key, and every version it ever made durable, oldest first. */
  datatype Store<B> = Store(held: Option<Version<B>>, history: seq<Version<B>>)

  /** The two ways a save can fail besides the comparison: before the write, or after it. */
  datatype Fault = NoFault | Reject | CommitThenThrow

  /** What a caller's derivation of the next body came to. */
  datatype Derived<B> =
    | NothingToSave
    | RefusedByCaller
    | InvalidRecord
    | SaveBody(body: B)

  /**
   * The journal: the version last made durable, the version the next save is compared with
   * (`None` before the first save), and whether an earlier save was refused.
   */
  datatype Journal<B> = Journal(current: Version<B>, digest: Option<Version<B>>, failed: bool)

  datatype Answer = Resolved | Threw

  /** What one journal call leaves behind. */
  datatype Written<B> = Written(journal: Journal<B>, store: Store<B>, answer: Answer)

  /** The store's compare-and-swap: `expected` is what the caller last loaded or wrote. */
  function CompareAndSwap<B(==)>(store: Store<B>, expected: Option<Version<B>>, next: Version<B>, fault: Fault)
    : (result: (Store<B>, Answer))
  {
    if fault.Reject? || store.held != expected then
      (store, Threw)
    else
      (Store(Some(next), store.history + [next]), if fault.NoFault? then Resolved else Threw)
  }

  function Max(a: nat, b: nat): nat {
    if a < b then b else a
  }

  /** Revision + 1, and a time that never goes back. */
  function Bumped<B>(version: Version<B>, body: B, nowMs: nat): Version<B> {
    Version(version.revision + 1, Max(version.updatedAtMs, nowMs), body)
  }

  /**
   * `FlowJournal.commit`. `finish` lays the flow's live state over the derived body and encodes it;
   * `None` when that fails. A version is adopted only after the store's save resolved, and every
   * refused save leaves the journal failed for good.
   */
  function Commit<B(==)>(journal: Journal<B>, store: Store<B>, derived: Derived<B>, finish: B -> Option<B>, create: bool,
                         nowMs: nat, fault: Fault): (written: Written<B>)
  {
    if journal.failed then
      Written(journal, store, Threw)
    else match derived
      case RefusedByCaller => Written(journal, store, Threw)
      case InvalidRecord => Written(journal.(failed := true), store, Threw)
      case NothingToSave => Written(journal, store, Resolved)
      case SaveBody(body) =>
        match finish(body)
        case None => Written(journal.(failed := true), store, Threw)
        case Some(finished) =>
          var next := if create then journal.current.(body := finished) else Bumped(journal.current, finished, nowMs);
          var (store', answer) := CompareAndSwap(store, journal.digest, next, fault);
          if answer.Resolved?
          then Written(Journal(next, Some(next), false), store', Resolved)
          else Written(journal.(failed := true), store', Threw)
  }

  /** `FlowJournal.open`: the journal of the version the store holds. */
  function Opened<B>(version: Version<B>): Journal<B> {
    Journal(version, Some(version), false)
  }

  /** A journal before its first save. */
  function Unsaved<B>(body: B, nowMs: nat): Journal<B> {
    Journal(Version(1, nowMs, body), None, false)
  }
}
