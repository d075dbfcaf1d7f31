/**
 * Any number of flow instances over one stored record, with crashes and failing saves in any
 * order: what the compare-and-swap of `Journal` keeps over every run.
 */
module JournalRuns {
  import opened Options
  import opened Journal

  /**
   * One atomic step. `Begin` and `Resume` make an instance, `Crash` drops one, `Update` is one turn
   * of an instance's write path with the caller's derivation and the flow's projection.
   */
  datatype Event<!B> =
    | Begin(id: nat, body: B, nowMs: nat, fault: Fault)
    | Resume(id: nat)
    | Crash(id: nat)
    | Update(id: nat, derive: B -> Derived<B>, finish: B -> Option<B>, nowMs: nat, fault: Fault)

  datatype World<B> = World(store: Store<B>, live: map<nat, Journal<B>>)

  /** The initial body of a new record is the caller's own and is saved as it is. */
  function Whole<B>(): B -> Option<B> {
    body => Some(body)
  }

  /** A step that its instance cannot take leaves the world as it was. */
  function Step<B(==)>(w: World<B>, event: Event<B>): World<B> {
    match event
    case Begin(id, body, nowMs, fault) =>
      if id in w.live then w
      else
        var written := Commit(Unsaved(body, nowMs), w.store, SaveBody(body), Whole(), true, nowMs, fault);
        World(written.store, w.live[id := written.journal])
    case Resume(id) =>
      if id in w.live || w.store.held.None? then w
      else w.(live := w.live[id := Opened(w.store.held.value)])
    case Crash(id) => w.(live := w.live - {id})
    case Update(id, derive, finish, nowMs, fault) =>
      if id !in w.live || w.live[id].digest.None? then w
      else
        var written := Commit(w.live[id], w.store, derive(w.live[id].current.body), finish, false, nowMs, fault);
        World(written.store, w.live[id := written.journal])
  }

  /** The world after a run of steps from an empty store. */
  function After<B(==)>(run: seq<Event<B>>): World<B> {
    if run == [] then World(Store(None, []), map[])
    else Step(After(run[..|run| - 1]), run[|run| - 1])
  }

  // --- the chain -----------------------------------------------------------------------------------------------

  /** The store holds the last version, revisions count up by one from 1, times never go back. */
  ghost predicate Chain<B>(store: Store<B>) {
    && (store.held == if store.history == [] then None else Some(store.history[|store.history| - 1]))
    && (forall i :: 0 <= i < |store.history| ==> store.history[i].revision == i + 1)
    && (forall i, j :: 0 <= i < j < |store.history| ==> store.history[i].updatedAtMs <= store.history[j].updatedAtMs)
  }

  /** A journal's digest names its own record, and that record is the durable version of its revision. */
  ghost predicate Durable<B>(journal: Journal<B>, store: Store<B>) {
    journal.digest.Some? ==>
      && journal.digest == Some(journal.current)
      && 1 <= journal.current.revision <= |store.history|
      && store.history[journal.current.revision - 1] == journal.current
  }

  /** A journal that never saved is either failed or was never adopted as live. */
  ghost predicate Sound<B>(w: World<B>) {
    && Chain(w.store)
    && forall id :: id in w.live ==> Durable(w.live[id], w.store) && (w.live[id].digest.None? ==> w.live[id].failed)
  }

  /** What one turn of the write path does to the store: nothing, or one version built on the held one. */
  lemma CommitExtends<B>(journal: Journal<B>, store: Store<B>, derived: Derived<B>, finish: B -> Option<B>, nowMs: nat, fault: Fault)
    requires Chain(store) && Durable(journal, store) && journal.digest.Some?
    ensures var written := Commit(journal, store, derived, finish, false, nowMs, fault);
            && Chain(written.store) && Durable(written.journal, written.store) && written.journal.digest.Some?
            && (written.store == store
                || (&& !journal.failed && derived.SaveBody? && finish(derived.body).Some?
                    && store.held == Some(journal.current)
                    && written.store.history == store.history + [Bumped(journal.current, finish(derived.body).value, nowMs)]))
  {
  }

  /** A journal made durable stays a version of the chain as it grows. */
  lemma DurableStays<B>(journal: Journal<B>, store: Store<B>, store': Store<B>)
    requires Durable(journal, store) && store.history <= store'.history
    ensures Durable(journal, store')
  {
  }

  lemma UpdateKeepsSound<B>(w: World<B>, id: nat, derived: Derived<B>, finish: B -> Option<B>, nowMs: nat, fault: Fault)
    requires Sound(w) && id in w.live && w.live[id].digest.Some?
    ensures var written := Commit(w.live[id], w.store, derived, finish, false, nowMs, fault);
            Sound(World(written.store, w.live[id := written.journal])) && w.store.history <= written.store.history
  {
    var written := Commit(w.live[id], w.store, derived, finish, false, nowMs, fault);
    CommitExtends(w.live[id], w.store, derived, finish, nowMs, fault);
    forall other | other in w.live ensures Durable(w.live[other], written.store) {
      DurableStays(w.live[other], w.store, written.store);
    }
  }

  lemma BeginKeepsSound<B>(w: World<B>, id: nat, body: B, nowMs: nat, fault: Fault)
    requires Sound(w)
    ensures var written := Commit(Unsaved(body, nowMs), w.store, SaveBody(body), Whole(), true, nowMs, fault);
            Sound(World(written.store, w.live[id := written.journal])) && w.store.history <= written.store.history
  {
    var written := Commit(Unsaved(body, nowMs), w.store, SaveBody(body), Whole(), true, nowMs, fault);
    forall other | other in w.live ensures Durable(w.live[other], written.store) {
      DurableStays(w.live[other], w.store, written.store);
    }
  }

  lemma StepKeepsSound<B>(w: World<B>, event: Event<B>)
    requires Sound(w)
    ensures Sound(Step(w, event))
    ensures w.store.history <= Step(w, event).store.history
  {
    match event
    case Update(id, derive, finish, nowMs, fault) =>
      if id in w.live && w.live[id].digest.Some? {
        UpdateKeepsSound(w, id, derive(w.live[id].current.body), finish, nowMs, fault);
      }
    case Begin(id, body, nowMs, fault) => BeginKeepsSound(w, id, body, nowMs, fault);
    case Resume(id) =>
    case Crash(id) =>
  }

  /** Over every run the store's history is one chain and every live record is one of its versions. */
  lemma {:induction false} HistoryIsOneChain<B>(run: seq<Event<B>>)
    ensures Sound(After(run))
  {
    if run != [] {
      HistoryIsOneChain(run[..|run| - 1]);
      StepKeepsSound(After(run[..|run| - 1]), run[|run| - 1]);
    }
  }

  // --- no update is lost -------------------------------------------------------------------------------------------

  /** The body a committed step made of the one before it. */
  function Effect<B>(event: Event<B>, before: Option<B>): Option<B> {
    match event
    case Begin(_, body, _, _) => Some(body)
    case Update(_, derive, finish, _, _) =>
      (match before
       case None => None
       case Some(body) => (match derive(body)
                           case SaveBody(next) => finish(next)
                           case _ => None))
    case _ => before
  }

  /** The steps of a run that made a version durable, in order. */
  function Committed<B(==)>(run: seq<Event<B>>): seq<Event<B>> {
    if run == [] then []
    else
      var front := run[..|run| - 1];
      Committed(front) + if |After(front).store.history| < |After(run).store.history| then [run[|run| - 1]] else []
  }

  /** The committed steps' effects, each applied to the result of the one before it. */
  function Composed<B>(events: seq<Event<B>>): Option<B> {
    if events == [] then None else Effect(events[|events| - 1], Composed(events[..|events| - 1]))
  }

  function HeldBody<B>(store: Store<B>): Option<B> {
    match store.held
    case None => None
    case Some(version) => Some(version.body)
  }

  /** A step that makes a version durable applies its own effect to the body the store held. */
  lemma StepAppliesItsEffect<B>(w: World<B>, event: Event<B>)
    requires Sound(w)
    ensures var w' := Step(w, event);
            if |w.store.history| < |w'.store.history|
            then |w'.store.history| == |w.store.history| + 1 && HeldBody(w'.store) == Effect(event, HeldBody(w.store))
            else w'.store == w.store
  {
  }

  /** A step that may make a version durable: a new record under a free key, or a turn of a live flow that holds the stored version. */
  predicate Commits<B(==)>(w: World<B>, event: Event<B>) {
    match event
    case Begin(id, _, _, fault) => id !in w.live && w.store.held.None? && fault != Reject
    case Update(id, derive, finish, _, fault) =>
      && id in w.live && !w.live[id].failed && w.live[id].digest.Some? && w.store.held == Some(w.live[id].current) && fault != Reject
      && derive(w.live[id].current.body).SaveBody? && finish(derive(w.live[id].current.body).body).Some?
    case _ => false
  }

  /** A version becomes durable exactly there, at the step's own time or the last version's where that is later. */
  lemma CommitsExactly<B>(w: World<B>, event: Event<B>)
    requires Sound(w)
    ensures var w' := Step(w, event);
            && (|w.store.history| < |w'.store.history| <==> Commits(w, event))
            && (Commits(w, event) ==>
                  && w'.store.held.Some? && event.nowMs <= w'.store.held.value.updatedAtMs
                  && w'.store.held.value.updatedAtMs in {event.nowMs} + if w.store.held.Some? then {w.store.held.value.updatedAtMs} else {})
  {
  }

  /** An instance fails exactly where its turn had something to save, or an invalid record, and no save of it resolved. */
  lemma FailsExactly<B>(w: World<B>, event: Event<B>)
    requires Sound(w) && event.Update? && event.id in w.live && w.live[event.id].digest.Some?
    ensures var (before, after) := (w.live[event.id], Step(w, event).live[event.id]);
            var derived := event.derive(before.current.body);
            && (after.failed <==> before.failed || derived.InvalidRecord? || (derived.SaveBody? && !(Commits(w, event) && event.fault == NoFault)))
            && (if Commits(w, event) && event.fault == NoFault then Step(w, event).store.held == Some(after.current) else after.current == before.current)
  {
  }

  /**
   * Whatever the interleaving, the stored body is every committed update applied in commit order, each to
   * the result of the one before: no writer ever replaced a version it had not read.
   */
  lemma {:induction false} NoUpdateIsLost<B>(run: seq<Event<B>>)
    ensures |Committed(run)| == |After(run).store.history|
    ensures HeldBody(After(run).store) == Composed(Committed(run))
  {
    if run != [] {
      var front, last := run[..|run| - 1], run[|run| - 1];
      NoUpdateIsLost(front);
      HistoryIsOneChain(front);
      StepAppliesItsEffect(After(front), last);
      var committed := Committed(front);
      assert (committed + [last])[..|committed|] == committed && committed + [] == committed;
    }
  }

  // --- an instance whose save was refused ---------------------------------------------------------------------------

  /** Whether a step of a run by instance `id` touched the store. */
  ghost predicate WroteAt<B>(run: seq<Event<B>>, id: nat, k: nat)
    requires k < |run|
  {
    run[k].Update? && run[k].id == id && After(run[..k]).store != After(run[..k + 1]).store
  }

  lemma FailedStepIsIdle<B>(w: World<B>, event: Event<B>, id: nat)
    requires id in w.live && w.live[id].failed && !(event.Crash? && event.id == id)
    ensures id in Step(w, event).live && Step(w, event).live[id] == w.live[id]
    ensures event.Update? && event.id == id ==> Step(w, event).store == w.store
  {
  }

  /** After its first refused save an instance stays failed and never writes again. */
  lemma {:induction false} FailedForGood<B>(run: seq<Event<B>>, from: nat, id: nat)
    requires from <= |run|
    requires id in After(run[..from]).live && After(run[..from]).live[id].failed
    requires forall k :: from <= k < |run| ==> !(run[k].Crash? && run[k].id == id)
    ensures id in After(run).live && After(run).live[id] == After(run[..from]).live[id]
    ensures forall k :: from <= k < |run| ==> !WroteAt(run, id, k)
  {
    hide Step;
    if from == |run| {
      assert run[..from] == run;
    } else {
      var n := |run| - 1;
      var front := run[..n];
      assert front[..from] == run[..from];
      FailedForGood(front, from, id);
      FailedStepIsIdle(After(front), run[n], id);
      forall k | from <= k < |run| ensures !WroteAt(run, id, k) {
        if k < n {
          assert !WroteAt(front, id, k);
          assert front[..k] == run[..k] && front[..k + 1] == run[..k + 1];
        } else {
          assert run[..k] == front && run[..k + 1] == run;
        }
      }
    }
  }
}
