/**
 * What the ledger may hold of a line whose text carries the secret (a Buyer's `reveal-b`): its digest, in every version
 * ever made durable, whatever instances did and however their saves failed.
 */
module FrameSecrets {
  import opened Options
  import opened Journal
  import opened Frames
  import opened FrameRuns

  /** Every attempt a run starts at this kind of line asks for the digest only. */
  ghost predicate AsksForDigests(run: seq<Event>, kind: nat) {
    forall k :: 0 <= k < |run| ==>
      run[k].Act? && run[k].action.Start? && run[k].action.spec.text.kind == kind ==> run[k].action.spec.digestOnly
  }

  predicate NoPlainText(book: Book, kind: nat) {
    kind in book.ledger ==> book.ledger[kind].text.DigestOf?
  }

  ghost predicate StoreHides(store: Store<Book>, kind: nat) {
    && (store.held.Some? ==> NoPlainText(store.held.value.body, kind))
    && forall k :: 0 <= k < |store.history| ==> NoPlainText(store.history[k].body, kind)
  }

  predicate InstHides(i: Instance, kind: nat) {
    NoPlainText(i.journal.current.body, kind) && (kind in i.inflight ==> i.inflight[kind].spec.digestOnly)
  }

  ghost predicate Hides(s: System, kind: nat) {
    StoreHides(s.world.store, kind) && forall id :: id in s.live ==> InstHides(s.live[id], kind)
  }

  ghost predicate Before(me: Party, i: Instance, w: World, kind: nat) {
    WorldInv(me, w) && InstInv(me, i, w) && StoreHides(w.store, kind) && InstHides(i, kind)
  }

  ghost predicate ResultHides(r: Result, kind: nat) {
    StoreHides(r.world.store, kind) && InstHides(r.inst, kind)
  }

  lemma SaveHides(i: Instance, w: World, derive: Book -> Derived<Book>, rest: Option<nat>, fault: Fault, kind: nat)
    requires i.journal.digest == Some(i.journal.current)
    requires StoreHides(w.store, kind) && NoPlainText(i.journal.current.body, kind)
    requires var derived := derive(i.journal.current.body); derived.SaveBody? ==> NoPlainText(derived.body, kind)
    ensures var written := Save(i, w, derive, rest, fault);
            StoreHides(written.store, kind) && NoPlainText(written.journal.current.body, kind)
  {
    SaveShape(i, w, derive, rest, fault);
  }

  lemma SaveIntentHides(me: Party, i: Instance, w: World, at: nat, rest: Option<nat>, fault: Fault, kind: nat)
    requires Before(me, i, w, kind)
    ensures ResultHides(DoSaveIntent(i, w, at, rest, fault), kind)
  {
    if at in i.inflight && i.inflight[at].pc.SavingIntent? {
      SaveHides(i, w, DeriveIntent(i.inflight[at].spec), rest, fault, kind);
    }
  }

  lemma MarkHides(me: Party, i: Instance, w: World, at: nat, rest: Option<nat>, fault: Fault, kind: nat)
    requires Before(me, i, w, kind)
    ensures ResultHides(DoMark(i, w, at, rest, fault), kind)
  {
    if at in i.inflight && i.inflight[at].pc.Marking? {
      var (spec, pc) := (i.inflight[at].spec, i.inflight[at].pc);
      SaveHides(i, w, DeriveMark(spec, pc.seqNo, pc.ensureIntent), rest, fault, kind);
    }
  }

  lemma ActHides(me: Party, i: Instance, w: World, action: Action, kind: nat)
    requires Before(me, i, w, kind)
    requires action.Start? && action.spec.text.kind == kind ==> action.spec.digestOnly
    ensures ResultHides(Do(me, i, w, action), kind)
  {
    match action
    case SaveIntent(at, rest, fault) => SaveIntentHides(me, i, w, at, rest, fault, kind);
    case Mark(at, rest, fault) => MarkHides(me, i, w, at, rest, fault, kind);
    case SaveOther(rest, fault) => SaveHides(i, w, book => SaveBody(book), rest, fault, kind);
    case _ =>
  }

  lemma StepHides(config: Config, s: System, event: Event, kind: nat)
    requires Inv(config, s) && Hides(s, kind)
    requires event.Act? && event.action.Start? && event.action.spec.text.kind == kind ==> event.action.spec.digestOnly
    ensures Hides(Step(config, s, event), kind)
  {
    match event
    case Begin(_, rest, fault) => FirstSaveShape(s.world, rest, fault);
    case Act(id, action) =>
      if id in s.live {
        ActHides(config.me, s.live[id], s.world, action, kind);
      }
    case _ =>
  }

  lemma {:induction false} EveryRunHides(config: Config, run: seq<Event>, kind: nat)
    requires AsksForDigests(run, kind)
    ensures Hides(After(config, run), kind)
  {
    if run != [] {
      var front, last := run[..|run| - 1], run[|run| - 1];
      assert forall k :: 0 <= k < |front| ==> front[k] == run[k];
      EveryRunHides(config, front, kind);
      EveryRunKeepsInv(config, front);
      StepHides(config, After(config, front), last, kind);
    }
  }

  /**
   * A kind of line only ever posted as digest-only is in no durable version in plain, though the line itself may stand in
   * a room: the version held then names that line's digest.
   */
  lemma SecretLinesAreNeverStored(config: Config, run: seq<Event>, kind: nat)
    requires AsksForDigests(run, kind)
    ensures var w := After(config, run).world;
            && (forall k :: 0 <= k < |w.store.history| && kind in w.store.history[k].body.ledger ==>
                  w.store.history[k].body.ledger[kind].text.DigestOf?)
            && (forall room, place, text :: OwnAt(w.rooms, config.me, room, place, text) && text.kind == kind ==>
                  w.store.held.Some? && kind in w.store.held.value.body.ledger
                  && w.store.held.value.body.ledger[kind].text == DigestOf(text))
  {
    EveryRunHides(config, run, kind);
    var w := After(config, run).world;
    forall room, place, text | OwnAt(w.rooms, config.me, room, place, text) && text.kind == kind
      ensures w.store.held.Some? && kind in w.store.held.value.body.ledger && w.store.held.value.body.ledger[kind].text == DigestOf(text)
    {
      EveryLineIsIntended(config, run, room, place, text);
    }
  }
}
