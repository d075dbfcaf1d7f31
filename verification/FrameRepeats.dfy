/**
 * When a line is posted again. Once an own line of a kind stands in a room, another one of that kind can only be a post
 * already past the journal's last look at the room: handed over with its end unknown, or about to be.
 */
module FrameRepeats {
  import opened Options
  import opened Journal
  import opened Frames
  import opened FrameRuns

  /** An own line of this kind stands in some room. */
  ghost predicate Stands(rooms: Rooms, me: Party, kind: nat) {
    exists room, place, text :: OwnAt(rooms, me, room, place, text) && text.kind == kind
  }

  /** An own line of this kind that was not there before. */
  ghost predicate Another(rooms: Rooms, rooms': Rooms, me: Party, kind: nat) {
    exists room, place, text :: OwnAt(rooms', me, room, place, text) && text.kind == kind && !OwnAt(rooms, me, room, place, text)
  }

  /** The attempt is past its look at the room: it saw its saved line missing there, or is at its post. */
  predicate PastItsLook(i: Instance, kind: nat) {
    && !i.journal.failed && kind in i.inflight
    && (i.inflight[kind].pc.Posting? || (i.inflight[kind].pc.Looked? && !i.inflight[kind].pc.isNew && i.inflight[kind].pc.found.None?))
  }

  ghost predicate MayLandYet(s: System, kind: nat) {
    exists post :: post in s.late && post.1.kind == kind
  }

  ghost predicate MayBeRepeated(s: System, kind: nat) {
    MayLandYet(s, kind) || exists id :: id in s.live && PastItsLook(s.live[id], kind)
  }

  // --- an attempt without a saved intent -----------------------------------------------------------------------------------

  predicate OfANewKind(pc: Pc) {
    (pc.Reading? && pc.isNew) || (pc.Looked? && pc.isNew) || pc.SavingIntent?
  }

  /** An attempt whose intent is not saved yet has its kind outside its own version's ledger. */
  predicate NewInv(i: Instance) {
    forall kind :: kind in i.inflight ==>
      i.inflight[kind].spec.text.kind == kind && (OfANewKind(i.inflight[kind].pc) ==> kind !in i.journal.current.body.ledger)
  }

  /** What a save may add to its version's ledger: the kind it is about. */
  lemma SaveAddsItsKind(i: Instance, w: World, derive: Book -> Derived<Book>, rest: Option<nat>, fault: Fault, kind: nat)
    requires i.journal.digest == Some(i.journal.current)
    requires var derived := derive(i.journal.current.body);
             derived.SaveBody? ==> derived.body.ledger.Keys <= i.journal.current.body.ledger.Keys + {kind}
    ensures Save(i, w, derive, rest, fault).journal.current.body.ledger.Keys <= i.journal.current.body.ledger.Keys + {kind}
  {
    hide Save;
    SaveShape(i, w, derive, rest, fault);
  }

  lemma SaveKeepsLedger(i: Instance, w: World, rest: Option<nat>, fault: Fault)
    requires i.journal.digest == Some(i.journal.current)
    ensures Save(i, w, book => SaveBody(book), rest, fault).journal.current.body.ledger == i.journal.current.body.ledger
  {
    hide Save;
    SaveShape(i, w, book => SaveBody(book), rest, fault);
  }

  lemma ActKeepsNew(me: Party, i: Instance, w: World, action: Action)
    requires NewInv(i) && i.journal.digest == Some(i.journal.current)
    ensures NewInv(Do(me, i, w, action).inst)
  {
    hide Save;
    match action
    case SaveIntent(kind, rest, fault) =>
      if kind in i.inflight && i.inflight[kind].pc.SavingIntent? {
        SaveAddsItsKind(i, w, DeriveIntent(i.inflight[kind].spec), rest, fault, kind);
      }
    case Mark(kind, rest, fault) =>
      if kind in i.inflight && i.inflight[kind].pc.Marking? {
        var (spec, pc) := (i.inflight[kind].spec, i.inflight[kind].pc);
        SaveAddsItsKind(i, w, DeriveMark(spec, pc.seqNo, pc.ensureIntent), rest, fault, kind);
      }
    case SaveOther(rest, fault) => SaveKeepsLedger(i, w, rest, fault);
    case _ =>
  }

  ghost predicate AllNew(s: System) {
    forall id :: id in s.live ==> NewInv(s.live[id])
  }

  lemma StepKeepsNew(config: Config, s: System, event: Event)
    requires Inv(config, s) && AllNew(s)
    ensures AllNew(Step(config, s, event))
  {
    hide WorldInv, Do, FirstSave, CrashedAt, LeftUnknown;
    match event
    case Act(id, action) => if id in s.live { ActKeepsNew(config.me, s.live[id], s.world, action); }
    case _ =>
  }

  lemma {:induction false} EveryRunIsNew(config: Config, run: seq<Event>)
    ensures AllNew(After(config, run))
  {
    if run != [] {
      EveryRunIsNew(config, run[..|run| - 1]);
      EveryRunKeepsInv(config, run[..|run| - 1]);
      StepKeepsNew(config, After(config, run[..|run| - 1]), run[|run| - 1]);
    }
  }

  // --- where a line stands, nothing comes to a second post -----------------------------------------------------------------

  /** A standing line is intended, so an attempt with its intent saved finds it. */
  lemma StandingIsFound(me: Party, i: Instance, w: World, spec: Spec)
    requires WorldInv(me, w) && InstInv(me, i, w) && Intends(i.journal.current.body, spec) && Stands(w.rooms, me, spec.text.kind)
    ensures FindOwn(In(w.rooms, spec.room), me, spec.text).Some?
  {
    CurrentIsHeldBefore(me, i, w, spec);
    if FindOwn(In(w.rooms, spec.room), me, spec.text).None? {
      NotFoundIsNowhere(me, w, spec);
    }
  }

  lemma StandingIsHeld(me: Party, w: World, kind: nat)
    requires WorldInv(me, w) && Stands(w.rooms, me, kind)
    ensures w.store.held.Some? && kind in w.store.held.value.body.ledger
  {
    var room, place, text :| OwnAt(w.rooms, me, room, place, text) && text.kind == kind;
    assert Intended(w.store, room, text);
  }

  /** A first intent for a standing kind is built on an old version, so its save loses. */
  lemma LateIntentLoses(me: Party, i: Instance, w: World, spec: Spec, rest: Option<nat>, fault: Fault)
    requires WorldInv(me, w) && InstInv(me, i, w) && Stands(w.rooms, me, spec.text.kind)
    requires spec.text.kind !in i.journal.current.body.ledger
    ensures !Save(i, w, DeriveIntent(spec), rest, fault).answer.Resolved?
  {
    hide WorldInv, Save;
    StandingIsHeld(me, w, spec.text.kind);
    SaveShape(i, w, DeriveIntent(spec), rest, fault);
  }

  /** What one instance's step leaves of a standing kind: no attempt past its look, and no further line. */
  ghost predicate NothingFurther(me: Party, i: Instance, w: World, action: Action, kind: nat) {
    var r := Do(me, i, w, action);
    !PastItsLook(r.inst, kind) && !Another(w.rooms, r.world.rooms, me, kind)
  }

  lemma StartGoesNoFurther(me: Party, i: Instance, w: World, spec: Spec, kind: nat)
    requires !PastItsLook(i, kind)
    ensures NothingFurther(me, i, w, Start(spec), kind)
  {
  }

  lemma ReadGoesNoFurther(me: Party, i: Instance, w: World, of: nat, kind: nat)
    requires WorldInv(me, w) && InstInv(me, i, w) && Stands(w.rooms, me, kind) && !PastItsLook(i, kind)
    ensures NothingFurther(me, i, w, Read(of), kind)
  {
    if of == kind && kind in i.inflight && i.inflight[kind].pc.Reading? && !i.inflight[kind].pc.isNew {
      StandingIsFound(me, i, w, i.inflight[kind].spec);
    }
  }

  lemma ProceedGoesNoFurther(me: Party, i: Instance, w: World, of: nat, guardPasses: bool, kind: nat)
    requires InstInv(me, i, w) && !PastItsLook(i, kind)
    ensures NothingFurther(me, i, w, Proceed(of, guardPasses), kind)
  {
  }

  lemma SaveIntentGoesNoFurther(me: Party, i: Instance, w: World, of: nat, rest: Option<nat>, fault: Fault, kind: nat)
    requires WorldInv(me, w) && InstInv(me, i, w) && NewInv(i) && Stands(w.rooms, me, kind) && !PastItsLook(i, kind)
    ensures NothingFurther(me, i, w, SaveIntent(of, rest, fault), kind)
  {
    hide WorldInv, Save;
    if of in i.inflight && i.inflight[of].pc.SavingIntent? {
      SaveShape(i, w, DeriveIntent(i.inflight[of].spec), rest, fault);
      FailedStaysFailed(i, w, DeriveIntent(i.inflight[of].spec), rest, fault);
      if of == kind {
        LateIntentLoses(me, i, w, i.inflight[of].spec, rest, fault);
      }
    }
  }

  lemma FailedStaysFailed(i: Instance, w: World, derive: Book -> Derived<Book>, rest: Option<nat>, fault: Fault)
    ensures i.journal.failed ==> Save(i, w, derive, rest, fault).journal.failed
  {
  }

  lemma PostGoesNoFurther(me: Party, i: Instance, w: World, of: nat, outcome: PostOutcome, kind: nat)
    requires InstInv(me, i, w) && !PastItsLook(i, kind)
    ensures NothingFurther(me, i, w, Post(of, outcome), kind)
  {
    if of in i.inflight {
      PostedIsTheOnlyNew(w.rooms, me, i.inflight[of].spec);
    }
  }

  lemma MarkGoesNoFurther(me: Party, i: Instance, w: World, of: nat, rest: Option<nat>, fault: Fault, kind: nat)
    requires !PastItsLook(i, kind)
    ensures NothingFurther(me, i, w, Mark(of, rest, fault), kind)
  {
    hide Save;
    if of in i.inflight && i.inflight[of].pc.Marking? {
      FailedStaysFailed(i, w, DeriveMark(i.inflight[of].spec, i.inflight[of].pc.seqNo, i.inflight[of].pc.ensureIntent), rest, fault);
    }
  }

  lemma SaveOtherGoesNoFurther(me: Party, i: Instance, w: World, rest: Option<nat>, fault: Fault, kind: nat)
    requires !PastItsLook(i, kind)
    ensures NothingFurther(me, i, w, SaveOther(rest, fault), kind)
  {
    hide Save;
    FailedStaysFailed(i, w, book => SaveBody(book), rest, fault);
  }

  lemma ActGoesNoFurther(me: Party, i: Instance, w: World, action: Action, kind: nat)
    requires WorldInv(me, w) && InstInv(me, i, w) && NewInv(i) && Stands(w.rooms, me, kind) && !PastItsLook(i, kind)
    ensures NothingFurther(me, i, w, action, kind)
  {
    hide WorldInv, InstInv, NewInv, Stands, PastItsLook, NothingFurther;
    match action
    case Start(spec) => StartGoesNoFurther(me, i, w, spec, kind);
    case Read(of) => ReadGoesNoFurther(me, i, w, of, kind);
    case Proceed(of, guardPasses) => ProceedGoesNoFurther(me, i, w, of, guardPasses, kind);
    case SaveIntent(of, rest, fault) => SaveIntentGoesNoFurther(me, i, w, of, rest, fault, kind);
    case Post(of, outcome) => PostGoesNoFurther(me, i, w, of, outcome, kind);
    case Mark(of, rest, fault) => MarkGoesNoFurther(me, i, w, of, rest, fault, kind);
    case SaveOther(rest, fault) => SaveOtherGoesNoFurther(me, i, w, rest, fault, kind);
  }

  /** A post that an attempt not past its look leaves unknown is of another kind. */
  lemma UnknownIsAnother(i: Instance, kind: nat)
    requires NewInv(i) && !PastItsLook(i, kind)
    ensures forall action, post :: post in LeftUnknown(i, action) ==> post.1.kind != kind
    ensures forall post :: post in CrashedAt(i) ==> post.1.kind != kind
  {
  }

  // --- every run -----------------------------------------------------------------------------------------------------------

  ghost predicate Settled(config: Config, s: System, kind: nat) {
    Inv(config, s) && AllNew(s) && Stands(s.world.rooms, config.me, kind) && !MayBeRepeated(s, kind)
  }

  lemma StandsOn(rooms: Rooms, rooms': Rooms, me: Party, kind: nat)
    requires Stands(rooms, me, kind) && RoomsGrow(rooms, rooms')
    ensures Stands(rooms', me, kind)
  {
    var room, place, text :| OwnAt(rooms, me, room, place, text) && text.kind == kind;
    assert OwnAt(rooms', me, room, place, text);
  }

  lemma ActStaysSettled(config: Config, s: System, id: nat, action: Action, kind: nat)
    requires Settled(config, s, kind) && id in s.live
    ensures var s' := Step(config, s, Act(id, action));
            !MayBeRepeated(s', kind) && !Another(s.world.rooms, s'.world.rooms, config.me, kind)
  {
    hide WorldInv, InstInv, LateAreIntended, NewInv, Stands, Do, LeftUnknown, CrashedAt, PastItsLook;
    assert !PastItsLook(s.live[id], kind);
    ActGoesNoFurther(config.me, s.live[id], s.world, action, kind);
    UnknownIsAnother(s.live[id], kind);
  }

  lemma LateStaysSettled(config: Config, s: System, room: Room, text: Text, kind: nat)
    requires Settled(config, s, kind) && (room, text) in s.late
    ensures var s' := Step(config, s, LateLands(room, text));
            !MayBeRepeated(s', kind) && !Another(s.world.rooms, s'.world.rooms, config.me, kind)
  {
    hide Inv, AllNew, PastItsLook;
    PostedIsTheOnlyNew(s.world.rooms, config.me, Spec(room, text, false, false));
  }

  lemma OthersStaySettled(config: Config, s: System, event: Event, kind: nat)
    requires Settled(config, s, kind) && !event.Act? && !event.LateLands?
    ensures var s' := Step(config, s, event);
            !MayBeRepeated(s', kind) && !Another(s.world.rooms, s'.world.rooms, config.me, kind)
  {
    hide WorldInv, InstInv, LateAreIntended, FirstSave, CrashedAt;
    match event
    case StrangerPosts(room, sender, text, signed) =>
      if !(signed && sender == config.me) {
        StrangerAlone(config.me, s.world.rooms, room, sender, text, signed);
      }
    case Crash(id) => if id in s.live { UnknownIsAnother(s.live[id], kind); }
    case _ =>
  }

  lemma StepStaysSettled(config: Config, s: System, event: Event, kind: nat)
    requires Settled(config, s, kind)
    ensures Settled(config, Step(config, s, event), kind)
    ensures !Another(s.world.rooms, Step(config, s, event).world.rooms, config.me, kind)
  {
    hide Inv, AllNew, MayBeRepeated, Stands, Another, Step, RoomsGrow;
    StepKeepsInv(config, s, event);
    StepKeepsNew(config, s, event);
    StandsOn(s.world.rooms, Step(config, s, event).world.rooms, config.me, kind);
    if event.Act? && event.id in s.live {
      ActStaysSettled(config, s, event.id, event.action, kind);
    } else if event.LateLands? && (event.room, event.text) in s.late {
      LateStaysSettled(config, s, event.room, event.text, kind);
    } else if event.Act? || event.LateLands? {
      NothingHappens(config, s, event, kind);
    } else {
      OthersStaySettled(config, s, event, kind);
    }
  }

  lemma NothingHappens(config: Config, s: System, event: Event, kind: nat)
    requires (event.Act? && event.id !in s.live) || (event.LateLands? && (event.room, event.text) !in s.late)
    ensures Step(config, s, event) == s && !Another(s.world.rooms, s.world.rooms, config.me, kind)
  {
  }

  lemma {:induction false} SettledForGood(config: Config, run: seq<Event>, more: seq<Event>, kind: nat)
    requires Settled(config, After(config, run), kind)
    ensures Settled(config, After(config, run + more), kind)
    ensures !Another(After(config, run).world.rooms, After(config, run + more).world.rooms, config.me, kind)
  {
    hide Settled, Step;
    if more == [] {
      assert run + more == run;
    } else {
      var front := more[..|more| - 1];
      SettledForGood(config, run, front, kind);
      AfterMore(config, run, more);
      StepStaysSettled(config, After(config, run + front), more[|more| - 1], kind);
    }
  }

  // --- what a post past its look does --------------------------------------------------------------------------------------

  /** The run, going on, has an own line of this kind that it had not. */
  ghost predicate AddsAnother(config: Config, run: seq<Event>, more: seq<Event>, kind: nat) {
    Another(After(config, run).world.rooms, After(config, run + more).world.rooms, config.me, kind)
  }

  lemma PostedIsAnother(rooms: Rooms, me: Party, room: Room, text: Text)
    ensures Another(rooms, Posted(rooms, room, me, text, true), me, text.kind)
  {
    assert OwnAt(Posted(rooms, room, me, text, true), me, room, |In(rooms, room)| + 1, text);
  }

  lemma AfterOne(config: Config, run: seq<Event>, event: Event)
    ensures After(config, run + [event]) == Step(config, After(config, run), event)
  {
    hide Step;
    AfterMore(config, run, [event]);
    assert run + [event][..0] == run;
  }

  lemma LateIsPosted(config: Config, s: System, room: Room, text: Text)
    requires (room, text) in s.late
    ensures Step(config, s, LateLands(room, text)).world.rooms == Posted(s.world.rooms, room, config.me, text, true)
  {
  }

  lemma LateAddsAnother(config: Config, run: seq<Event>, room: Room, text: Text)
    requires (room, text) in After(config, run).late
    ensures AddsAnother(config, run, [LateLands(room, text)], text.kind)
  {
    hide Step, Posted, Another;
    AfterOne(config, run, LateLands(room, text));
    LateIsPosted(config, After(config, run), room, text);
    PostedIsAnother(After(config, run).world.rooms, config.me, room, text);
  }

  lemma AtItsPostAddsAnother(config: Config, run: seq<Event>, id: nat, kind: nat)
    requires var s := After(config, run);
             && id in s.live && InstInv(config.me, s.live[id], s.world) && !s.live[id].journal.failed && AtItsPost(s.live[id], kind)
    ensures AddsAnother(config, run, [Act(id, Post(kind, PostReturned))], kind)
  {
    hide Posted, Another, WorldInv;
    var (i, event) := (After(config, run).live[id], Act(id, Post(kind, PostReturned)));
    AfterOne(config, run, event);
    PostsAnyway(config.me, i.inflight[kind].spec, After(config, run).world, i);
    PostedIsAnother(After(config, run).world.rooms, config.me, i.inflight[kind].spec.room, i.inflight[kind].spec.text);
  }

  /** A look that found nothing goes on to the post. */
  lemma ProceedsToItsPost(config: Config, s: System, id: nat, kind: nat)
    requires id in s.live && InstInv(config.me, s.live[id], s.world) && PastItsLook(s.live[id], kind)
    ensures var s' := Step(config, s, Act(id, Proceed(kind, true)));
            s'.world == s.world && id in s'.live && !s'.live[id].journal.failed && AtItsPost(s'.live[id], kind)
  {
  }

  lemma PastItsLookAddsAnother(config: Config, run: seq<Event>, id: nat, kind: nat)
    requires id in After(config, run).live && PastItsLook(After(config, run).live[id], kind)
    ensures exists more: seq<Event> :: AddsAnother(config, run, more, kind)
  {
    hide Step, PastItsLook, WorldInv, InstInv, Another;
    var (proceed, post) := (Act(id, Proceed(kind, true)), Act(id, Post(kind, PostReturned)));
    EveryRunKeepsInv(config, run);
    EveryRunKeepsInv(config, run + [proceed]);
    ProceedsToItsPost(config, After(config, run), id, kind);
    AfterOne(config, run, proceed);
    AtItsPostAddsAnother(config, run + [proceed], id, kind);
    assert run + [proceed] + [post] == run + [proceed, post];
    assert AddsAnother(config, run, [proceed, post], kind);
  }

  /**
   * Over every run, with any number of live instances: once an own line of a kind stands, some continuation adds another own
   * line of that kind exactly when a post of that kind may land yet, or a live instance whose journal did not fail is past
   * its look at the room for that kind.
   */
  lemma AKindIsRepeatedExactly(config: Config, run: seq<Event>, kind: nat)
    requires Stands(After(config, run).world.rooms, config.me, kind)
    ensures (exists more: seq<Event> :: AddsAnother(config, run, more, kind))
            <==> (|| (exists post :: post in After(config, run).late && post.1.kind == kind)
                  || (exists id :: id in After(config, run).live && PastItsLook(After(config, run).live[id], kind)))
  {
    hide Step, Stands, PastItsLook, Another, WorldInv, InstInv;
    var s := After(config, run);
    if post :| post in s.late && post.1.kind == kind {
      LateAddsAnother(config, run, post.0, post.1);
      assert AddsAnother(config, run, [LateLands(post.0, post.1)], kind);
    } else if id :| id in s.live && PastItsLook(s.live[id], kind) {
      PastItsLookAddsAnother(config, run, id, kind);
    } else {
      EveryRunKeepsInv(config, run);
      EveryRunIsNew(config, run);
      forall more: seq<Event> ensures !AddsAnother(config, run, more, kind) {
        SettledForGood(config, run, more, kind);
      }
    }
  }
}
