/**
 * What posting through the journal keeps over every run of `Frames`. With any number of live instances: a line is in the
 * store's ledger before it is in a room, entries never change, and a landed mark names the very line. With one live
 * instance at a time, each kind of line is in the rooms at most once.
 */
module FrameRuns {
  import opened Options
  import opened Journal
  import opened Frames

  // --- the ledger only grows -------------------------------------------------------------------------------------------

  predicate EntryStays(before: Entry, now: Entry) {
    now.room == before.room && now.text == before.text && (before.landed.Some? ==> now.landed == before.landed)
  }

  /** Every entry is still there, with its room, its text, and its landed mark if it had one. */
  ghost predicate Grows(before: Book, now: Book) {
    forall kind :: kind in before.ledger ==> kind in now.ledger && EntryStays(before.ledger[kind], now.ledger[kind])
  }

  ghost predicate HeldIsLast(store: Store<Book>) {
    store.held == if store.history == [] then None else Some(store.history[|store.history| - 1])
  }

  ghost predicate HistoryGrows(store: Store<Book>) {
    forall k :: 0 <= k < |store.history| ==> store.held.Some? && Grows(store.history[k].body, store.held.value.body)
  }

  // --- the invariant -----------------------------------------------------------------------------------------------------

  /** An own line stands at this place of the room. */
  predicate OwnAt(rooms: Rooms, me: Party, room: Room, place: nat, text: Text) {
    1 <= place <= |In(rooms, room)| && IsOwn(In(rooms, room)[place - 1], me, text)
  }

  predicate Names(entry: Entry, room: Room, text: Text) {
    entry.room == room && (entry.text == Plain(text) || entry.text == DigestOf(text))
  }

  /** The ledger held by the store intends this line. */
  predicate Intended(store: Store<Book>, room: Room, text: Text) {
    store.held.Some? && text.kind in store.held.value.body.ledger && Names(store.held.value.body.ledger[text.kind], room, text)
  }

  ghost predicate LinesAreIntended(me: Party, w: World) {
    forall room, place, text :: OwnAt(w.rooms, me, room, place, text) ==> Intended(w.store, room, text)
  }

  ghost predicate MarkIsTrue(me: Party, rooms: Rooms, entry: Entry) {
    entry.landed.Some? ==> OwnAt(rooms, me, entry.room, entry.landed.value, entry.text.text)
  }

  ghost predicate MarksAreTrue(me: Party, w: World) {
    w.store.held.Some? ==>
      forall kind :: kind in w.store.held.value.body.ledger ==> MarkIsTrue(me, w.rooms, w.store.held.value.body.ledger[kind])
  }

  ghost predicate WorldInv(me: Party, w: World) {
    HeldIsLast(w.store) && HistoryGrows(w.store) && LinesAreIntended(me, w) && MarksAreTrue(me, w)
  }

  predicate Kept(body: Book, spec: Spec) {
    Intends(body, spec)
  }

  /** An attempt that may post has its intent in the record; one that found or posted a line has that line. */
  predicate AttemptInv(me: Party, body: Book, rooms: Rooms, attempt: Attempt) {
    var spec := attempt.spec;
    match attempt.pc
    case Reading(isNew) => !isNew ==> Kept(body, spec)
    case Looked(isNew, found) =>
      (!isNew ==> Kept(body, spec)) && (found.Some? ==> OwnAt(rooms, me, spec.room, found.value, spec.text))
    case SavingIntent => true
    case Posting => Kept(body, spec)
    case Marking(place, ensureIntent) =>
      (!ensureIntent ==> Kept(body, spec)) && OwnAt(rooms, me, spec.room, place, spec.text)
  }

  ghost predicate InstInv(me: Party, i: Instance, w: World) {
    && i.journal.digest == Some(i.journal.current) && i.journal.current in w.store.history
    && forall kind :: kind in i.inflight ==>
         i.inflight[kind].spec.text.kind == kind && AttemptInv(me, i.journal.current.body, w.rooms, i.inflight[kind])
  }

  /** A post that may land yet is intended. */
  ghost predicate LateAreIntended(store: Store<Book>, late: set<(Room, Text)>) {
    forall post :: post in late ==> Intended(store, post.0, post.1)
  }

  ghost predicate Inv(config: Config, s: System) {
    WorldInv(config.me, s.world) && LateAreIntended(s.world.store, s.late) && forall id :: id in s.live ==> InstInv(config.me, s.live[id], s.world)
  }

  // --- what stays ----------------------------------------------------------------------------------------------------------

  ghost predicate RoomsGrow(rooms: Rooms, rooms': Rooms) {
    forall room :: room in rooms ==> rooms[room] <= In(rooms', room)
  }

  ghost predicate Later(w: World, w': World) {
    w.store.history <= w'.store.history && RoomsGrow(w.rooms, w'.rooms)
  }

  lemma KeptStays(before: Book, now: Book, spec: Spec)
    requires Grows(before, now) && Kept(before, spec)
    ensures Kept(now, spec)
  {
  }

  lemma AttemptInvStays(me: Party, body: Book, body': Book, rooms: Rooms, rooms': Rooms, attempt: Attempt)
    requires AttemptInv(me, body, rooms, attempt) && Grows(body, body') && RoomsGrow(rooms, rooms')
    ensures AttemptInv(me, body', rooms', attempt)
  {
  }

  lemma InstInvStays(me: Party, i: Instance, w: World, w': World)
    requires InstInv(me, i, w) && Later(w, w')
    ensures InstInv(me, i, w')
  {
    forall kind | kind in i.inflight ensures AttemptInv(me, i.journal.current.body, w'.rooms, i.inflight[kind]) {
      AttemptInvStays(me, i.journal.current.body, i.journal.current.body, w.rooms, w'.rooms, i.inflight[kind]);
    }
  }

  /** Rooms grow by lines that are not this party's: nothing is to be intended. */
  lemma StrangerKeepsWorld(me: Party, w: World, room: Room, sender: Party, text: Text, signed: bool)
    requires WorldInv(me, w) && !(signed && sender == me)
    ensures var w' := w.(rooms := Posted(w.rooms, room, sender, text, signed));
            WorldInv(me, w') && Later(w, w')
  {
    var w' := w.(rooms := Posted(w.rooms, room, sender, text, signed));
    assert RoomsGrow(w.rooms, w'.rooms);
    forall r, place, t | OwnAt(w'.rooms, me, r, place, t) ensures Intended(w'.store, r, t) {
      assert OwnAt(w.rooms, me, r, place, t);
    }
    MarksStay(me, w, w');
  }

  lemma MarksStay(me: Party, w: World, w': World)
    requires MarksAreTrue(me, w) && RoomsGrow(w.rooms, w'.rooms) && w'.store == w.store
    ensures MarksAreTrue(me, w')
  {
    if w.store.held.Some? {
      var ledger := w.store.held.value.body.ledger;
      forall kind | kind in ledger ensures MarkIsTrue(me, w'.rooms, ledger[kind]) {
        assert MarkIsTrue(me, w.rooms, ledger[kind]);
      }
    }
  }

  // --- a save ------------------------------------------------------------------------------------------------------------

  /** What a derivation saves only adds to the ledger, and marks only true places. */
  ghost predicate Honest(me: Party, rooms: Rooms, body: Book, derived: Derived<Book>) {
    derived.SaveBody? ==>
      && Grows(body, derived.body)
      && forall kind :: kind in derived.body.ledger ==>
           (kind in body.ledger && derived.body.ledger[kind] == body.ledger[kind]) || MarkIsTrue(me, rooms, derived.body.ledger[kind])
  }

  /** The store's step of one save. */
  lemma SaveShape(i: Instance, w: World, derive: Book -> Derived<Book>, rest: Option<nat>, fault: Fault)
    requires i.journal.digest == Some(i.journal.current)
    ensures var written := Save(i, w, derive, rest, fault);
            var derived := derive(i.journal.current.body);
            && written.journal.digest == Some(written.journal.current)
            && (written.answer.Resolved? ==> !written.journal.failed && !i.journal.failed && !derived.RefusedByCaller? && !derived.InvalidRecord?)
            && (written.journal.current == i.journal.current
                || (written.answer.Resolved? && written.store != w.store && written.store.held == Some(written.journal.current)
                    && derived.SaveBody? && written.journal.current.body.ledger == derived.body.ledger))
            && (written.answer.Resolved? && derived.SaveBody? ==>
                  written.store != w.store && written.journal.current.body.ledger == derived.body.ledger)
            && (written.store == w.store
                || (&& derived.SaveBody? && rest.Some? && w.store.held == Some(i.journal.current) && written.store.held.Some?
                    && written.store.history == w.store.history + [written.store.held.value]
                    && written.store.held.value.body.ledger == derived.body.ledger))
  {
    var written := Save(i, w, derive, rest, fault);
    if written.answer.Resolved? && derive(i.journal.current.body).SaveBody? {
      assert |written.store.history| == |w.store.history| + 1;
    }
  }

  lemma GrowsOn(a: Book, b: Book, c: Book)
    requires Grows(a, b) && Grows(b, c)
    ensures Grows(a, c)
  {
  }

  lemma SaveKeepsWorld(me: Party, i: Instance, w: World, derive: Book -> Derived<Book>, rest: Option<nat>, fault: Fault)
    requires WorldInv(me, w) && InstInv(me, i, w) && Honest(me, w.rooms, i.journal.current.body, derive(i.journal.current.body))
    ensures var w' := w.(store := Save(i, w, derive, rest, fault).store);
            WorldInv(me, w') && Later(w, w')
  {
    SaveShape(i, w, derive, rest, fault);
    var w' := w.(store := Save(i, w, derive, rest, fault).store);
    if w'.store != w.store {
      var body, body' := i.journal.current.body, w'.store.held.value.body;
      assert Grows(body, body');
      forall k | 0 <= k < |w'.store.history| ensures Grows(w'.store.history[k].body, body') {
        if k < |w.store.history| {
          GrowsOn(w.store.history[k].body, body, body');
        }
      }
      forall room, place, text | OwnAt(w'.rooms, me, room, place, text) ensures Intended(w'.store, room, text) {
        assert Intended(w.store, room, text);
      }
    }
  }

  /** After a save every attempt still has what it had. */
  lemma SaveKeepsInst(me: Party, i: Instance, w: World, derive: Book -> Derived<Book>, rest: Option<nat>, fault: Fault)
    requires WorldInv(me, w) && InstInv(me, i, w) && Honest(me, w.rooms, i.journal.current.body, derive(i.journal.current.body))
    ensures var written := Save(i, w, derive, rest, fault);
            && InstInv(me, i.(journal := written.journal), w.(store := written.store))
            && Grows(i.journal.current.body, written.journal.current.body)
  {
    SaveShape(i, w, derive, rest, fault);
    var written := Save(i, w, derive, rest, fault);
    assert Grows(i.journal.current.body, written.journal.current.body);
    forall kind | kind in i.inflight ensures AttemptInv(me, written.journal.current.body, w.rooms, i.inflight[kind]) {
      AttemptInvStays(me, i.journal.current.body, written.journal.current.body, w.rooms, w.rooms, i.inflight[kind]);
    }
  }

  lemma IntentIsHonest(me: Party, rooms: Rooms, body: Book, spec: Spec)
    ensures Honest(me, rooms, body, DeriveIntent(spec)(body))
    ensures !DeriveIntent(spec)(body).RefusedByCaller? && !DeriveIntent(spec)(body).InvalidRecord? ==>
              Intends(if DeriveIntent(spec)(body).SaveBody? then DeriveIntent(spec)(body).body else body, spec)
  {
  }

  lemma MarkIsHonest(me: Party, rooms: Rooms, body: Book, spec: Spec, place: nat, ensureIntent: bool)
    requires OwnAt(rooms, me, spec.room, place, spec.text) && (!ensureIntent ==> Intends(body, spec))
    ensures Honest(me, rooms, body, DeriveMark(spec, place, ensureIntent)(body))
  {
  }

  // --- the steps -----------------------------------------------------------------------------------------------------------

  ghost predicate StepInv(me: Party, w: World, r: Result) {
    WorldInv(me, r.world) && InstInv(me, r.inst, r.world) && Later(w, r.world)
  }

  lemma StartStep(me: Party, i: Instance, w: World, spec: Spec)
    requires WorldInv(me, w) && InstInv(me, i, w)
    ensures StepInv(me, w, DoStart(i, w, spec))
  {
  }

  lemma ReadStep(me: Party, i: Instance, w: World, kind: nat)
    requires WorldInv(me, w) && InstInv(me, i, w)
    ensures StepInv(me, w, DoRead(me, i, w, kind))
  {
  }

  lemma ProceedStep(me: Party, i: Instance, w: World, kind: nat, guardPasses: bool)
    requires WorldInv(me, w) && InstInv(me, i, w)
    ensures StepInv(me, w, DoProceed(i, w, kind, guardPasses))
  {
  }

  lemma SaveIntentStep(me: Party, i: Instance, w: World, kind: nat, rest: Option<nat>, fault: Fault)
    requires WorldInv(me, w) && InstInv(me, i, w)
    ensures StepInv(me, w, DoSaveIntent(i, w, kind, rest, fault))
  {
    if kind in i.inflight && i.inflight[kind].pc.SavingIntent? {
      var spec := i.inflight[kind].spec;
      IntentIsHonest(me, w.rooms, i.journal.current.body, spec);
      SaveShape(i, w, DeriveIntent(spec), rest, fault);
      SaveKeepsWorld(me, i, w, DeriveIntent(spec), rest, fault);
      SaveKeepsInst(me, i, w, DeriveIntent(spec), rest, fault);
      var written := Save(i, w, DeriveIntent(spec), rest, fault);
      assert written.answer.Resolved? ==> Intends(written.journal.current.body, spec);
    }
  }

  /** A party's own line, whose intent the held ledger has, joins the room. */
  lemma PostKeepsWorld(me: Party, w: World, spec: Spec)
    requires WorldInv(me, w) && w.store.held.Some? && Intends(w.store.held.value.body, spec)
    ensures var w' := w.(rooms := Posted(w.rooms, spec.room, me, spec.text, true));
            && WorldInv(me, w') && Later(w, w') && OwnAt(w'.rooms, me, spec.room, |In(w.rooms, spec.room)| + 1, spec.text)
  {
    var w' := w.(rooms := Posted(w.rooms, spec.room, me, spec.text, true));
    assert RoomsGrow(w.rooms, w'.rooms);
    forall room, place, text | OwnAt(w'.rooms, me, room, place, text) ensures Intended(w'.store, room, text) {
      if !(room == spec.room && place == |In(w'.rooms, room)|) {
        assert OwnAt(w.rooms, me, room, place, text);
      }
    }
    MarksStay(me, w, w');
  }

  lemma PostStep(me: Party, i: Instance, w: World, kind: nat, outcome: PostOutcome)
    requires WorldInv(me, w) && InstInv(me, i, w)
    ensures StepInv(me, w, DoPost(me, i, w, kind, outcome))
  {
    if kind in i.inflight && i.inflight[kind].pc.Posting? && !i.journal.failed && !outcome.PostFailed? {
      var spec := i.inflight[kind].spec;
      var k :| 0 <= k < |w.store.history| && w.store.history[k] == i.journal.current;
      KeptStays(i.journal.current.body, w.store.held.value.body, spec);
      PostKeepsWorld(me, w, spec);
      InstInvStays(me, i, w, DoPost(me, i, w, kind, outcome).world);
    }
  }

  lemma MarkStep(me: Party, i: Instance, w: World, kind: nat, rest: Option<nat>, fault: Fault)
    requires WorldInv(me, w) && InstInv(me, i, w)
    ensures StepInv(me, w, DoMark(i, w, kind, rest, fault))
  {
    if kind in i.inflight && i.inflight[kind].pc.Marking? {
      var (spec, pc) := (i.inflight[kind].spec, i.inflight[kind].pc);
      var derive := DeriveMark(spec, pc.seqNo, pc.ensureIntent);
      MarkIsHonest(me, w.rooms, i.journal.current.body, spec, pc.seqNo, pc.ensureIntent);
      SaveKeepsWorld(me, i, w, derive, rest, fault);
      SaveKeepsInst(me, i, w, derive, rest, fault);
    }
  }

  lemma SaveOtherStep(me: Party, i: Instance, w: World, rest: Option<nat>, fault: Fault)
    requires WorldInv(me, w) && InstInv(me, i, w)
    ensures StepInv(me, w, DoSaveOther(i, w, rest, fault))
  {
    SaveKeepsWorld(me, i, w, book => SaveBody(book), rest, fault);
    SaveKeepsInst(me, i, w, book => SaveBody(book), rest, fault);
  }

  lemma ActStep(me: Party, i: Instance, w: World, action: Action)
    requires WorldInv(me, w) && InstInv(me, i, w)
    ensures StepInv(me, w, Do(me, i, w, action))
  {
    match action
    case Start(spec) => StartStep(me, i, w, spec);
    case Read(kind) => ReadStep(me, i, w, kind);
    case Proceed(kind, guardPasses) => ProceedStep(me, i, w, kind, guardPasses);
    case SaveIntent(kind, rest, fault) => SaveIntentStep(me, i, w, kind, rest, fault);
    case Post(kind, outcome) => PostStep(me, i, w, kind, outcome);
    case Mark(kind, rest, fault) => MarkStep(me, i, w, kind, rest, fault);
    case SaveOther(rest, fault) => SaveOtherStep(me, i, w, rest, fault);
  }

  lemma FirstSaveShape(w: World, rest: nat, fault: Fault)
    ensures var written := FirstSave(w, rest, fault);
            && (written.store == w.store
                || (&& w.store.held.None? && written.store.held.Some? && written.store.held.value.body == NewBook(rest)
                    && written.store.history == w.store.history + [written.store.held.value]))
            && (written.answer.Resolved? ==>
                  written.store != w.store && written.store.held.Some? && written.journal == Opened(written.store.held.value))
  {
    var written := FirstSave(w, rest, fault);
    if written.answer.Resolved? {
      assert |written.store.history| == |w.store.history| + 1;
    }
  }

  lemma FirstSaveStep(me: Party, w: World, rest: nat, fault: Fault)
    requires WorldInv(me, w)
    ensures var w' := w.(store := FirstSave(w, rest, fault).store);
            WorldInv(me, w') && Later(w, w')
  {
    FirstSaveShape(w, rest, fault);
    var w' := w.(store := FirstSave(w, rest, fault).store);
    forall room, place, text | OwnAt(w'.rooms, me, room, place, text) ensures Intended(w'.store, room, text) {
      assert Intended(w.store, room, text);
    }
  }

  /** The instances a step leaves alone keep their invariant as the world moves on. */
  lemma OthersStay(me: Party, live: map<nat, Instance>, w: World, w': World)
    requires Later(w, w') && forall id :: id in live ==> InstInv(me, live[id], w)
    ensures forall id :: id in live ==> InstInv(me, live[id], w')
  {
    forall id | id in live ensures InstInv(me, live[id], w') {
      InstInvStays(me, live[id], w, w');
    }
  }

  /** What was intended once stays intended. */
  lemma IntendedStays(me: Party, w: World, w': World, room: Room, text: Text)
    requires WorldInv(me, w) && WorldInv(me, w') && Later(w, w') && Intended(w.store, room, text)
    ensures Intended(w'.store, room, text)
  {
    var n := |w.store.history| - 1;
    assert w'.store.history[n] == w.store.held.value;
  }

  lemma LateStayIntended(me: Party, w: World, w': World, late: set<(Room, Text)>)
    requires WorldInv(me, w) && WorldInv(me, w') && Later(w, w') && LateAreIntended(w.store, late)
    ensures LateAreIntended(w'.store, late)
  {
    forall post | post in late ensures Intended(w'.store, post.0, post.1) {
      IntendedStays(me, w, w', post.0, post.1);
    }
  }

  /** An attempt at its post has its intent in the store. */
  lemma AtItsPostIsIntended(me: Party, i: Instance, w: World, kind: nat)
    requires WorldInv(me, w) && InstInv(me, i, w) && AtItsPost(i, kind)
    ensures Intended(w.store, i.inflight[kind].spec.room, i.inflight[kind].spec.text)
  {
    var spec := i.inflight[kind].spec;
    var k :| 0 <= k < |w.store.history| && w.store.history[k] == i.journal.current;
    KeptStays(i.journal.current.body, w.store.held.value.body, spec);
  }

  lemma UnknownAreIntended(me: Party, i: Instance, w: World, action: Action)
    requires WorldInv(me, w) && InstInv(me, i, w)
    ensures LateAreIntended(w.store, LeftUnknown(i, action))
  {
    if action.Post? && AtItsPost(i, action.kind) {
      AtItsPostIsIntended(me, i, w, action.kind);
    }
  }

  lemma CrashedAreIntended(me: Party, i: Instance, w: World)
    requires WorldInv(me, w) && InstInv(me, i, w)
    ensures LateAreIntended(w.store, CrashedAt(i))
  {
    forall post | post in CrashedAt(i) ensures Intended(w.store, post.0, post.1) {
      var kind :| kind in i.inflight && AtItsPost(i, kind) && post == (i.inflight[kind].spec.room, i.inflight[kind].spec.text);
      AtItsPostIsIntended(me, i, w, kind);
    }
  }

  /** A late post lands: an own line whose intent the held ledger has joins the room. */
  lemma LateKeepsWorld(me: Party, w: World, room: Room, text: Text)
    requires WorldInv(me, w) && Intended(w.store, room, text)
    ensures var w' := w.(rooms := Posted(w.rooms, room, me, text, true));
            WorldInv(me, w') && Later(w, w')
  {
    var w' := w.(rooms := Posted(w.rooms, room, me, text, true));
    assert RoomsGrow(w.rooms, w'.rooms);
    forall r, place, t | OwnAt(w'.rooms, me, r, place, t) ensures Intended(w'.store, r, t) {
      if !(r == room && place == |In(w'.rooms, r)|) {
        assert OwnAt(w.rooms, me, r, place, t);
      }
    }
    MarksStay(me, w, w');
  }

  lemma ActKeepsInv(config: Config, s: System, id: nat, action: Action)
    requires Inv(config, s) && id in s.live
    ensures Inv(config, Step(config, s, Act(id, action))) && Later(s.world, Step(config, s, Act(id, action)).world)
  {
    hide WorldInv, InstInv, Do, LeftUnknown;
    var i, w := s.live[id], s.world;
    var w' := Do(config.me, i, w, action).world;
    ActStep(config.me, i, w, action);
    OthersStay(config.me, s.live, w, w');
    UnknownAreIntended(config.me, i, w, action);
    LateStayIntended(config.me, w, w', s.late + LeftUnknown(i, action));
  }

  lemma BeginKeepsInv(config: Config, s: System, id: nat, rest: nat, fault: Fault)
    requires Inv(config, s)
    ensures var s' := Step(config, s, Begin(id, rest, fault));
            Inv(config, s') && Later(s.world, s'.world)
  {
    hide FirstSave;
    var w' := s.world.(store := FirstSave(s.world, rest, fault).store);
    FirstSaveShape(s.world, rest, fault);
    FirstSaveStep(config.me, s.world, rest, fault);
    OthersStay(config.me, s.live, s.world, w');
    LateStayIntended(config.me, s.world, w', s.late);
  }

  lemma StepKeepsInv(config: Config, s: System, event: Event)
    requires Inv(config, s)
    ensures Inv(config, Step(config, s, event)) && Later(s.world, Step(config, s, event).world)
  {
    hide Do, FirstSave, CrashedAt, LeftUnknown;
    match event
    case Begin(id, rest, fault) => BeginKeepsInv(config, s, id, rest, fault);
    case Resume(id) =>
    case Crash(id) => if id in s.live { CrashedAreIntended(config.me, s.live[id], s.world); }
    case Act(id, action) => if id in s.live { ActKeepsInv(config, s, id, action); }
    case LateLands(room, text) =>
      if (room, text) in s.late {
        LateKeepsWorld(config.me, s.world, room, text);
        OthersStay(config.me, s.live, s.world, s.world.(rooms := Posted(s.world.rooms, room, config.me, text, true)));
      }
    case Tick(toMs) => OthersStay(config.me, s.live, s.world, s.world.(nowMs := toMs));
    case StrangerPosts(room, sender, text, signed) =>
      if !(signed && sender == config.me) {
        StrangerKeepsWorld(config.me, s.world, room, sender, text, signed);
        OthersStay(config.me, s.live, s.world, s.world.(rooms := Posted(s.world.rooms, room, sender, text, signed)));
      }
  }

  lemma {:induction false} EveryRunKeepsInv(config: Config, run: seq<Event>)
    ensures Inv(config, After(config, run))
  {
    if run != [] {
      EveryRunKeepsInv(config, run[..|run| - 1]);
      StepKeepsInv(config, After(config, run[..|run| - 1]), run[|run| - 1]);
    }
  }

  // --- durable before visible ------------------------------------------------------------------------------------------

  /**
   * Over every run, with any number of live instances, every line this party signed into a room is in the store's ledger
   * under its kind, with that room and that text or its digest; so no kind ever has two texts, or stands in two rooms.
   */
  lemma EveryLineIsIntended(config: Config, run: seq<Event>, room: Room, place: nat, text: Text)
    requires OwnAt(After(config, run).world.rooms, config.me, room, place, text)
    ensures Intended(After(config, run).world.store, room, text)
  {
    EveryRunKeepsInv(config, run);
  }

  lemma NoKindHasTwoTexts(config: Config, run: seq<Event>, room: Room, place: nat, text: Text, room': Room, place': nat, text': Text)
    requires OwnAt(After(config, run).world.rooms, config.me, room, place, text)
    requires OwnAt(After(config, run).world.rooms, config.me, room', place', text') && text.kind == text'.kind
    ensures text == text' && room == room'
  {
    EveryLineIsIntended(config, run, room, place, text);
    EveryLineIsIntended(config, run, room', place', text');
  }

  /** A landed mark names this party's own line, at that very place of the entry's room. */
  lemma LandedMarksAreTrue(config: Config, run: seq<Event>, kind: nat)
    requires var store := After(config, run).world.store;
             store.held.Some? && kind in store.held.value.body.ledger && store.held.value.body.ledger[kind].landed.Some?
    ensures var w := After(config, run).world;
            var entry := w.store.held.value.body.ledger[kind];
            OwnAt(w.rooms, config.me, entry.room, entry.landed.value, entry.text.text)
  {
    EveryRunKeepsInv(config, run);
    var w := After(config, run).world;
    assert MarkIsTrue(config.me, w.rooms, w.store.held.value.body.ledger[kind]);
  }

  lemma AfterMore(config: Config, run: seq<Event>, more: seq<Event>)
    requires more != []
    ensures After(config, run + more) == Step(config, After(config, run + more[..|more| - 1]), more[|more| - 1])
  {
    assert (run + more)[..|run + more| - 1] == run + more[..|more| - 1];
  }

  /** However a run goes on, no room loses or changes a line, and no ledger entry moves: not its room, its text or its mark. */
  lemma {:induction false} LinesAndEntriesStay(config: Config, run: seq<Event>, more: seq<Event>)
    ensures Later(After(config, run).world, After(config, run + more).world)
    ensures var before, now := After(config, run).world.store.held, After(config, run + more).world.store.held;
            before.Some? ==> now.Some? && Grows(before.value.body, now.value.body)
  {
    EveryRunKeepsInv(config, run + more);
    if more == [] {
      assert run + more == run;
    } else {
      var front := more[..|more| - 1];
      LinesAndEntriesStay(config, run, front);
      EveryRunKeepsInv(config, run + front);
      AfterMore(config, run, more);
      StepKeepsInv(config, After(config, run + front), more[|more| - 1]);
    }
    EveryRunKeepsInv(config, run);
    var w, w' := After(config, run).world, After(config, run + more).world;
    if w.store.held.Some? {
      var n := |w.store.history| - 1;
      assert w'.store.history[n] == w.store.held.value;
    }
  }

  /** An instance whose journal failed neither posts nor writes, whatever step it takes. */
  lemma FailedNeverPosts(me: Party, i: Instance, w: World, action: Action)
    requires i.journal.failed
    ensures Do(me, i, w, action).world == w && Do(me, i, w, action).inst.journal == i.journal
  {
  }

  // --- one live instance at a time ---------------------------------------------------------------------------------------

  /** No line of this kind by this party stands in any room. */
  ghost predicate NoneOf(rooms: Rooms, me: Party, kind: nat) {
    forall room, place, text :: OwnAt(rooms, me, room, place, text) ==> text.kind != kind
  }

  ghost predicate OnceEach(rooms: Rooms, me: Party) {
    forall room, place, text, room', place', text' ::
      OwnAt(rooms, me, room, place, text) && OwnAt(rooms, me, room', place', text') && text.kind == text'.kind
      ==> room == room' && place == place'
  }

  /** An attempt on its way to a post has no line in any room yet. */
  predicate OnItsWay(pc: Pc) {
    match pc
    case Reading(isNew) => isNew
    case Looked(_, found) => found.None?
    case SavingIntent => true
    case Posting => true
    case Marking(_, _) => false
  }

  ghost predicate AloneInv(me: Party, i: Instance, w: World) {
    && (!i.journal.failed ==> w.store.held == Some(i.journal.current))
    && forall kind :: kind in i.inflight && OnItsWay(i.inflight[kind].pc) ==> NoneOf(w.rooms, me, kind)
  }

  ghost predicate Alone(config: Config, s: System) {
    && OnceEach(s.world.rooms, config.me)
    && (forall id, other :: id in s.live && other in s.live ==> id == other)
    && forall id :: id in s.live ==> AloneInv(config.me, s.live[id], s.world)
  }

  /** A kind the ledger does not have was never posted. */
  lemma UnintendedIsUnposted(me: Party, w: World, kind: nat)
    requires WorldInv(me, w)
    requires w.store.held.Some? ==> kind !in w.store.held.value.body.ledger
    ensures NoneOf(w.rooms, me, kind)
  {
  }

  /** A line looked for in its own room and not found is nowhere. */
  lemma NotFoundIsNowhere(me: Party, w: World, spec: Spec)
    requires WorldInv(me, w) && w.store.held.Some? && Intends(w.store.held.value.body, spec)
    requires FindOwn(In(w.rooms, spec.room), me, spec.text).None?
    ensures NoneOf(w.rooms, me, spec.text.kind)
  {
    forall room, place, text | OwnAt(w.rooms, me, room, place, text) ensures text.kind != spec.text.kind {
      assert Intended(w.store, room, text);
    }
  }

  lemma CurrentIsHeldBefore(me: Party, i: Instance, w: World, spec: Spec)
    requires WorldInv(me, w) && InstInv(me, i, w) && Intends(i.journal.current.body, spec)
    ensures w.store.held.Some? && Intends(w.store.held.value.body, spec)
  {
    var k :| 0 <= k < |w.store.history| && w.store.history[k] == i.journal.current;
    KeptStays(i.journal.current.body, w.store.held.value.body, spec);
  }

  ghost predicate AloneStep(me: Party, r: Result) {
    OnceEach(r.world.rooms, me) && AloneInv(me, r.inst, r.world)
  }

  ghost predicate AloneBefore(me: Party, i: Instance, w: World) {
    WorldInv(me, w) && InstInv(me, i, w) && OnceEach(w.rooms, me) && AloneInv(me, i, w)
  }

  lemma StartAlone(me: Party, i: Instance, w: World, spec: Spec)
    requires AloneBefore(me, i, w)
    ensures AloneStep(me, DoStart(i, w, spec))
  {
    if !i.journal.failed && spec.text.kind !in i.journal.current.body.ledger {
      UnintendedIsUnposted(me, w, spec.text.kind);
    }
  }

  lemma ReadAlone(me: Party, i: Instance, w: World, kind: nat)
    requires AloneBefore(me, i, w)
    ensures AloneStep(me, DoRead(me, i, w, kind))
  {
    if kind in i.inflight && i.inflight[kind].pc.Reading? && !i.inflight[kind].pc.isNew {
      var spec := i.inflight[kind].spec;
      CurrentIsHeldBefore(me, i, w, spec);
      if FindOwn(In(w.rooms, spec.room), me, spec.text).None? {
        NotFoundIsNowhere(me, w, spec);
      }
    }
  }

  lemma ProceedAlone(me: Party, i: Instance, w: World, kind: nat, guardPasses: bool)
    requires AloneBefore(me, i, w)
    ensures AloneStep(me, DoProceed(i, w, kind, guardPasses))
  {
  }

  lemma SaveIntentAlone(me: Party, i: Instance, w: World, kind: nat, rest: Option<nat>, fault: Fault)
    requires AloneBefore(me, i, w)
    ensures AloneStep(me, DoSaveIntent(i, w, kind, rest, fault))
  {
    if kind in i.inflight && i.inflight[kind].pc.SavingIntent? {
      SaveAlone(me, i, w, DeriveIntent(i.inflight[kind].spec), rest, fault);
    }
  }

  lemma SaveAlone(me: Party, i: Instance, w: World, derive: Book -> Derived<Book>, rest: Option<nat>, fault: Fault)
    requires AloneBefore(me, i, w)
    ensures var written := Save(i, w, derive, rest, fault);
            AloneInv(me, i.(journal := written.journal), w.(store := written.store))
  {
  }

  /** A post adds one own line, at the end of its room. */
  lemma PostedIsTheOnlyNew(rooms: Rooms, me: Party, spec: Spec)
    ensures var rooms' := Posted(rooms, spec.room, me, spec.text, true);
            forall room, place, text :: OwnAt(rooms', me, room, place, text) ==>
              OwnAt(rooms, me, room, place, text) || (text == spec.text && room == spec.room && place == |In(rooms', spec.room)|)
  {
  }

  lemma PostAlone(me: Party, i: Instance, w: World, kind: nat, outcome: PostOutcome)
    requires AloneBefore(me, i, w)
    ensures AloneStep(me, DoPost(me, i, w, kind, outcome))
  {
    hide WorldInv, OwnAt;
    if kind in i.inflight && i.inflight[kind].pc.Posting? && !i.journal.failed && !outcome.PostFailed? {
      var spec := i.inflight[kind].spec;
      PostedIsTheOnlyNew(w.rooms, me, spec);
    }
  }

  lemma MarkAlone(me: Party, i: Instance, w: World, kind: nat, rest: Option<nat>, fault: Fault)
    requires AloneBefore(me, i, w)
    ensures AloneStep(me, DoMark(i, w, kind, rest, fault))
  {
    if kind in i.inflight && i.inflight[kind].pc.Marking? {
      SaveAlone(me, i, w, DeriveMark(i.inflight[kind].spec, i.inflight[kind].pc.seqNo, i.inflight[kind].pc.ensureIntent), rest, fault);
    }
  }

  lemma ActAlone(me: Party, i: Instance, w: World, action: Action)
    requires AloneBefore(me, i, w)
    ensures AloneStep(me, Do(me, i, w, action))
  {
    match action
    case Start(spec) => StartAlone(me, i, w, spec);
    case Read(kind) => ReadAlone(me, i, w, kind);
    case Proceed(kind, guardPasses) => ProceedAlone(me, i, w, kind, guardPasses);
    case SaveIntent(kind, rest, fault) => SaveIntentAlone(me, i, w, kind, rest, fault);
    case Post(kind, outcome) => PostAlone(me, i, w, kind, outcome);
    case Mark(kind, rest, fault) => MarkAlone(me, i, w, kind, rest, fault);
    case SaveOther(rest, fault) => SaveAlone(me, i, w, book => SaveBody(book), rest, fault);
  }

  lemma StrangerAlone(me: Party, rooms: Rooms, room: Room, sender: Party, text: Text, signed: bool)
    requires !(signed && sender == me)
    ensures forall r, place, t :: OwnAt(Posted(rooms, room, sender, text, signed), me, r, place, t) ==> OwnAt(rooms, me, r, place, t)
  {
  }

  /** No post whose end nobody knew lands after all. */
  predicate NoneLandsLate(run: seq<Event>) {
    forall k :: 0 <= k < |run| ==> !run[k].LateLands?
  }

  lemma StepKeepsAlone(config: Config, s: System, event: Event)
    requires Inv(config, s) && Alone(config, s) && !config.many && !event.LateLands?
    ensures Alone(config, Step(config, s, event))
  {
    match event
    case Begin(id, rest, fault) => FirstSaveShape(s.world, rest, fault);
    case Resume(id) =>
    case Crash(id) =>
    case Act(id, action) => if id in s.live { ActAlone(config.me, s.live[id], s.world, action); }
    case Tick(_) =>
    case StrangerPosts(room, sender, text, signed) =>
      if !(signed && sender == config.me) {
        StrangerAlone(config.me, s.world.rooms, room, sender, text, signed);
      }
  }

  lemma {:induction false} EveryRunIsAlone(config: Config, run: seq<Event>)
    requires !config.many && NoneLandsLate(run)
    ensures Alone(config, After(config, run))
  {
    if run != [] {
      assert forall k :: 0 <= k < |run| - 1 ==> run[..|run| - 1][k] == run[k];
      EveryRunIsAlone(config, run[..|run| - 1]);
      EveryRunKeepsInv(config, run[..|run| - 1]);
      StepKeepsAlone(config, After(config, run[..|run| - 1]), run[|run| - 1]);
    }
  }

  /**
   * With one live instance at a time, and whatever crashes, refused saves and lost replies, each kind of line this party
   * posts stands in the rooms at most once, in one room, with one text; as long as no post that was given up lands later.
   */
  lemma EachKindIsPostedOnce(config: Config, run: seq<Event>, room: Room, place: nat, text: Text, room': Room, place': nat, text': Text)
    requires !config.many && NoneLandsLate(run)
    requires OwnAt(After(config, run).world.rooms, config.me, room, place, text)
    requires OwnAt(After(config, run).world.rooms, config.me, room', place', text') && text.kind == text'.kind
    ensures room == room' && place == place' && text == text'
  {
    EveryRunIsAlone(config, run);
  }

  /** The run of two instances that both took up one saved intent before either posted. */
  function TwoPosters(spec: Spec): seq<Event> {
    var kind := spec.text.kind;
    [Begin(0, 0, NoFault), Act(0, Start(spec)), Act(0, SaveIntent(kind, Some(0), NoFault)),
     Resume(1), Act(1, Start(spec)), Act(1, Read(kind)), Act(1, Proceed(kind, true)),
     Act(0, Post(kind, PostReturned)), Act(1, Post(kind, PostReturned))]
  }

  lemma StepOf(config: Config, run: seq<Event>, k: nat)
    requires k < |run|
    ensures After(config, run[..k + 1]) == Step(config, After(config, run[..k]), run[k])
  {
    assert run[..k + 1][..k] == run[..k];
  }

  lemma GoingOn(i: Instance, journal: Journal<Book>, spec: Spec, pc: Pc, pc': Pc)
    ensures Going(Going(i, spec, pc).(journal := journal), spec, pc') == Going(i.(journal := journal), spec, pc')
  {
  }

  /** The first instance's three steps: its record, its attempt, its saved intent. */
  lemma FirstPosterIntends(me: Party, spec: Spec)
    requires !spec.digestOnly && !spec.guarded
    ensures var (v1, v2) := (Version(1, 0, NewBook(0)), Version(2, 0, WithIntent(NewBook(0), spec)));
            var w := World(Store(Some(v1), [v1]), map[], 0);
            var i := Instance(Opened(v1), map[]);
            && FirstSave(World(Store(None, []), map[], 0), 0, NoFault) == Written(Opened(v1), w.store, Resolved)
            && DoStart(i, w, spec) == Result(Going(i, spec, SavingIntent), w)
            && DoSaveIntent(Going(i, spec, SavingIntent), w, spec.text.kind, Some(0), NoFault)
                 == Result(Going(Instance(Opened(v2), map[]), spec, Posting), w.(store := Store(Some(v2), [v1, v2])))
  {
    var v1 := Version(1, 0, NewBook(0));
    var i := Instance(Opened(v1), map[]);
    GoingOn(i, Opened(Version(2, 0, WithIntent(NewBook(0), spec))), spec, SavingIntent, Posting);
    assert [v1] + [Version(2, 0, WithIntent(NewBook(0), spec))] == [v1, Version(2, 0, WithIntent(NewBook(0), spec))];
  }

  /** The second instance's three steps: it finds the intent saved and the line not in the room. */
  lemma SecondPosterLooks(me: Party, spec: Spec, w: World, v2: Version<Book>)
    requires !spec.digestOnly && !spec.guarded && v2.body == WithIntent(NewBook(0), spec) && w.rooms == map[]
    ensures var i := Instance(Opened(v2), map[]);
            && DoStart(i, w, spec) == Result(Going(i, spec, Reading(false)), w)
            && DoRead(me, Going(i, spec, Reading(false)), w, spec.text.kind) == Result(Going(i, spec, Looked(false, None)), w)
            && DoProceed(Going(i, spec, Looked(false, None)), w, spec.text.kind, true) == Result(Going(i, spec, Posting), w)
  {
    var i := Instance(Opened(v2), map[]);
    GoingOn(i, i.journal, spec, Reading(false), Looked(false, None));
    GoingOn(i, i.journal, spec, Looked(false, None), Posting);
  }

  lemma PostsAnyway(me: Party, spec: Spec, w: World, i: Instance)
    requires !i.journal.failed && spec.text.kind in i.inflight && i.inflight[spec.text.kind] == Attempt(spec, Posting)
    ensures DoPost(me, i, w, spec.text.kind, PostReturned).world == w.(rooms := Posted(w.rooms, spec.room, me, spec.text, true))
  {
  }

  /** What the store holds once the intent is saved, and a poster past its last check. */
  function IntentSavedBy(spec: Spec): (World, Instance) {
    var (v1, v2) := (Version(1, 0, NewBook(0)), Version(2, 0, WithIntent(NewBook(0), spec)));
    (World(Store(Some(v2), [v1, v2]), map[], 0), Going(Instance(Opened(v2), map[]), spec, Posting))
  }

  /** One action of a run, the others as they are. */
  lemma Acted(config: Config, run: seq<Event>, k: nat, s: System, id: nat, action: Action)
    requires k < |run| && run[k] == Act(id, action) && After(config, run[..k]) == s && id in s.live
    ensures var r := Do(config.me, s.live[id], s.world, action);
            After(config, run[..k + 1]) == System(r.world, s.live[id := r.inst], s.late + LeftUnknown(s.live[id], action))
  {
    hide Do, LeftUnknown;
    StepOf(config, run, k);
  }

  lemma FirstBegins(config: Config, run: seq<Event>, spec: Spec)
    requires |run| > 0 && run[0] == Begin(0, 0, NoFault) && !spec.digestOnly && !spec.guarded
    ensures var v1 := Version(1, 0, NewBook(0));
            After(config, run[..1]) == System(World(Store(Some(v1), [v1]), map[], 0), map[0 := Instance(Opened(v1), map[])], {})
  {
    FirstPosterIntends(config.me, spec);
    assert run[..0] == [];
    StepOf(config, run, 0);
  }

  lemma FirstPosterIsReady(config: Config, run: seq<Event>, spec: Spec)
    requires !spec.digestOnly && !spec.guarded && |run| > 2
    requires run[0] == Begin(0, 0, NoFault) && run[1] == Act(0, Start(spec)) && run[2] == Act(0, SaveIntent(spec.text.kind, Some(0), NoFault))
    ensures After(config, run[..3]) == System(IntentSavedBy(spec).0, map[0 := IntentSavedBy(spec).1], {})
  {
    var v1 := Version(1, 0, NewBook(0));
    var w1, i1 := World(Store(Some(v1), [v1]), map[], 0), Instance(Opened(v1), map[]);
    hide DoStart, DoSaveIntent, Going;
    FirstPosterIntends(config.me, spec);
    FirstBegins(config, run, spec);
    Acted(config, run, 1, System(w1, map[0 := i1], {}), 0, Start(spec));
    var i2 := Going(i1, spec, SavingIntent);
    Acted(config, run, 2, System(w1, map[0 := i2], {}), 0, SaveIntent(spec.text.kind, Some(0), NoFault));
  }

  /** The poster that takes up the saved intent, up to its last check. */
  lemma LooksThenPosts(config: Config, run: seq<Event>, k: nat, s: System, id: nat, spec: Spec)
    requires k + 2 < |run| && After(config, run[..k]) == s && id in s.live && !spec.digestOnly && !spec.guarded
    requires run[k] == Act(id, Start(spec)) && run[k + 1] == Act(id, Read(spec.text.kind)) && run[k + 2] == Act(id, Proceed(spec.text.kind, true))
    requires s.world == IntentSavedBy(spec).0 && s.live[id] == Instance(Opened(s.world.store.held.value), map[])
    ensures After(config, run[..k + 3]) == s.(live := s.live[id := IntentSavedBy(spec).1])
  {
    var w, i := s.world, s.live[id];
    hide DoStart, DoRead, DoProceed, Going;
    SecondPosterLooks(config.me, spec, w, w.store.held.value);
    Acted(config, run, k, s, id, Start(spec));
    var s1 := s.(live := s.live[id := Going(i, spec, Reading(false))]);
    Acted(config, run, k + 1, s1, id, Read(spec.text.kind));
    var s2 := s.(live := s.live[id := Going(i, spec, Looked(false, None))]);
    assert s1.live[id := Going(i, spec, Looked(false, None))] == s2.live;
    Acted(config, run, k + 2, s2, id, Proceed(spec.text.kind, true));
    assert s2.live[id := IntentSavedBy(spec).1] == s.live[id := IntentSavedBy(spec).1];
  }

  lemma SecondPosterIsReady(config: Config, spec: Spec)
    requires config.many && !spec.digestOnly && !spec.guarded
    ensures var (w, ready) := IntentSavedBy(spec);
            After(config, TwoPosters(spec)[..7]) == System(w, map[0 := ready, 1 := ready], {})
  {
    var run := TwoPosters(spec);
    var (w, ready) := IntentSavedBy(spec);
    hide Do, Going;
    FirstPosterIsReady(config, run, spec);
    StepOf(config, run, 3);
    var s := System(w, map[0 := ready, 1 := Instance(Opened(w.store.held.value), map[])], {});
    assert After(config, run[..4]) == s;
    LooksThenPosts(config, run, 4, s, 1, spec);
    assert s.live[1 := ready] == map[0 := ready, 1 := ready];
  }

  /** One live instance at a time is needed: two that share a saved intent post it twice. */
  lemma TwoLiveInstancesMayPostTwice(me: Party, spec: Spec)
    requires !spec.digestOnly && !spec.guarded
    ensures var rooms := After(Config(me, true), TwoPosters(spec)).world.rooms;
            OwnAt(rooms, me, spec.room, 1, spec.text) && OwnAt(rooms, me, spec.room, 2, spec.text)
  {
    var config, run := Config(me, true), TwoPosters(spec);
    var (w, ready) := IntentSavedBy(spec);
    SecondPosterIsReady(config, spec);
    StepOf(config, run, 7);
    PostsAnyway(me, spec, w, ready);
    var s8 := After(config, run[..8]);
    StepOf(config, run, 8);
    PostsAnyway(me, spec, s8.world, ready);
    assert run[..9] == run;
  }

  /** The run of one instance whose first post was given up, was repeated, and landed after all. */
  function LatePoster(spec: Spec): seq<Event> {
    var kind := spec.text.kind;
    [Begin(0, 0, NoFault), Act(0, Start(spec)), Act(0, SaveIntent(kind, Some(0), NoFault)), Act(0, Post(kind, PostFailed)),
     Act(0, Start(spec)), Act(0, Read(kind)), Act(0, Proceed(kind, true)), Act(0, Post(kind, PostReturned)), LateLands(spec.room, spec.text)]
  }

  lemma GivenUp(me: Party, spec: Spec)
    ensures var (w, ready) := IntentSavedBy(spec);
            var gone := Instance(ready.journal, map[]);
            && DoPost(me, ready, w, spec.text.kind, PostFailed) == Result(gone, w)
            && LeftUnknown(ready, Post(spec.text.kind, PostFailed)) == {(spec.room, spec.text)}
            && LeftUnknown(ready, Post(spec.text.kind, PostReturned)) == {}
  {
    var ready := IntentSavedBy(spec).1;
    assert ready.inflight - {spec.text.kind} == map[];
  }

  lemma LatePosterIsReady(me: Party, spec: Spec)
    requires !spec.digestOnly && !spec.guarded
    ensures var (w, ready) := IntentSavedBy(spec);
            After(Config(me, false), LatePoster(spec)[..7]) == System(w, map[0 := ready], {(spec.room, spec.text)})
  {
    hide DoPost, LeftUnknown, Going, After, Step;
    var config, run := Config(me, false), LatePoster(spec);
    var (w, ready) := IntentSavedBy(spec);
    var gone := Instance(ready.journal, map[]);
    FirstPosterIsReady(config, run, spec);
    GivenUp(me, spec);
    Acted(config, run, 3, System(w, map[0 := ready], {}), 0, Post(spec.text.kind, PostFailed));
    var s := System(w, map[0 := gone], {(spec.room, spec.text)});
    assert map[0 := ready][0 := gone] == map[0 := gone] && {} + {(spec.room, spec.text)} == {(spec.room, spec.text)};
    JournalIsOpened(spec);
    LooksThenPosts(config, run, 4, s, 0, spec);
    assert map[0 := gone][0 := ready] == map[0 := ready];
  }

  lemma JournalIsOpened(spec: Spec)
    ensures IntentSavedBy(spec).1.journal == Opened(IntentSavedBy(spec).0.store.held.value)
  {
  }

  /** No late landing is needed: a post given up, repeated and landed after all stands beside its repeat. */
  lemma LatePostMayStandTwice(me: Party, spec: Spec)
    requires !spec.digestOnly && !spec.guarded
    ensures var rooms := After(Config(me, false), LatePoster(spec)).world.rooms;
            OwnAt(rooms, me, spec.room, 1, spec.text) && OwnAt(rooms, me, spec.room, 2, spec.text)
  {
    var config, run := Config(me, false), LatePoster(spec);
    var (w, ready) := IntentSavedBy(spec);
    LatePosterIsReady(me, spec);
    GivenUp(me, spec);
    PostsAnyway(me, spec, w, ready);
    Acted(config, run, 7, System(w, map[0 := ready], {(spec.room, spec.text)}), 0, Post(spec.text.kind, PostReturned));
    StepOf(config, run, 8);
    assert run[..9] == run;
  }

  // --- the world -----------------------------------------------------------------------------------------------------------

  /** A room with one more line, numbered behind those it has. */
  function OneMoreLine(rooms: Rooms, room: Room, sender: Party, text: Text, signed: bool): Rooms {
    var lines := if room in rooms then rooms[room] else [];
    rooms[room := lines + [Line(sender, text, signed, |lines| + 1)]]
  }

  /** The posts a process was at when it died: each may land yet. */
  ghost predicate WasAt(i: Instance, room: Room, text: Text) {
    exists kind :: kind in i.inflight && i.inflight[kind].pc == Posting && !i.journal.failed
                   && i.inflight[kind].spec.room == room && i.inflight[kind].spec.text == text
  }

  /**
   * What happens beside the party's own steps: the clock goes on; anybody posts anything anywhere but under the party's
   * signature; a crash drops an instance and leaves every post it was at open; and an open post lands once, in its room.
   */
  lemma TheWorldMovesExactly(config: Config, s: System, event: Event)
    ensures event.Tick? ==> Step(config, s, event) == if s.world.nowMs <= event.toMs then s.(world := s.world.(nowMs := event.toMs)) else s
    ensures event.StrangerPosts? ==>
              Step(config, s, event)
              == if event.signed && event.sender == config.me then s
                 else s.(world := s.world.(rooms := OneMoreLine(s.world.rooms, event.room, event.sender, event.text, event.signed)))
    ensures event.LateLands? ==>
              Step(config, s, event)
              == if (event.room, event.text) !in s.late then s
                 else s.(world := s.world.(rooms := OneMoreLine(s.world.rooms, event.room, config.me, event.text, true)),
                         late := s.late - {(event.room, event.text)})
    ensures event.Crash? && event.id in s.live ==>
              && Step(config, s, event).live == s.live - {event.id} && Step(config, s, event).world == s.world
              && forall room: Room, text: Text ::
                   (room, text) in Step(config, s, event).late <==> (room, text) in s.late || WasAt(s.live[event.id], room, text)
  {
    hide Do;
    if event.Crash? && event.id in s.live {
      var i := s.live[event.id];
      forall room: Room, text: Text ensures (room, text) in CrashedAt(i) <==> WasAt(i, room, text) {
        if WasAt(i, room, text) {
          var kind :| kind in i.inflight && i.inflight[kind].pc == Posting && !i.journal.failed
                      && i.inflight[kind].spec.room == room && i.inflight[kind].spec.text == text;
          assert AtItsPost(i, kind);
        }
      }
    }
  }
}
