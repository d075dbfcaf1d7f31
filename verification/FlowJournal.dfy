/**
 * The journal as the object the flows hold: its fields, the one write path, and `ensurePosted` from its first check to its
 * last save. Each method is proved to be the step of `Frames` it stands for, and the whole call to be those steps in order.
 */
module FlowJournals {
  import opened Options
  import opened Journal
  import J = Journal
  import opened Frames
  import opened FrameRuns

  /** `MemoryFlowStore`, for one key: the compare-and-swap, and a save that can be made to fail before or after the write. */
  class MemoryFlowStore {
    var contents: Store<Book>

    constructor ()
      ensures contents == Store(None, [])
    {
      contents := Store(None, []);
    }

    method Save(expected: Option<Version<Book>>, next: Version<Book>, fault: Fault) returns (answer: Answer)
      modifies this
      ensures (contents, answer) == CompareAndSwap(old(contents), expected, next, fault)
    {
      if fault.Reject? {
        return Threw;
      }
      if contents.held != expected {
        return Threw;
      }
      contents := Store(Some(next), contents.history + [next]);
      return if fault.CommitThenThrow? then Threw else Resolved;
    }
  }

  /** `MemoryVenue`: rooms that only grow. */
  class MemoryVenue {
    var rooms: Rooms

    constructor ()
      ensures rooms == map[]
    {
      rooms := map[];
    }

    method Post(room: Room, sender: Party, text: Text, signed: bool) returns (line: Line)
      modifies this
      ensures rooms == Posted(old(rooms), room, sender, text, signed)
      ensures line == Line(sender, text, signed, |In(old(rooms), room)| + 1)
      ensures In(rooms, room) == In(old(rooms), room) + [line]
      ensures forall other :: other != room ==> In(rooms, other) == In(old(rooms), other)
    {
      var records := if room in rooms then rooms[room] else [];
      line := Line(sender, text, signed, |records| + 1);
      records := records + [line];
      rooms := rooms[room := records];
    }

    method Read(room: Room) returns (records: seq<Line>)
      ensures records == In(rooms, room)
    {
      records := if room in rooms then rooms[room] else [];
    }
  }

  /** The first own authenticated record carrying exactly this text. */
  method FindOwnLine(records: seq<Line>, me: Party, text: Text) returns (found: Option<nat>)
    ensures found == FindOwn(records, me, text)
  {
    var k := 0;
    while k < |records|
      invariant 0 <= k <= |records| && FindOwn(records[..k], me, text).None?
    {
      assert records[..k + 1][..k] == records[..k];
      if IsOwn(records[k], me, text) {
        FirstIsFound(records, me, text, k);
        return Some(k + 1);
      }
      k := k + 1;
    }
    assert records[..k] == records;
    return None;
  }

  lemma {:induction false} FirstIsFound(records: seq<Line>, me: Party, text: Text, k: nat)
    requires k < |records| && IsOwn(records[k], me, text) && FindOwn(records[..k], me, text).None?
    ensures FindOwn(records, me, text) == Some(k + 1)
    decreases |records|
  {
    var front := records[..|records| - 1];
    if k < |front| {
      assert front[..k] == records[..k];
      FirstIsFound(front, me, text, k);
    } else {
      assert front == records[..k];
    }
  }

  /** The steps of one `ensurePosted` call that nothing interrupts; a step that is not reached changes nothing. */
  function PostingSteps(spec: Spec, guardPasses: bool, outcome: PostOutcome, saves: (Option<nat>, Fault), marks: (Option<nat>, Fault))
    : seq<Action>
  {
    var kind := spec.text.kind;
    [Start(spec), Read(kind), Proceed(kind, guardPasses), SaveIntent(kind, saves.0, saves.1), Post(kind, outcome),
     Mark(kind, marks.0, marks.1)]
  }

  function DoAll(me: Party, i: Instance, w: World, actions: seq<Action>): Result
    decreases |actions|
  {
    if actions == [] then Result(i, w)
    else
      var r := Do(me, i, w, actions[0]);
      DoAll(me, r.inst, r.world, actions[1..])
  }

  class FlowJournal {
    const me: Party
    const store: MemoryFlowStore
    const venue: MemoryVenue
    var current: Version<Book>
    var digest: Option<Version<Book>>
    var failure: bool
    var inflight: map<nat, Attempt>

    function Value(): Instance
      reads this
    {
      Instance(Journal(current, digest, failure), inflight)
    }

    function Around(nowMs: nat): World
      reads this, store, venue
    {
      World(store.contents, venue.rooms, nowMs)
    }

    /** `open`: the journal of the version the store holds. */
    constructor Open(me: Party, store: MemoryFlowStore, venue: MemoryVenue)
      requires store.contents.held.Some?
      ensures this.me == me && this.store == store && this.venue == venue
      ensures Value() == Instance(Opened(store.contents.held.value), map[])
    {
      this.me := me;
      this.store := store;
      this.venue := venue;
      current := store.contents.held.value;
      digest := Some(store.contents.held.value);
      failure := false;
      inflight := map[];
    }

    /** `commit`: the version is adopted only after the store's save resolved; a refused save fails the journal for good. */
    method Commit(derived: Derived<Book>, rest: Option<nat>, nowMs: nat, fault: Fault) returns (answer: Answer)
      modifies this`current, this`digest, this`failure, store
      ensures Written(Value().journal, store.contents, answer)
              == J.Commit(old(Value().journal), old(store.contents), derived, Live(rest), false, nowMs, fault)
    {
      if failure {
        return Threw;
      }
      match derived
      case InvalidRecord =>
        failure := true;
        return Threw;
      case RefusedByCaller =>
        return Threw;
      case NothingToSave =>
        return Resolved;
      case SaveBody(body) =>
        var finished := Live(rest)(body);
        if finished.None? {
          failure := true;
          return Threw;
        }
        var next := Bumped(current, finished.value, nowMs);
        answer := store.Save(digest, next, fault);
        if answer.Threw? {
          failure := true;
          return;
        }
        current := next;
        digest := Some(next);
    }

    /** The checks before the first await: a conflict, an answer already landed, or an attempt under way. */
    method StartPost(spec: Spec, ghost nowMs: nat)
      modifies this`inflight
      ensures Result(Value(), Around(nowMs)) == DoStart(old(Value()), old(Around(nowMs)), spec)
    {
      if spec.text.kind in inflight || failure {
        return;
      }
      if Conflicts(current.body, spec) || IsLanded(current.body, spec.text.kind) {
        return;
      }
      var isNew := spec.text.kind !in current.body.ledger;
      inflight := inflight[spec.text.kind := Attempt(spec, if !isNew || spec.guarded then Reading(isNew) else SavingIntent)];
    }

    /** The read before a post. */
    method ReadRoom(kind: nat, ghost nowMs: nat)
      modifies this`inflight
      ensures Result(Value(), Around(nowMs)) == DoRead(me, old(Value()), old(Around(nowMs)), kind)
    {
      if kind in inflight && inflight[kind].pc.Reading? {
        var spec := inflight[kind].spec;
        var records := venue.Read(spec.room);
        var found := FindOwnLine(records, me, spec.text);
        inflight := inflight[spec.text.kind := Attempt(spec, Looked(inflight[kind].pc.isNew, found))];
      }
    }

    /** A line found is adopted; else the guard, and on to the save or the post. */
    method Proceed(kind: nat, guardPasses: bool, ghost nowMs: nat)
      modifies this`inflight
      ensures Result(Value(), Around(nowMs)) == DoProceed(old(Value()), old(Around(nowMs)), kind, guardPasses)
    {
      if kind in inflight && inflight[kind].pc.Looked? {
        var (spec, pc) := (inflight[kind].spec, inflight[kind].pc);
        if pc.found.Some? {
          inflight := inflight[spec.text.kind := Attempt(spec, Marking(pc.found.value, true))];
          return;
        }
        if spec.guarded && !guardPasses {
          inflight := inflight - {kind};
          return;
        }
        inflight := inflight[spec.text.kind := Attempt(spec, if pc.isNew then SavingIntent else Posting)];
      }
    }

    /** The intent, durable before the line is visible. */
    method SaveIntent(kind: nat, rest: Option<nat>, nowMs: nat, fault: Fault)
      modifies this, store
      ensures Result(Value(), Around(nowMs)) == DoSaveIntent(old(Value()), old(Around(nowMs)), kind, rest, fault)
    {
      if kind in inflight && inflight[kind].pc.SavingIntent? {
        var spec := inflight[kind].spec;
        var answer := Commit(DeriveIntent(spec)(current.body), rest, nowMs, fault);
        inflight := if answer.Resolved? then inflight[spec.text.kind := Attempt(spec, Posting)] else inflight - {kind};
      }
    }

    /** A journal that no longer matches its store posts nothing. */
    method PostLine(kind: nat, outcome: PostOutcome, ghost nowMs: nat)
      modifies this`inflight, venue
      ensures Result(Value(), Around(nowMs)) == DoPost(me, old(Value()), old(Around(nowMs)), kind, outcome)
    {
      if kind in inflight && inflight[kind].pc.Posting? {
        var spec := inflight[kind].spec;
        if failure || outcome.PostFailed? {
          inflight := inflight - {kind};
          return;
        }
        var line := venue.Post(spec.room, me, spec.text, true);
        inflight := if outcome.PostReturned? then inflight[spec.text.kind := Attempt(spec, Marking(line.place, false))]
                    else inflight - {kind};
      }
    }

    method MarkLanded(kind: nat, rest: Option<nat>, nowMs: nat, fault: Fault)
      modifies this, store
      ensures Result(Value(), Around(nowMs)) == DoMark(old(Value()), old(Around(nowMs)), kind, rest, fault)
    {
      if kind in inflight && inflight[kind].pc.Marking? {
        var (spec, pc) := (inflight[kind].spec, inflight[kind].pc);
        var answer := Commit(DeriveMark(spec, pc.seqNo, pc.ensureIntent)(current.body), rest, nowMs, fault);
        inflight := inflight - {kind};
      }
    }

    /** `ensurePosted` with nothing in between: exactly the steps of one posting, in order. */
    method EnsurePosted(spec: Spec, guardPasses: bool, outcome: PostOutcome, saves: (Option<nat>, Fault), marks: (Option<nat>, Fault),
                        nowMs: nat)
      modifies this, store, venue
      ensures Result(Value(), Around(nowMs))
              == DoAll(me, old(Value()), old(Around(nowMs)), PostingSteps(spec, guardPasses, outcome, saves, marks))
    {
      ghost var i, w := Value(), Around(nowMs);
      var kind := spec.text.kind;
      InOrder(me, i, w, spec, guardPasses, outcome, saves, marks);
      StartPost(spec, nowMs);
      ReadRoom(kind, nowMs);
      Proceed(kind, guardPasses, nowMs);
      SaveIntent(kind, saves.0, nowMs, saves.1);
      PostLine(kind, outcome, nowMs);
      MarkLanded(kind, marks.0, nowMs, marks.1);
    }
  }

  lemma InOrder(me: Party, i: Instance, w: World, spec: Spec, guardPasses: bool, outcome: PostOutcome, saves: (Option<nat>, Fault),
                marks: (Option<nat>, Fault))
    ensures var kind := spec.text.kind;
            var r1 := DoStart(i, w, spec);
            var r2 := DoRead(me, r1.inst, r1.world, kind);
            var r3 := DoProceed(r2.inst, r2.world, kind, guardPasses);
            var r4 := DoSaveIntent(r3.inst, r3.world, kind, saves.0, saves.1);
            var r5 := DoPost(me, r4.inst, r4.world, kind, outcome);
            DoAll(me, i, w, PostingSteps(spec, guardPasses, outcome, saves, marks)) == DoMark(r5.inst, r5.world, kind, marks.0, marks.1)
  {
    hide DoStart, DoRead, DoProceed, DoSaveIntent, DoPost, DoMark, DoAll;
    var steps := PostingSteps(spec, guardPasses, outcome, saves, marks);
    var r := Do(me, i, w, steps[0]);
    assert forall k :: 0 <= k < 6 ==> steps[k..] == [steps[k]] + steps[k + 1..];
    DoAllUnfolds(me, i, w, steps, 0);
    r := DoStart(i, w, spec);
    DoAllUnfolds(me, r.inst, r.world, steps, 1);
    r := DoRead(me, r.inst, r.world, spec.text.kind);
    DoAllUnfolds(me, r.inst, r.world, steps, 2);
    r := DoProceed(r.inst, r.world, spec.text.kind, guardPasses);
    DoAllUnfolds(me, r.inst, r.world, steps, 3);
    r := DoSaveIntent(r.inst, r.world, spec.text.kind, saves.0, saves.1);
    DoAllUnfolds(me, r.inst, r.world, steps, 4);
    r := DoPost(me, r.inst, r.world, spec.text.kind, outcome);
    DoAllUnfolds(me, r.inst, r.world, steps, 5);
    NothingLeft(me, DoMark(r.inst, r.world, spec.text.kind, marks.0, marks.1));
    assert steps[0..] == steps && steps[6..] == [];
  }

  lemma NothingLeft(me: Party, r: Result)
    ensures DoAll(me, r.inst, r.world, []) == r
  {
  }

  lemma DoAllUnfolds(me: Party, i: Instance, w: World, steps: seq<Action>, k: nat)
    requires k < |steps|
    ensures var r := Do(me, i, w, steps[k]);
            DoAll(me, i, w, steps[k..]) == DoAll(me, r.inst, r.world, steps[k + 1..])
  {
    assert steps[k..][1..] == steps[k + 1..];
  }

  // --- a retry completes -------------------------------------------------------------------------------------------------

  /** A sound journal that is up to date with its store, with nothing in flight and no conflicting entry. */
  ghost predicate Calm(me: Party, i: Instance, w: World, spec: Spec) {
    && AloneBefore(me, i, w) && !i.journal.failed && i.inflight == map[] && !Conflicts(i.journal.current.body, spec)
  }

  /** A save with no fault, of a flow whose record encodes, goes through. */
  lemma FaultlessSave(i: Instance, w: World, derive: Book -> Derived<Book>, rest: nat)
    requires !i.journal.failed && w.store.held == i.journal.digest == Some(i.journal.current)
    requires derive(i.journal.current.body).SaveBody? || derive(i.journal.current.body).NothingToSave?
    ensures var written := Save(i, w, derive, Some(rest), NoFault);
            && written.answer.Resolved? && !written.journal.failed
            && written.store.held == written.journal.digest == Some(written.journal.current)
            && (derive(i.journal.current.body).SaveBody? ==> written.journal.current.body == derive(i.journal.current.body).body.(rest := rest))
            && (derive(i.journal.current.body).NothingToSave? ==> written.journal == i.journal && written.store == w.store)
  {
  }

  /** Before its post or its mark, one attempt on a healthy journal. */
  ghost predicate Ready(i: Instance, w: World, spec: Spec, pc: Pc) {
    && !i.journal.failed && w.store.held == i.journal.digest == Some(i.journal.current)
    && i.inflight == map[spec.text.kind := Attempt(spec, pc)]
  }

  /** The line's entry is in the store, landed. */
  predicate DoneWith(i: Instance, w: World, spec: Spec) {
    && !i.journal.failed && i.inflight == map[] && w.store.held == Some(i.journal.current)
    && Intends(i.journal.current.body, spec) && IsLanded(i.journal.current.body, spec.text.kind)
  }

  lemma MarkCompletes(i: Instance, w: World, spec: Spec, pc: Pc, rest: nat)
    requires Ready(i, w, spec, pc) && pc.Marking? && !Conflicts(i.journal.current.body, spec)
    requires !pc.ensureIntent ==> Intends(i.journal.current.body, spec)
    requires !IsLanded(i.journal.current.body, spec.text.kind)
    ensures var r := DoMark(i, w, spec.text.kind, Some(rest), NoFault);
            DoneWith(r.inst, r.world, spec)
  {
    FaultlessSave(i, w, DeriveMark(spec, pc.seqNo, pc.ensureIntent), rest);
  }

  lemma PostCompletes(me: Party, i: Instance, w: World, spec: Spec, rest: nat)
    requires Ready(i, w, spec, Posting) && Intends(i.journal.current.body, spec) && !IsLanded(i.journal.current.body, spec.text.kind)
    ensures var r := DoPost(me, i, w, spec.text.kind, PostReturned);
            var r' := DoMark(r.inst, r.world, spec.text.kind, Some(rest), NoFault);
            DoneWith(r'.inst, r'.world, spec)
  {
    var r := DoPost(me, i, w, spec.text.kind, PostReturned);
    MarkCompletes(r.inst, r.world, spec, Marking(|In(r.world.rooms, spec.room)|, false), rest);
  }

  lemma IntentCompletes(me: Party, i: Instance, w: World, spec: Spec, rest: nat, rest': nat)
    requires Ready(i, w, spec, SavingIntent) && spec.text.kind !in i.journal.current.body.ledger
    ensures var r := DoSaveIntent(i, w, spec.text.kind, Some(rest), NoFault);
            var r' := DoPost(me, r.inst, r.world, spec.text.kind, PostReturned);
            var r'' := DoMark(r'.inst, r'.world, spec.text.kind, Some(rest'), NoFault);
            DoneWith(r''.inst, r''.world, spec)
  {
    FaultlessSave(i, w, DeriveIntent(spec), rest);
    var r := DoSaveIntent(i, w, spec.text.kind, Some(rest), NoFault);
    PostCompletes(me, r.inst, r.world, spec, rest');
  }

  /** The party's own line with this text already stands in its room. */
  ghost predicate Stands(me: Party, w: World, spec: Spec) {
    exists k :: 0 <= k < |In(w.rooms, spec.room)| && IsOwn(In(w.rooms, spec.room)[k], me, spec.text)
  }

  /**
   * Whatever happened before, a call that nothing interrupts and whose saves and post succeed ends with the line's entry
   * landed in the store, unless the line is guarded, its guard does not pass and it does not stand yet; by
   * `LandedMarksAreTrue` the line stands at that place, and by `EachKindIsPostedOnce` nowhere else.
   */
  lemma CalmCallLands(me: Party, i: Instance, w: World, spec: Spec, guardPasses: bool, rest: nat, rest': nat)
    requires Calm(me, i, w, spec) && (spec.guarded && !guardPasses ==> Stands(me, w, spec) || IsLanded(i.journal.current.body, spec.text.kind))
    ensures var r := DoAll(me, i, w, PostingSteps(spec, guardPasses, PostReturned, (Some(rest), NoFault), (Some(rest'), NoFault)));
            DoneWith(r.inst, r.world, spec)
  {
    InOrder(me, i, w, spec, guardPasses, PostReturned, (Some(rest), NoFault), (Some(rest'), NoFault));
    var kind := spec.text.kind;
    if !IsLanded(i.journal.current.body, kind) {
      var r1 := DoStart(i, w, spec);
      var r2 := DoRead(me, r1.inst, r1.world, kind);
      var r3 := DoProceed(r2.inst, r2.world, kind, guardPasses);
      ReadyAfterLooking(me, i, w, spec, guardPasses);
      match r3.inst.inflight[kind].pc
      case SavingIntent => IntentCompletes(me, r3.inst, w, spec, rest, rest');
      case Posting => PostCompletes(me, r3.inst, w, spec, rest');
      case Marking(place, ensureIntent) => MarkCompletes(r3.inst, w, spec, Marking(place, ensureIntent), rest');
    }
  }

  /** And in that one case it does nothing at all: no line, no intent, no mark. */
  lemma RefusedCallDoesNothing(me: Party, i: Instance, w: World, spec: Spec, outcome: PostOutcome, saves: (Option<nat>, Fault), marks: (Option<nat>, Fault))
    requires Calm(me, i, w, spec) && spec.guarded && !Stands(me, w, spec) && !IsLanded(i.journal.current.body, spec.text.kind)
    ensures DoAll(me, i, w, PostingSteps(spec, false, outcome, saves, marks)) == Result(i, w)
  {
    InOrder(me, i, w, spec, false, outcome, saves, marks);
  }

  /** The first three steps of a calm call lead to the intent's save, the post or the mark. */
  lemma ReadyAfterLooking(me: Party, i: Instance, w: World, spec: Spec, guardPasses: bool)
    requires Calm(me, i, w, spec) && !IsLanded(i.journal.current.body, spec.text.kind) && (spec.guarded && !guardPasses ==> Stands(me, w, spec))
    ensures var kind := spec.text.kind;
            var r1 := DoStart(i, w, spec);
            var r2 := DoRead(me, r1.inst, r1.world, kind);
            var r3 := DoProceed(r2.inst, r2.world, kind, guardPasses);
            && r3.world == w && r3.inst.journal == i.journal && kind in r3.inst.inflight
            && var pc := r3.inst.inflight[kind].pc;
               && Ready(r3.inst, w, spec, pc)
               && (pc.SavingIntent? || pc.Posting? || (pc.Marking? && pc.ensureIntent))
               && (pc.SavingIntent? ==> kind !in i.journal.current.body.ledger)
               && (pc.Posting? ==> Intends(i.journal.current.body, spec))
  {
  }
}
