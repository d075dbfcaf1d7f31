/**
 * Posting a party's lines through the journal (`FlowJournal.ensurePosted`, `postOnce`, `markLanded` of
 * `src/client/flow-resume.ts`) into append-only rooms (`MemoryVenue` of `src/client/venue.ts`): the steps between awaits,
 * over any number of instances, with crashes, failing saves, lost replies and strangers' lines.
 */
module Frames {
  import opened Options
  import opened Journal

  type Room = nat
  type Party = nat

  /** A line's exact text; a text belongs to one kind of line. */
  datatype Text = Text(kind: nat, content: nat)

  /** What the ledger keeps of a text: the text, or its digest, which is an injective name. */
  datatype LedgerText = Plain(text: Text) | DigestOf(text: Text)

  datatype Entry = Entry(room: Room, text: LedgerText, landed: Option<nat>)

  /** The journalled record: its ledger by kind, and everything else it holds. */
  datatype Book = Book(ledger: map<nat, Entry>, rest: nat)

  /** One line of a room; `place` counts from 1. Nobody else can sign as a party. */
  datatype Line = Line(sender: Party, text: Text, signed: bool, place: nat)

  type Rooms = map<Room, seq<Line>>

  function In(rooms: Rooms, room: Room): seq<Line> {
    if room in rooms then rooms[room] else []
  }

  /** `MemoryVenue.post`. */
  function Posted(rooms: Rooms, room: Room, sender: Party, text: Text, signed: bool): Rooms {
    rooms[room := In(rooms, room) + [Line(sender, text, signed, |In(rooms, room)| + 1)]]
  }

  // --- the ledger ------------------------------------------------------------------------------------------------------

  /** What a line's poster asks for: the kind is the text's own. */
  datatype Spec = Spec(room: Room, text: Text, digestOnly: bool, guarded: bool)

  function LedgerTextOf(spec: Spec): LedgerText {
    if spec.digestOnly then DigestOf(spec.text) else Plain(spec.text)
  }

  /** The ledger holds this kind with this very room and text. */
  predicate Intends(book: Book, spec: Spec) {
    && spec.text.kind in book.ledger
    && book.ledger[spec.text.kind].room == spec.room && book.ledger[spec.text.kind].text == LedgerTextOf(spec)
  }

  predicate Conflicts(book: Book, spec: Spec) {
    spec.text.kind in book.ledger && !Intends(book, spec)
  }

  predicate IsLanded(book: Book, kind: nat) {
    kind in book.ledger && book.ledger[kind].landed.Some?
  }

  /** `withLedgerIntent`, on a book that does not conflict. */
  function WithIntent(book: Book, spec: Spec): Book {
    if spec.text.kind in book.ledger then book
    else book.(ledger := book.ledger[spec.text.kind := Entry(spec.room, LedgerTextOf(spec), None)])
  }

  /** The derivation of the save before a post. */
  function DeriveIntent(spec: Spec): Book -> Derived<Book> {
    (book: Book) => if Conflicts(book, spec) then RefusedByCaller
            else if spec.text.kind in book.ledger then NothingToSave
            else SaveBody(WithIntent(book, spec))
  }

  /** The derivation of the save that marks a line landed: an entry landed elsewhere is never moved. */
  function DeriveMark(spec: Spec, seqNo: nat, ensureIntent: bool): Book -> Derived<Book> {
    (book: Book) =>
      if ensureIntent && Conflicts(book, spec) then RefusedByCaller
      else if !ensureIntent && spec.text.kind !in book.ledger then RefusedByCaller
      else
        var from := if ensureIntent then WithIntent(book, spec) else book;
        var entry := from.ledger[spec.text.kind];
        if entry.landed.Some? && entry.landed.value != seqNo then RefusedByCaller
        else if entry.landed.Some? then NothingToSave
        else SaveBody(from.(ledger := from.ledger[spec.text.kind := entry.(landed := Some(seqNo))]))
  }

  /** The flow's live state laid over the record, or a record that does not encode; the ledger is the record's own. */
  function Live(rest: Option<nat>): Book -> Option<Book> {
    (book: Book) => if rest.Some? then Some(book.(rest := rest.value)) else None
  }

  // --- instances -------------------------------------------------------------------------------------------------------

  /** Where one `postOnce` stands. */
  datatype Pc =
    | Reading(isNew: bool)
    | Looked(isNew: bool, found: Option<nat>)
    | SavingIntent
    | Posting
    | Marking(seqNo: nat, ensureIntent: bool)

  datatype Attempt = Attempt(spec: Spec, pc: Pc)

  /** A live instance: its journal, and the attempt in flight for each kind. */
  datatype Instance = Instance(journal: Journal<Book>, inflight: map<nat, Attempt>)

  datatype PostOutcome = PostReturned | PostReplyLost | PostFailed

  datatype Action =
    | Start(spec: Spec)
    | Read(kind: nat)
    | Proceed(kind: nat, guardPasses: bool)
    | SaveIntent(kind: nat, rest: Option<nat>, fault: Fault)
    | Post(kind: nat, outcome: PostOutcome)
    | Mark(kind: nat, rest: Option<nat>, fault: Fault)
    | SaveOther(rest: Option<nat>, fault: Fault)

  datatype World = World(store: Store<Book>, rooms: Rooms, nowMs: nat)

  datatype Result = Result(inst: Instance, world: World)

  /** The first own line of a room with exactly this text. */
  function FindOwn(lines: seq<Line>, me: Party, text: Text): (found: Option<nat>)
    ensures found.Some? ==> 1 <= found.value <= |lines| && IsOwn(lines[found.value - 1], me, text)
    ensures found.Some? ==> forall k :: 0 <= k < found.value - 1 ==> !IsOwn(lines[k], me, text)
    ensures found.None? ==> forall k :: 0 <= k < |lines| ==> !IsOwn(lines[k], me, text)
  {
    if lines == [] then None
    else
      var found := FindOwn(lines[..|lines| - 1], me, text);
      if found.Some? then found
      else if IsOwn(lines[|lines| - 1], me, text) then Some(|lines|)
      else None
  }

  predicate IsOwn(line: Line, me: Party, text: Text) {
    line.sender == me && line.text == text && line.signed
  }

  function Going(i: Instance, spec: Spec, pc: Pc): Instance {
    i.(inflight := i.inflight[spec.text.kind := Attempt(spec, pc)])
  }

  function Ended(i: Instance, kind: nat): Instance {
    i.(inflight := i.inflight - {kind})
  }

  /** `ensurePosted` and the start of `postOnce`, up to its first await. */
  function DoStart(i: Instance, w: World, spec: Spec): Result {
    if spec.text.kind in i.inflight || i.journal.failed then Result(i, w)
    else if Conflicts(i.journal.current.body, spec) || IsLanded(i.journal.current.body, spec.text.kind) then Result(i, w)
    else
      var isNew := spec.text.kind !in i.journal.current.body.ledger;
      Result(Going(i, spec, if !isNew || spec.guarded then Reading(isNew) else SavingIntent), w)
  }

  function DoRead(me: Party, i: Instance, w: World, kind: nat): Result {
    if kind in i.inflight && i.inflight[kind].pc.Reading? then
      var spec := i.inflight[kind].spec;
      Result(Going(i, spec, Looked(i.inflight[kind].pc.isNew, FindOwn(In(w.rooms, spec.room), me, spec.text))), w)
    else Result(i, w)
  }

  function DoProceed(i: Instance, w: World, kind: nat, guardPasses: bool): Result {
    if kind in i.inflight && i.inflight[kind].pc.Looked? then
      var (spec, pc) := (i.inflight[kind].spec, i.inflight[kind].pc);
      if pc.found.Some? then Result(Going(i, spec, Marking(pc.found.value, true)), w)
      else if spec.guarded && !guardPasses then Result(Ended(i, kind), w)
      else Result(Going(i, spec, if pc.isNew then SavingIntent else Posting), w)
    else Result(i, w)
  }

  function Save(i: Instance, w: World, derive: Book -> Derived<Book>, rest: Option<nat>, fault: Fault): Written<Book> {
    Commit(i.journal, w.store, derive(i.journal.current.body), Live(rest), false, w.nowMs, fault)
  }

  function DoSaveIntent(i: Instance, w: World, kind: nat, rest: Option<nat>, fault: Fault): Result {
    if kind in i.inflight && i.inflight[kind].pc.SavingIntent? then
      var spec := i.inflight[kind].spec;
      var written := Save(i, w, DeriveIntent(spec), rest, fault);
      var i' := i.(journal := written.journal);
      Result(if written.answer.Resolved? then Going(i', spec, Posting) else Ended(i', kind), w.(store := written.store))
    else Result(i, w)
  }

  /** The last check before the post, and the post; its reply may be lost. */
  function DoPost(me: Party, i: Instance, w: World, kind: nat, outcome: PostOutcome): Result {
    if kind in i.inflight && i.inflight[kind].pc.Posting? then
      var spec := i.inflight[kind].spec;
      if i.journal.failed || outcome.PostFailed? then Result(Ended(i, kind), w)
      else
        var rooms := Posted(w.rooms, spec.room, me, spec.text, true);
        Result(if outcome.PostReturned? then Going(i, spec, Marking(|In(rooms, spec.room)|, false)) else Ended(i, kind),
               w.(rooms := rooms))
    else Result(i, w)
  }

  function DoMark(i: Instance, w: World, kind: nat, rest: Option<nat>, fault: Fault): Result {
    if kind in i.inflight && i.inflight[kind].pc.Marking? then
      var (spec, pc) := (i.inflight[kind].spec, i.inflight[kind].pc);
      var written := Save(i, w, DeriveMark(spec, pc.seqNo, pc.ensureIntent), rest, fault);
      Result(Ended(i.(journal := written.journal), kind), w.(store := written.store))
    else Result(i, w)
  }

  /** Any other save of the flow: the record stays, its live state moves. */
  function DoSaveOther(i: Instance, w: World, rest: Option<nat>, fault: Fault): Result {
    var written := Save(i, w, book => SaveBody(book), rest, fault);
    Result(i.(journal := written.journal), w.(store := written.store))
  }

  function Do(me: Party, i: Instance, w: World, action: Action): Result {
    match action
    case Start(spec) => DoStart(i, w, spec)
    case Read(kind) => DoRead(me, i, w, kind)
    case Proceed(kind, guardPasses) => DoProceed(i, w, kind, guardPasses)
    case SaveIntent(kind, rest, fault) => DoSaveIntent(i, w, kind, rest, fault)
    case Post(kind, outcome) => DoPost(me, i, w, kind, outcome)
    case Mark(kind, rest, fault) => DoMark(i, w, kind, rest, fault)
    case SaveOther(rest, fault) => DoSaveOther(i, w, rest, fault)
  }

  // --- the system ------------------------------------------------------------------------------------------------------

  datatype Event =
    | Begin(id: nat, rest: nat, fault: Fault)
    | Resume(id: nat)
    | Crash(id: nat)
    | Act(id: nat, action: Action)
    | Tick(toMs: nat)
    | StrangerPosts(room: Room, sender: Party, text: Text, signed: bool)
    | LateLands(room: Room, text: Text)

  /** `late` holds the posts nobody knows the end of: the call failed, or the process died at it. Each may land yet, or never. */
  datatype System = System(world: World, live: map<nat, Instance>, late: set<(Room, Text)>)

  /** Who the party is, and whether more than one of its instances may be live at once. */
  datatype Config = Config(me: Party, many: bool)

  predicate AtItsPost(i: Instance, kind: nat) {
    kind in i.inflight && i.inflight[kind].pc.Posting?
  }

  /** The post an action leaves unknown. */
  function LeftUnknown(i: Instance, action: Action): set<(Room, Text)> {
    if action.Post? && action.outcome.PostFailed? && AtItsPost(i, action.kind) && !i.journal.failed then
      {(i.inflight[action.kind].spec.room, i.inflight[action.kind].spec.text)}
    else {}
  }

  /** The posts a crash leaves unknown; an attempt of a failed journal makes none. */
  function CrashedAt(i: Instance): set<(Room, Text)> {
    set kind | kind in i.inflight && AtItsPost(i, kind) && !i.journal.failed :: (i.inflight[kind].spec.room, i.inflight[kind].spec.text)
  }

  function NewBook(rest: nat): Book {
    Book(map[], rest)
  }

  predicate MayJoin(config: Config, s: System, id: nat) {
    id !in s.live && (config.many || s.live == map[])
  }

  function FirstSave(w: World, rest: nat, fault: Fault): Written<Book> {
    Commit(Unsaved(NewBook(rest), w.nowMs), w.store, SaveBody(NewBook(rest)), Live(Some(rest)), true, w.nowMs, fault)
  }

  function Step(config: Config, s: System, event: Event): System {
    match event
    case Begin(id, rest, fault) =>
      if !MayJoin(config, s, id) then s
      else
        var written := FirstSave(s.world, rest, fault);
        s.(world := s.world.(store := written.store),
           live := if written.answer.Resolved? then s.live[id := Instance(written.journal, map[])] else s.live)
    case Resume(id) =>
      if !MayJoin(config, s, id) || s.world.store.held.None? then s
      else s.(live := s.live[id := Instance(Opened(s.world.store.held.value), map[])])
    case Crash(id) => if id !in s.live then s else s.(live := s.live - {id}, late := s.late + CrashedAt(s.live[id]))
    case Act(id, action) =>
      if id !in s.live then s
      else
        var r := Do(config.me, s.live[id], s.world, action);
        System(r.world, s.live[id := r.inst], s.late + LeftUnknown(s.live[id], action))
    case Tick(toMs) => if s.world.nowMs <= toMs then s.(world := s.world.(nowMs := toMs)) else s
    case StrangerPosts(room, sender, text, signed) =>
      if signed && sender == config.me then s
      else s.(world := s.world.(rooms := Posted(s.world.rooms, room, sender, text, signed)))
    case LateLands(room, text) =>
      if (room, text) !in s.late then s
      else s.(world := s.world.(rooms := Posted(s.world.rooms, room, config.me, text, true)), late := s.late - {(room, text)})
  }

  function After(config: Config, run: seq<Event>): System {
    if run == [] then System(World(Store(None, []), map[], 0), map[], {})
    else Step(config, After(config, run[..|run| - 1]), run[|run| - 1])
  }
}
