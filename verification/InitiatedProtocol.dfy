/**
 One initiated letter: its reservation file, its receipts, and the callers of send_initiated.

 Callers hold the letter's transaction lock from end to end, so at most one is inside; it works
 on a copy of the reservation record and writes the copy back whole. Startup reconciliation and
 crashes come at any step. Admission and the move to a new window are steps of their own: the
 budget decides when they may happen.
 */
module InitiatedProtocol {
  import opened Receipts

  datatype Status = Reserved | Held | SettledSent | SettledAmbiguous | Refunded

  predicate Live(st: Status) {
    st == Reserved || st == Held
  }

  /** A charged reservation uses up its hour and its day. */
  predicate Charged(st: Status) {
    st != Refunded
  }

  datatype Window = Window(day: string, hour: string)

  datatype Reservation = Reservation(binding: string, window: Window, status: Status)

  /** The exclusive write shows an empty claim before the record. */
  datatype File = Absent | Empty | Kept(rec: Reservation)

  function SettledStatus(e: Event): Status
    requires e != Composed && e != Sending
  {
    match e
    case Sent => SettledSent
    case Refused => Refunded
    case Throttled => Held
    case _ => SettledAmbiguous
  }

  /** _cross repeats the two checks send_initiated has already made. */
  datatype Round = Outer | Inner

  datatype Caller =
    | Idle
    | Entered
    | Unreserved                                        // no reservation: about to ask the budget
    | Admitted(rec: Reservation)                        // the budget agreed: about to claim the file
    | Filling(rec: Reservation)
    | Composing(rec: Reservation)
    | CheckingTerminal(round: Round, rec: Reservation, lower: Dir)
    | CheckingOpen(round: Round, rec: Reservation, lower: Dir)
    | Preflight(rec: Reservation)
    | Readmitting(rec: Reservation)
    | Moving(rec: Reservation)                          // the budget agreed to rec's new window
    | Authorising(rec: Reservation)
    | Recording(rec: Reservation, event: Event, answered: bool, stage: Stage)  // answered: the platform said so
    | Calling(rec: Reservation)
    | Writing(rec: Reservation, status: Status)

  datatype State = State(
    binding: string,
    file: File,
    shelf: Shelf,
    attempts: seq<Answer>,   // what the platform did, in order
    doubt: bool,             // a recorded attempt is not recorded as turned away by the platform
    caller: Caller)

  function Init(binding: string): State {
    State(binding, Absent, EmptyShelf, [], false, Idle)
  }

  datatype Step =
    | Enter
    | Load
    | Admit(window: Window)
    | ClaimFile
    | FillFile
    | Compose(ok: bool)
    | SeeTerminal(listing: Dir, event: Event)
    | SeeNoTerminal(listing: Dir)
    | SeeOpen(listing: Dir)
    | SeeClosed(listing: Dir)
    | Refuse                            // local policy
    | Pass
    | Readmit(window: Window)
    | WriteMove
    | Count(listing: Dir)
    | Create
    | Call(answer: Answer)
    | WriteStatus
    | Leave                             // a crash, a refusal that changes nothing, a name collision
    | Meanwhile(b: Background)

  /** The newest event of the history may be "sending". */
  ghost predicate MayReadOpen(l: Dir) {
    Newest(l, Sending)
  }

  ghost predicate MayReadClosed(l: Dir) {
    (forall x :: x in l ==> x.Stray?) || exists e :: e != Sending && Newest(l, e)
  }

  ghost predicate Enabled(s: State, step: Step) {
    var c := s.caller;
    match step
    case Enter => c.Idle?
    case Load => c.Entered? && !s.file.Empty?
    case Admit(_) => c.Unreserved?
    case ClaimFile => c.Admitted? && s.file.Absent?
    case FillFile => c.Filling?
    case Compose(_) => c.Composing?
    case SeeTerminal(l, e) =>
      c.CheckingTerminal? && IsListing(c.lower, l, s.shelf.files) && Terminal(e) && HasEvent(l, e)
    case SeeNoTerminal(l) => c.CheckingTerminal? && IsListing(c.lower, l, s.shelf.files) && !HasTerminal(l)
    case SeeOpen(l) => c.CheckingOpen? && IsListing(c.lower, l, s.shelf.files) && MayReadOpen(l)
    case SeeClosed(l) => c.CheckingOpen? && IsListing(c.lower, l, s.shelf.files) && MayReadClosed(l)
    case Refuse => c.Preflight? || c.Authorising?
    case Pass => c.Preflight? || c.Authorising?
    case Readmit(_) => c.Readmitting?
    case WriteMove => c.Moving?
    case Count(l) => c.Recording? && c.stage.Listing? && IsListing(c.stage.lower, l, s.shelf.files)
    case Create => c.Recording? && c.stage.Naming? && Numbered(c.stage.number, c.event) !in s.shelf.files
    case Call(_) => c.Calling?
    case WriteStatus => c.Writing?
    case Leave => !c.Idle?
    case Meanwhile(b) => CanHappen(s.shelf, b)
  }

  function AfterCreate(rec: Reservation, event: Event, files: Dir): Caller {
    match event
    case Composed => CheckingTerminal(Inner, rec, files)
    case Sending => Calling(rec)
    case _ => Writing(rec, SettledStatus(event))
  }

  /** Whether an attempt stays recorded that the platform is not recorded to have turned away. */
  function DoubtAfter(doubt: bool, e: Event, answered: bool): bool {
    if e == Sending then true
    else doubt && !(answered && (e == Throttled || e == Refused))
  }

  ghost function Apply(s: State, step: Step): State
    requires Enabled(s, step)
  {
    var c := s.caller;
    match step
    case Enter => s.(caller := Entered)
    case Load =>
      s.(caller := if s.file.Absent? then Unreserved else CheckingTerminal(Outer, s.file.rec, s.shelf.files))
    case Admit(w) => s.(caller := Admitted(Reservation(s.binding, w, Reserved)))
    case ClaimFile => s.(file := Empty, caller := Filling(c.rec))
    case FillFile => s.(file := Kept(c.rec), caller := Composing(c.rec))
    case Compose(ok) =>
      s.(caller := if ok then Recording(c.rec, Composed, false, Listing(s.shelf.files)) else Writing(c.rec, Refunded))
    case SeeTerminal(_, e) => s.(caller := if Live(c.rec.status) then Writing(c.rec, SettledStatus(e)) else Idle)
    case SeeNoTerminal(_) => s.(caller := CheckingOpen(c.round, c.rec, s.shelf.files))
    case SeeOpen(_) => s.(caller := Recording(c.rec, Ambiguous, false, Listing(s.shelf.files)))
    case SeeClosed(_) =>
      s.(caller := if c.round.Outer? then Preflight(c.rec) else if Live(c.rec.status) then Readmitting(c.rec) else Idle)
    case Refuse => s.(caller := Recording(c.rec, Refused, false, Listing(s.shelf.files)))
    case Pass =>
      s.(caller := if c.Preflight? then CheckingTerminal(Inner, c.rec, s.shelf.files)
                   else Recording(c.rec, Sending, false, Listing(s.shelf.files)))
    case Readmit(w) =>
      s.(caller := if w == c.rec.window then Authorising(c.rec) else Moving(c.rec.(window := w)))
    case WriteMove => s.(file := Kept(c.rec), caller := Authorising(c.rec))
    case Count(l) => s.(caller := Recording(c.rec, c.event, c.answered, Naming(|l| + 1)))
    case Create =>
      var shelf := Record(s.shelf, c.stage.number, c.event);
      s.(shelf := shelf, doubt := DoubtAfter(s.doubt, c.event, c.answered),
        caller := AfterCreate(c.rec, c.event, shelf.files))
    case Call(a) =>
      s.(attempts := s.attempts + [a], caller := Recording(c.rec, OutcomeOf(a), true, Listing(s.shelf.files)))
    case WriteStatus => s.(file := Kept(c.rec.(status := c.status)), caller := Idle)
    case Leave => s.(caller := Idle)
    case Meanwhile(b) => s.(shelf := Happen(s.shelf, b))
  }

  ghost predicate Legal(s: State, steps: seq<Step>)
    decreases |steps|
  {
    steps == [] || (Enabled(s, steps[0]) && Legal(Apply(s, steps[0]), steps[1..]))
  }

  ghost function Exec(s: State, steps: seq<Step>): State
    requires Legal(s, steps)
    decreases |steps|
  {
    if steps == [] then s else Exec(Apply(s, steps[0]), steps[1..])
  }

  // ---- what every reachable state satisfies ----

  ghost predicate TrailIs(s: State, e: Event) {
    s.shelf.trail.names != {} && s.shelf.trail.newest == e
  }

  ghost predicate Open(s: State) {
    s.shelf.trail.names != {} ==> !Terminal(s.shelf.trail.newest)
  }

  ghost predicate Unsent(s: State) {
    s.shelf.trail.names == {} && s.attempts == [] && !s.doubt
  }

  /** Nothing is in doubt, or a reconciliation has already said so. */
  ghost predicate SettledOrDead(s: State, d: Dir) {
    s.doubt ==> HasEvent(d, Dead)
  }

  ghost predicate Copies(s: State, rec: Reservation) {
    s.file == Kept(rec)
  }

  ghost predicate RecordingFits(s: State)
    requires s.caller.Recording?
  {
    var c := s.caller;
    && Open(s) && Copies(s, c.rec) && StageFits(s.shelf, c.stage)
    && (c.answered ==>
          && TrailIs(s, Sending) && Live(c.rec.status) && s.attempts != []
          && c.event == OutcomeOf(s.attempts[|s.attempts| - 1]))
    && (!c.answered ==>
          match c.event
          case Composed => Unsent(s) && Live(c.rec.status)
          case Sending => !s.doubt && Live(c.rec.status)
          case Ambiguous => s.doubt && Charged(c.rec.status)
          case Refused => SettledOrDead(s, s.shelf.files)
          case _ => false)
  }

  ghost predicate WritingFits(s: State)
    requires s.caller.Writing?
  {
    var c := s.caller;
    && Copies(s, c.rec)
    && (Charged(c.status) ==> Charged(c.rec.status))
    && (Live(c.status) ==> Live(c.rec.status))
    && (c.status == Refunded ==> Unsent(s) || TrailIs(s, Refused))
  }

  ghost predicate CallerFits(s: State) {
    var c := s.caller;
    match c
    case Idle | Entered => true
    case Unreserved => s.file.Absent?
    case Admitted(rec) => s.file.Absent? && rec.status == Reserved
    case Filling(rec) => s.file.Empty? && rec.status == Reserved
    case Composing(rec) => Copies(s, rec) && Unsent(s) && rec.status == Reserved
    case CheckingTerminal(round, rec, lower) =>
      && Copies(s, rec) && s.shelf.trail.names <= lower <= s.shelf.files
      && (round.Inner? ==> Open(s) && SettledOrDead(s, lower))
    case CheckingOpen(round, rec, lower) =>
      && Copies(s, rec) && s.shelf.trail.names <= lower <= s.shelf.files
      && Open(s) && (round.Inner? ==> !s.doubt)
    case Preflight(rec) => Copies(s, rec) && Open(s) && SettledOrDead(s, s.shelf.files)
    case Readmitting(rec) => Copies(s, rec) && Open(s) && !s.doubt && Live(rec.status)
    case Authorising(rec) => Copies(s, rec) && Open(s) && !s.doubt && Live(rec.status)
    case Moving(rec) =>
      && s.file.Kept? && s.file.rec.(window := rec.window) == rec
      && Open(s) && !s.doubt && Live(rec.status)
    case Calling(rec) => Copies(s, rec) && TrailIs(s, Sending) && AllDeferred(s.attempts) && Live(rec.status)
    case Recording(_, _, _, _) => RecordingFits(s)
    case Writing(_, _) => WritingFits(s)
  }

  /** How attempts, doubt and the trail hang together. */
  ghost predicate HistoryFits(s: State) {
    && AllButLastDeferred(s.attempts)
    && (Open(s) ==> (s.doubt <==> TrailIs(s, Sending)))
    && (Open(s) && !s.doubt ==> AllDeferred(s.attempts))
    && (forall i :: 0 <= i < |s.attempts| && MayBeDelivered(s.attempts[i]) ==> s.doubt)
    && (!s.file.Kept? ==> Unsent(s))
    && (s.file.Kept? && s.file.rec.status == Refunded ==> Unsent(s) || !Open(s))
  }

  ghost predicate Linked(s: State) {
    ShelfValid(s.shelf) && HistoryFits(s) && CallerFits(s)
  }

  /** A reservation stands beside the receipt that its status goes by; a refund also where nothing was ever recorded. */
  ghost predicate StatusTells(st: Status, s: State) {
    var files := s.shelf.files;
    match st
    case Reserved => true
    case Held => HasEvent(files, Throttled)
    case SettledSent => HasEvent(files, Sent)
    case SettledAmbiguous => HasEvent(files, Ambiguous) || HasEvent(files, Dead)
    case Refunded => HasEvent(files, Refused) || (s.shelf.trail.names == {} && s.attempts == [])
  }

  /** What receipts and reservation say the platform did, it did. */
  ghost predicate Told(s: State) {
    && ReceiptsTell(s.shelf.files, s.attempts)
    && (HasEvent(s.shelf.files, Ambiguous) ==> s.doubt)
    && (s.file.Kept? ==> StatusTells(s.file.rec.status, s))
    && (s.caller.Writing? ==> StatusTells(s.caller.status, s))
  }

  ghost predicate Inv(s: State) {
    Linked(s) && Told(s)
  }

  lemma LookKeepsLinks(s: State, step: Step)
    requires Linked(s) && Enabled(s, step)
    requires step.SeeTerminal? || step.SeeNoTerminal?
    ensures Linked(Apply(s, step))
  {
    match step
    case SeeTerminal(l, e) =>
      var n :| Numbered(n, e) in l;
      if e != Dead { assert Numbered(n, e) in s.shelf.trail.names; }
    case SeeNoTerminal(l) =>
      assert s.shelf.trail.names != {} ==> s.shelf.trail.Newest() in l;
      if s.caller.round.Inner? && s.doubt {
        var n :| Numbered(n, Dead) in s.caller.lower;
        assert Numbered(n, Dead) in l;
      }
  }

  /** An open attempt is what the second look finds, unless a reconciliation got there first. */
  lemma ReadOpenKeepsLinks(s: State, step: Step)
    requires Linked(s) && Enabled(s, step)
    requires step.SeeOpen? || step.SeeClosed?
    ensures Linked(Apply(s, step))
  {
    FreshListingFits(s.shelf);
    match step
    case SeeOpen(l) =>
      var n :| Numbered(n, Sending) in l && Tops(l, n);
      assert Numbered(n, Sending) in s.shelf.trail.names;
      assert s.shelf.trail.Newest() in l;
      assert TrailIs(s, Sending);
    case SeeClosed(l) =>
      if s.doubt {
        assert s.shelf.trail.Newest() in l;
        var e :| e != Sending && Newest(l, e);
        var n :| Numbered(n, e) in l && Tops(l, n);
        assert e != Dead ==> Numbered(n, e) in s.shelf.trail.names;
        assert HasEvent(s.shelf.files, Dead);
      }
  }

  lemma CountKeepsLinks(s: State, l: Dir)
    requires Linked(s) && Enabled(s, Count(l))
    ensures Linked(Apply(s, Count(l)))
  {
    ListingNumber(s.shelf.trail, s.caller.stage.lower, l, s.shelf.files);
  }

  lemma CreateBeforeSendKeepsLinks(s: State)
    requires Linked(s) && Enabled(s, Create)
    requires s.caller.event == Composed || s.caller.event == Sending
    ensures Linked(Apply(s, Create))
  {
    RecordKeepsShelf(s.shelf, s.caller.stage.number, s.caller.event);
    assert s.caller.answered ==> false;
  }

  /** The state once an answer of the platform is recorded. */
  function Answered(s: State): State
    requires s.caller.Recording? && s.caller.stage.Naming? && s.caller.answered && s.caller.event != Composed
             && s.caller.event != Sending
  {
    var c := s.caller;
    s.(shelf := Record(s.shelf, c.stage.number, c.event), doubt := DoubtAfter(s.doubt, c.event, true),
       caller := Writing(c.rec, SettledStatus(c.event)))
  }

  lemma AnswerFits(s: State)
    requires s.caller.Recording? && s.caller.stage.Naming? && s.caller.answered && s.caller.event != Composed
             && s.caller.event != Sending
    requires ShelfValid(s.shelf) && HistoryFits(s) && RecordingFits(s)
    requires Numbered(s.caller.stage.number, s.caller.event) !in s.shelf.files
    ensures ShelfValid(Answered(s).shelf) && HistoryFits(Answered(s)) && WritingFits(Answered(s))
  {
    RecordKeepsShelf(s.shelf, s.caller.stage.number, s.caller.event);
    hide ShelfValid, StageFits, Record;
  }

  lemma CreateAnswerKeepsLinks(s: State)
    requires Linked(s) && Enabled(s, Create)
    requires s.caller.answered
    ensures Linked(Apply(s, Create))
  {
    assert RecordingFits(s);
    hide RecordingFits, HistoryFits, ShelfValid, WritingFits;
    AnswerIsAnOutcome(s);
    AnswerFits(s);
    assert Apply(s, Create) == Answered(s);
  }

  lemma AnswerIsAnOutcome(s: State)
    requires s.caller.Recording? && s.caller.answered && RecordingFits(s)
    ensures s.caller.event != Composed && s.caller.event != Sending
  {
  }

  lemma CreateVerdictKeepsLinks(s: State)
    requires Linked(s) && Enabled(s, Create)
    requires !s.caller.answered && s.caller.event != Composed && s.caller.event != Sending
    ensures Linked(Apply(s, Create))
  {
    RecordKeepsShelf(s.shelf, s.caller.stage.number, s.caller.event);
  }

  lemma CreateKeepsLinks(s: State)
    requires Linked(s) && Enabled(s, Create)
    ensures Linked(Apply(s, Create))
  {
    hide Linked, Apply;
    if s.caller.event == Composed || s.caller.event == Sending {
      CreateBeforeSendKeepsLinks(s);
    } else if s.caller.answered {
      CreateAnswerKeepsLinks(s);
    } else {
      CreateVerdictKeepsLinks(s);
    }
  }

  lemma CallKeepsLinks(s: State, a: Answer)
    requires Linked(s) && Enabled(s, Call(a))
    ensures Linked(Apply(s, Call(a)))
  {
    FreshListingFits(s.shelf);
  }

  lemma PolicyKeepsLinks(s: State, step: Step)
    requires Linked(s) && Enabled(s, step)
    requires step.Refuse? || step.Pass? || step.Compose?
    ensures Linked(Apply(s, step))
  {
    FreshListingFits(s.shelf);
  }

  lemma FileKeepsLinks(s: State, step: Step)
    requires Linked(s) && Enabled(s, step)
    requires step.Enter? || step.Load? || step.Admit? || step.ClaimFile? || step.FillFile? || step.Readmit?
             || step.WriteMove? || step.WriteStatus? || step.Leave?
    ensures Linked(Apply(s, step))
  {
  }

  lemma MeanwhileKeepsLinks(s: State, b: Background)
    requires Linked(s) && Enabled(s, Meanwhile(b))
    ensures Linked(Apply(s, Meanwhile(b)))
  {
    hide CanHappen, Happen, ShelfValid;
    BackgroundKeepsShelf(s.shelf, b);
  }

  lemma StepKeepsLinks(s: State, step: Step)
    requires Linked(s) && Enabled(s, step)
    ensures Linked(Apply(s, step))
  {
    hide *;
    match step
    case SeeTerminal(_, _) => LookKeepsLinks(s, step);
    case SeeNoTerminal(_) => LookKeepsLinks(s, step);
    case SeeOpen(_) => ReadOpenKeepsLinks(s, step);
    case SeeClosed(_) => ReadOpenKeepsLinks(s, step);
    case Count(l) => CountKeepsLinks(s, l);
    case Create => CreateKeepsLinks(s);
    case Call(a) => CallKeepsLinks(s, a);
    case Refuse => PolicyKeepsLinks(s, step);
    case Pass => PolicyKeepsLinks(s, step);
    case Compose(_) => PolicyKeepsLinks(s, step);
    case Meanwhile(b) => MeanwhileKeepsLinks(s, b);
    case _ => FileKeepsLinks(s, step);
  }

  lemma CreateBeforeSendKeepsTold(s: State)
    requires Inv(s) && Enabled(s, Create) && (s.caller.event == Composed || s.caller.event == Sending)
    ensures Told(Apply(s, Create))
  {
    NewReceipt(s.shelf.files, s.caller.stage.number, s.caller.event);
    BeforeSend(s);
    hide HasEvent, Linked, ReceiptsTell;
    assert Apply(s, Create).attempts == s.attempts;
    SaidBefore(s.shelf.files, Apply(s, Create).shelf.files, s.attempts);
  }

  lemma SaidBefore(d: Dir, e: Dir, attempts: seq<Answer>)
    requires ReceiptsTell(d, attempts)
    requires (HasEvent(e, Sent) ==> HasEvent(d, Sent)) && (HasEvent(e, Throttled) ==> HasEvent(d, Throttled))
    requires HasEvent(d, Sending) ==> HasEvent(e, Sending)
    ensures ReceiptsTell(e, attempts)
  {
    hide HasEvent;
  }

  lemma BeforeSend(s: State)
    requires Inv(s) && s.caller.Recording? && (s.caller.event == Composed || s.caller.event == Sending)
    ensures Copies(s, s.caller.rec) && Live(s.caller.rec.status) && !HasEvent(s.shelf.files, Ambiguous)
  {
    NoneTerminal(s.shelf.trail, s.shelf.files);
    assert RecordingFits(s);
    hide ShelfValid, HasEvent, StageFits;
  }

  lemma CreateVerdictKeepsTold(s: State)
    requires Inv(s) && Enabled(s, Create) && s.caller.event != Composed && s.caller.event != Sending
    ensures Told(Apply(s, Create))
  {
    AnswerOrVerdict(s);
    var event, files, t := s.caller.event, s.shelf.files, Apply(s, Create);
    NewReceipt(files, s.caller.stage.number, event);
    assert t.shelf.files == files + {Numbered(s.caller.stage.number, event)} && t.attempts == s.attempts;
    assert t.file == s.file && t.caller == Writing(s.caller.rec, SettledStatus(event));
    assert event != Ambiguous && s.doubt && event != Refused && event != Throttled ==> t.doubt;
    VerdictTells(files, t.shelf.files, s.attempts, event);
    if s.file.Kept? { StatusStillTells(s, t, s.file.rec.status, event); }
    hide Linked, ReceiptsTell, HasEvent, Enabled, Apply;
    assert ReceiptsTell(t.shelf.files, t.attempts);
  }

  lemma VerdictTells(d: Dir, e: Dir, attempts: seq<Answer>, event: Event)
    requires ReceiptsTell(d, attempts) && event != Sending
    requires forall x :: HasEvent(e, x) <==> x == event || HasEvent(d, x)
    requires event == Sent ==> LastWas(attempts, Accepted)
    requires event == Throttled ==> exists i :: 0 <= i < |attempts| && attempts[i] == Deferred
    ensures ReceiptsTell(e, attempts)
  {
    hide HasEvent;
  }

  lemma StatusStillTells(s: State, t: State, st: Status, event: Event)
    requires StatusTells(st, s) && (st == Refunded ==> event == Refused)
    requires forall x :: HasEvent(t.shelf.files, x) <==> x == event || HasEvent(s.shelf.files, x)
    ensures StatusTells(st, t)
  {
    hide HasEvent;
  }

  /** What is about to be recorded, apart from how the answer maps to it. */
  lemma AnswerOrVerdict(s: State)
    requires Inv(s) && s.caller.Recording? && s.caller.event != Composed && s.caller.event != Sending
    ensures s.caller.event == Sent ==> LastWas(s.attempts, Accepted)
    ensures s.caller.event == Throttled ==> exists i :: 0 <= i < |s.attempts| && s.attempts[i] == Deferred
    ensures s.caller.event == Ambiguous ==> s.doubt
    ensures s.caller.event != Dead && !HasEvent(s.shelf.files, Ambiguous)
    ensures s.file.Kept? && s.file.rec.status == Refunded ==> s.caller.event == Refused
  {
    NoneTerminal(s.shelf.trail, s.shelf.files);
    assert RecordingFits(s);
    hide ShelfValid, HasEvent;
    if s.caller.answered { assert s.attempts[|s.attempts| - 1] in s.attempts; }
  }

  lemma CreateKeepsTold(s: State)
    requires Inv(s) && Enabled(s, Create)
    ensures Told(Apply(s, Create))
  {
    assert s.caller.Recording?;
    hide *;
    if s.caller.event == Composed || s.caller.event == Sending {
      CreateBeforeSendKeepsTold(s);
    } else {
      CreateVerdictKeepsTold(s);
    }
  }

  lemma CallKeepsTold(s: State, a: Answer)
    requires Inv(s) && Enabled(s, Call(a))
    ensures Told(Apply(s, Call(a)))
  {
    NoneTerminal(s.shelf.trail, s.shelf.files);
    var t := Apply(s, Call(a));
    assert forall i :: 0 <= i < |s.attempts| ==> t.attempts[i] == s.attempts[i];
    assert s.shelf.trail.Newest() in s.shelf.files;
    hide ShelfValid, HasEvent;
  }

  lemma SeeTerminalKeepsTold(s: State, l: Dir, e: Event)
    requires Inv(s) && Enabled(s, SeeTerminal(l, e))
    ensures Told(Apply(s, SeeTerminal(l, e)))
  {
    var n :| Numbered(n, e) in l;
    assert HasEvent(s.shelf.files, e);
  }

  lemma MeanwhileKeepsTold(s: State, b: Background)
    requires Inv(s) && Enabled(s, Meanwhile(b))
    ensures Told(Apply(s, Meanwhile(b)))
  {
    var t := Apply(s, Meanwhile(b));
    assert t.shelf.trail == s.shelf.trail;
    assert forall e :: e != Dead && HasEvent(t.shelf.files, e) ==> HasEvent(s.shelf.files, e);
    assert forall e :: HasEvent(s.shelf.files, e) ==> HasEvent(t.shelf.files, e);
    hide HasEvent, Happen, ShelfValid;
  }

  lemma OthersKeepTold(s: State, step: Step)
    requires Inv(s) && Enabled(s, step)
    requires !step.Create? && !step.Call? && !step.SeeTerminal? && !step.Meanwhile?
    ensures Told(Apply(s, step))
  {
    hide ShelfValid, HistoryFits, ReceiptsTell, HasEvent, StageFits;
  }

  lemma StepKeepsTold(s: State, step: Step)
    requires Inv(s) && Enabled(s, step)
    ensures Told(Apply(s, step))
  {
    hide *;
    match step
    case Create => CreateKeepsTold(s);
    case Call(a) => CallKeepsTold(s, a);
    case SeeTerminal(l, e) => SeeTerminalKeepsTold(s, l, e);
    case Meanwhile(b) => MeanwhileKeepsTold(s, b);
    case _ => OthersKeepTold(s, step);
  }

  lemma StepKeepsInv(s: State, step: Step)
    requires Inv(s) && Enabled(s, step)
    ensures Inv(Apply(s, step))
  {
    StepKeepsTold(s, step);
    hide Linked, Told, Enabled, Apply;
    StepKeepsLinks(s, step);
  }

  lemma {:induction false} RunKeepsInv(s: State, steps: seq<Step>)
    requires Inv(s) && Legal(s, steps)
    ensures Inv(Exec(s, steps))
    decreases |steps|
  {
    if steps != [] {
      StepKeepsInv(s, steps[0]);
      RunKeepsInv(Apply(s, steps[0]), steps[1..]);
    }
  }

  lemma InitInv(binding: string)
    ensures Inv(Init(binding))
  {
  }

  lemma AtMostOneDelivery(binding: string, steps: seq<Step>)
    requires Legal(Init(binding), steps)
    ensures AtMostOneDelivered(Exec(Init(binding), steps).attempts)
  {
    RunKeepsInv(Init(binding), steps);
  }

  /**
   In every run: "sent" is recorded only of a last attempt that was accepted, "throttled" only if some
   attempt was deferred, and no attempt is made before "sending" is recorded; and the reservation is
   settled as sent only beside a "sent", held only beside a "throttled", settled as ambiguous only beside
   an "ambiguous" or "dead", and refunded only beside a "refused" or where no receipt was ever written
   and nothing attempted.
   */
  lemma RecordsAreTrue(binding: string, steps: seq<Step>)
    requires Legal(Init(binding), steps)
    ensures var s := Exec(Init(binding), steps);
            ReceiptsTell(s.shelf.files, s.attempts) && (s.file.Kept? ==> StatusTells(s.file.rec.status, s))
  {
    RunKeepsInv(Init(binding), steps);
  }

  // ---- conservation of charge ----

  /** A refund is due only when nothing can have reached the correspondent. */
  ghost predicate Conserved(s: State) {
    s.file.Kept? && s.file.rec.status == Refunded ==>
      !s.doubt && forall i :: 0 <= i < |s.attempts| ==> !MayBeDelivered(s.attempts[i])
  }

  /** Terminal receipts aside, the newest receipt in the directory is a "sending". */
  ghost predicate UnansweredSending(d: Dir) {
    exists n :: Numbered(n, Sending) in d && forall x :: x in d && x.Numbered? && !Terminal(x.event) ==> x.number <= n
  }

  /**
   send_initiated looks for a terminal receipt and then for an open attempt, in two listings.
   A refusal after that is sound exactly when the directory shows no unanswered "sending".
   */
  ghost predicate Guarded(s: State, step: Step) {
    step.Refuse? && s.caller.Preflight? ==> !UnansweredSending(s.shelf.files)
  }

  ghost predicate GuardedRun(s: State, steps: seq<Step>)
    requires Legal(s, steps)
    decreases |steps|
  {
    steps == [] || (Guarded(s, steps[0]) && GuardedRun(Apply(s, steps[0]), steps[1..]))
  }

  ghost predicate RefundsFit(s: State) {
    && (s.file.Kept? && s.file.rec.status == Refunded ==> !s.doubt)
    && (TrailIs(s, Refused) ==> !s.doubt)
    && (s.caller.Recording? && s.caller.event == Refused && !s.caller.answered ==> !s.doubt)
    && (s.caller.Writing? && s.caller.status == Refunded ==> !s.doubt)
  }

  /** Between the two looks and the refusal, doubt and an unanswered "sending" are one thing. */
  lemma DoubtShows(s: State)
    requires Inv(s) && Open(s)
    ensures s.doubt <==> UnansweredSending(s.shelf.files)
  {
    var t := s.shelf.trail;
    if s.doubt {
      assert Numbered(t.top, Sending) in s.shelf.files;
    }
    if UnansweredSending(s.shelf.files) {
      var n :| && Numbered(n, Sending) in s.shelf.files
               && forall x :: x in s.shelf.files && x.Numbered? && !Terminal(x.event) ==> x.number <= n;
      assert Numbered(n, Sending) in t.names;
      assert t.Newest() in s.shelf.files;
    }
  }

  lemma LookKeepsRefunds(s: State, step: Step)
    requires Inv(s) && RefundsFit(s) && Enabled(s, step)
    requires step.SeeTerminal?
    ensures RefundsFit(Apply(s, step))
  {
    var n :| Numbered(n, step.event) in step.listing;
    if step.event == Refused {
      assert Numbered(n, Refused) in s.shelf.trail.names;
    }
  }

  lemma RefusalKeepsRefunds(s: State)
    requires Inv(s) && RefundsFit(s) && Enabled(s, Refuse) && Guarded(s, Refuse)
    ensures RefundsFit(Apply(s, Refuse))
  {
    if s.caller.Preflight? { DoubtShows(s); }
  }

  lemma CreateKeepsRefunds(s: State)
    requires Inv(s) && RefundsFit(s) && Enabled(s, Create)
    ensures RefundsFit(Apply(s, Create))
  {
  }

  lemma MeanwhileKeepsRefunds(s: State, b: Background)
    requires Inv(s) && RefundsFit(s) && Enabled(s, Meanwhile(b))
    ensures RefundsFit(Apply(s, Meanwhile(b)))
  {
    hide CanHappen, Happen, ShelfValid;
    BackgroundKeepsShelf(s.shelf, b);
  }

  lemma OthersKeepRefunds(s: State, step: Step)
    requires Inv(s) && RefundsFit(s) && Enabled(s, step)
    requires !step.SeeTerminal? && !step.Refuse? && !step.Create? && !step.Meanwhile?
    ensures RefundsFit(Apply(s, step))
  {
    hide ShelfValid, HistoryFits;
  }

  lemma GuardedStepKeepsRefunds(s: State, step: Step)
    requires Inv(s) && RefundsFit(s) && Enabled(s, step) && Guarded(s, step)
    ensures RefundsFit(Apply(s, step))
  {
    hide *;
    match step
    case SeeTerminal(_, _) => LookKeepsRefunds(s, step);
    case Refuse => RefusalKeepsRefunds(s);
    case Create => CreateKeepsRefunds(s);
    case Meanwhile(b) => MeanwhileKeepsRefunds(s, b);
    case _ => OthersKeepRefunds(s, step);
  }

  lemma {:induction false} GuardedRunConserves(s: State, steps: seq<Step>)
    requires Inv(s) && RefundsFit(s) && Legal(s, steps) && GuardedRun(s, steps)
    ensures Conserved(Exec(s, steps))
    decreases |steps|
  {
    if steps != [] {
      StepKeepsInv(s, steps[0]);
      GuardedStepKeepsRefunds(s, steps[0]);
      GuardedRunConserves(Apply(s, steps[0]), steps[1..]);
    }
  }

  /** Every run keeps a possibly delivered message charged, if each such refusal is guarded. */
  lemma ConservationOfCharge(binding: string, steps: seq<Step>)
    requires Legal(Init(binding), steps) && GuardedRun(Init(binding), steps)
    ensures Conserved(Exec(Init(binding), steps))
  {
    GuardedRunConserves(Init(binding), steps);
  }

  lemma {:induction false} Join(s: State, a: seq<Step>, b: seq<Step>)
    requires Legal(s, a) && Legal(Exec(s, a), b)
    ensures Legal(s, a + b) && Exec(s, a + b) == Exec(Exec(s, a), b)
    decreases |a|
  {
    if a == [] {
      assert a + b == b;
    } else {
      assert (a + b)[1..] == a[1..] + b;
      Join(Apply(s, a[0]), a[1..], b);
    }
  }

  lemma OneMore(s: State, steps: seq<Step>, step: Step)
    requires Legal(s, steps) && Enabled(Exec(s, steps), step)
    ensures Legal(s, steps + [step]) && Exec(s, steps + [step]) == Apply(Exec(s, steps), step)
  {
    var t := Exec(s, steps);
    assert Legal(Apply(t, step), []);
    assert [step][1..] == [];
    Join(s, steps, [step]);
  }

  lemma NoSteps(s: State)
    ensures Legal(s, []) && Exec(s, []) == s
  {
  }

  /** A refusal carried out without interruption. */
  ghost function RefusalSteps(s: State): seq<Step> {
    ([Refuse] + [Count(s.shelf.files)]) + ([Create] + [WriteStatus])
  }

  function Numbering(s: State, rec: Reservation): State {
    s.(caller := Recording(rec, Refused, false, Naming(|s.shelf.files| + 1)))
  }

  lemma RefusalBegins(s: State)
    requires s.caller.Preflight?
    ensures var steps := [Refuse] + [Count(s.shelf.files)];
            Legal(s, steps) && Exec(s, steps) == Numbering(s, s.caller.rec)
  {
    hide Legal, Exec;
    NoSteps(s);
    assert [] + [Refuse] == [Refuse];
    OneMore(s, [], Refuse);
    OneMore(s, [Refuse], Count(s.shelf.files));
  }

  lemma RefusalEnds(s: State, rec: Reservation)
    requires Bounded(s.shelf.files)
    ensures var steps := [Create] + [WriteStatus];
            Legal(Numbering(s, rec), steps)
            && Exec(Numbering(s, rec), steps) ==
               s.(file := Kept(rec.(status := Refunded)), shelf := Record(s.shelf, |s.shelf.files| + 1, Refused),
                 caller := Idle)
  {
    hide Legal, Exec;
    var t := Numbering(s, rec);
    NoSteps(t);
    assert [] + [Create] == [Create];
    OneMore(t, [], Create);
    OneMore(t, [Create], WriteStatus);
  }

  lemma RefusalRuns(s: State)
    requires Inv(s) && s.caller.Preflight?
    ensures Legal(s, RefusalSteps(s))
    ensures Exec(s, RefusalSteps(s)) == s.(
      file := Kept(s.caller.rec.(status := Refunded)),
      shelf := Record(s.shelf, |s.shelf.files| + 1, Refused),
      caller := Idle)
  {
    hide Legal, Exec;
    RefusalBegins(s);
    RefusalEnds(s, s.caller.rec);
    Join(s, [Refuse] + [Count(s.shelf.files)], [Create] + [WriteStatus]);
  }

  /** From any reachable state, the refusal refunds, and wrongly so exactly when the guard fails. */
  lemma RefusalIsWrongIff(binding: string, steps: seq<Step>)
    requires Legal(Init(binding), steps)
    requires Exec(Init(binding), steps).caller.Preflight?
    ensures var s := Exec(Init(binding), steps);
            && Legal(s, RefusalSteps(s))
            && var t := Exec(s, RefusalSteps(s));
            && t.file.Kept? && t.file.rec.status == Refunded
            && (t.doubt <==> UnansweredSending(s.shelf.files))
  {
    RunKeepsInv(Init(binding), steps);
    var s := Exec(Init(binding), steps);
    DoubtShows(s);
    RefusalRuns(s);
  }

  // ---- what an uninterrupted caller leaves ----

  /** The status that an answer calls for. */
  ghost predicate Settles(st: Status, a: Answer) {
    match st
    case Reserved => false
    case Held => a == Deferred
    case SettledSent => a == Accepted
    case SettledAmbiguous => a == Unknown
    case Refunded => a == Declined
  }

  /** What a receipt written without interruption leaves, and the reservation settled by it. */
  function Settled(s: State, rec: Reservation, e: Event): State
    requires e != Composed && e != Sending
  {
    s.(shelf := Record(s.shelf, |s.shelf.files| + 1, e), file := Kept(rec.(status := SettledStatus(e))), caller := Idle)
  }

  /** A receipt counted and created without anything in between. */
  lemma Records(s: State, rec: Reservation, e: Event, answered: bool)
    requires e != Composed && e != Sending && Bounded(s.shelf.files)
    requires s.caller == Recording(rec, e, answered, Listing(s.shelf.files))
    ensures Enabled(s, Count(s.shelf.files)) && Enabled(Apply(s, Count(s.shelf.files)), Create)
    ensures Apply(Apply(s, Count(s.shelf.files)), Create)
         == s.(shelf := Record(s.shelf, |s.shelf.files| + 1, e), doubt := DoubtAfter(s.doubt, e, answered),
               caller := Writing(rec, SettledStatus(e)))
  {
    NextNumberIsNew(s.shelf.files, e);
    hide Bounded;
  }

  lemma SettlingRuns(s: State, rec: Reservation, e: Event, answered: bool)
    requires e != Composed && e != Sending && Bounded(s.shelf.files)
    requires s.caller == Recording(rec, e, answered, Listing(s.shelf.files))
    ensures var steps := [Count(s.shelf.files), Create, WriteStatus];
            Legal(s, steps) && Exec(s, steps) == Settled(s, rec, e).(doubt := DoubtAfter(s.doubt, e, answered))
  {
    var files := s.shelf.files;
    Records(s, rec, e, answered);
    var t := Apply(Apply(s, Count(files)), Create);
    assert Enabled(t, WriteStatus);
    assert Apply(t, WriteStatus) == Settled(s, rec, e).(doubt := DoubtAfter(s.doubt, e, answered));
    hide Legal, Exec, Enabled, Apply, Bounded;
    ThreeSteps(s, Count(files), Create, WriteStatus);
  }

  lemma ThreeSteps(s: State, a: Step, b: Step, c: Step)
    requires Enabled(s, a) && Enabled(Apply(s, a), b) && Enabled(Apply(Apply(s, a), b), c)
    ensures Legal(s, [a, b, c]) && Exec(s, [a, b, c]) == Apply(Apply(Apply(s, a), b), c)
  {
    hide Legal, Exec, Enabled, Apply;
    NoSteps(s);
    assert [] + [a] == [a] && [a] + [b] == [a, b] && [a, b] + [c] == [a, b, c];
    OneMore(s, [], a);
    OneMore(s, [a], b);
    OneMore(s, [a, b], c);
  }

  lemma {:induction false} FirstStep(s: State, a: Step, rest: seq<Step>)
    requires Enabled(s, a) && Legal(Apply(s, a), rest)
    ensures Legal(s, [a] + rest) && Exec(s, [a] + rest) == Exec(Apply(s, a), rest)
  {
    assert ([a] + rest)[1..] == rest;
  }

  /** A caller at its attempt, not interrupted: one receipt, and the reservation settled, as the answer calls for. */
  lemma AnswerIsSettled(s: State, a: Answer)
    requires Inv(s) && s.caller.Calling?
    ensures var steps := [Call(a)] + [Count(s.shelf.files), Create, WriteStatus];
            && Legal(s, steps)
            && var t := Exec(s, steps);
            && t.attempts == s.attempts + [a] && Adds(s.shelf.files, t.shelf.files, a)
            && t.file.Kept? && s.file.Kept? && Settles(t.file.rec.status, a)
            && t.file.rec == s.file.rec.(status := t.file.rec.status) && t.caller == Idle
  {
    var rec, files, e := s.caller.rec, s.shelf.files, OutcomeOf(a);
    assert s.file == Kept(rec) && Bounded(files);
    hide Inv, Legal, Exec, Adds, Bounded, Settles, SettledStatus, OutcomeOf, Means;
    OutcomeFits(a);
    NextNumberIsNew(files, e);
    AddsOne(files, e, a);
    SettlingRuns(Apply(s, Call(a)), rec, e, true);
    FirstStep(s, Call(a), [Count(files), Create, WriteStatus]);
  }

  lemma OutcomeFits(a: Answer)
    ensures OutcomeOf(a) != Composed && OutcomeOf(a) != Sending
    ensures Means(OutcomeOf(a), a) && Settles(SettledStatus(OutcomeOf(a)), a)
  {
  }

  /** A terminal receipt is found: the reservation, where still live, is settled as the receipt says. */
  lemma TerminalSettles(s: State, l: Dir, e: Event)
    requires Inv(s) && Enabled(s, SeeTerminal(l, e)) && Live(s.caller.rec.status)
    ensures var t := Apply(s, SeeTerminal(l, e));
            && Enabled(t, WriteStatus) && s.file.Kept?
            && Apply(t, WriteStatus) == s.(caller := Idle, file := Kept(s.file.rec.(status :=
                 if e == Sent then SettledSent else if e == Refused then Refunded else SettledAmbiguous)))
  {
    hide ShelfValid, HistoryFits, Told;
  }

  /** An attempt without an answer is found: it is recorded and settled as ambiguous. */
  lemma OpenSettles(s: State)
    requires Inv(s) && s.caller.CheckingOpen? && MayReadOpen(s.shelf.files)
    ensures var files := s.shelf.files;
            var steps := [SeeOpen(files)] + [Count(files), Create, WriteStatus];
            && Legal(s, steps) && s.file.Kept?
            && Exec(s, steps).shelf.files == files + {Numbered(|files| + 1, Ambiguous)}
            && Exec(s, steps).file == Kept(s.file.rec.(status := SettledAmbiguous)) && Exec(s, steps).caller == Idle
  {
    var rec, files := s.caller.rec, s.shelf.files;
    assert s.file == Kept(rec) && Bounded(files) && s.caller.lower <= files;
    hide Inv, Legal, Exec, MayReadOpen, Bounded;
    SettlingRuns(Apply(s, SeeOpen(files)), rec, Ambiguous, false);
    FirstStep(s, SeeOpen(files), [Count(files), Create, WriteStatus]);
  }

  /** With no terminal receipt, and none that says "sending" last, both looks find nothing. */
  lemma LooksFindNothing(s: State)
    requires s.caller.CheckingTerminal? && s.caller.lower == s.shelf.files && Live(s.caller.rec.status)
    requires !HasTerminal(s.shelf.files) && MayReadClosed(s.shelf.files)
    ensures var files, c := s.shelf.files, s.caller;
            var steps := [SeeNoTerminal(files)] + [SeeClosed(files)];
            && Legal(s, steps)
            && Exec(s, steps) == s.(caller := if c.round.Outer? then Preflight(c.rec) else Readmitting(c.rec))
  {
    var files := s.shelf.files;
    hide Legal, Exec, MayReadClosed, HasTerminal;
    NoSteps(s);
    assert [] + [SeeNoTerminal(files)] == [SeeNoTerminal(files)];
    OneMore(s, [], SeeNoTerminal(files));
    OneMore(s, [SeeNoTerminal(files)], SeeClosed(files));
  }

  lemma EntersAndLooks(s: State) returns (steps: seq<Step>)
    requires s.caller.Idle? && s.file.Kept? && Live(s.file.rec.status)
    requires !HasTerminal(s.shelf.files) && MayReadClosed(s.shelf.files)
    ensures Legal(s, steps) && Exec(s, steps) == s.(caller := Readmitting(s.file.rec))
  {
    var files, rec := s.shelf.files, s.file.rec;
    var looks := [SeeNoTerminal(files)] + [SeeClosed(files)];
    hide Legal, Exec, MayReadClosed, HasTerminal;
    NoSteps(s);
    steps := [];
    OneMore(s, steps, Enter); steps := steps + [Enter];
    OneMore(s, steps, Load); steps := steps + [Load];
    LooksFindNothing(Exec(s, steps));
    Join(s, steps, looks); steps := steps + looks;
    OneMore(s, steps, Pass); steps := steps + [Pass];
    LooksFindNothing(Exec(s, steps));
    Join(s, steps, looks); steps := steps + looks;
  }

  /** A letter held back by a throttle: the next caller that policy and budget let through attempts it again. */
  lemma ThrottleIsResumed(s: State) returns (steps: seq<Step>)
    requires Inv(s) && s.caller.Idle? && s.file.Kept? && s.file.rec.status == Held && WaitsOnThrottle(s.shelf.files)
    ensures Legal(s, steps)
    ensures Exec(s, steps).caller == Calling(s.file.rec) && Exec(s, steps).attempts == s.attempts
    ensures Exec(s, steps).shelf.files == s.shelf.files + {Numbered(|s.shelf.files| + 1, Sending)}
  {
    var files, rec := s.shelf.files, s.file.rec;
    NextNumberIsNew(files, Sending);
    assert MayReadClosed(files);
    hide Legal, Exec, Inv, MayReadClosed, HasTerminal, Newest;
    steps := EntersAndLooks(s);
    OneMore(s, steps, Readmit(rec.window)); steps := steps + [Readmit(rec.window)];
    OneMore(s, steps, Pass); steps := steps + [Pass];
    OneMore(s, steps, Count(files)); steps := steps + [Count(files)];
    OneMore(s, steps, Create); steps := steps + [Create];
  }

  lemma ReservesALetter(binding: string, w: Window) returns (steps: seq<Step>)
    ensures Legal(Init(binding), steps)
    ensures var rec := Reservation(binding, w, Reserved);
            Exec(Init(binding), steps) == State(binding, Kept(rec), EmptyShelf, [], false, Composing(rec))
  {
    var i := Init(binding);
    steps := [];
    OneMore(i, steps, Enter); steps := steps + [Enter];
    OneMore(i, steps, Load); steps := steps + [Load];
    OneMore(i, steps, Admit(w)); steps := steps + [Admit(w)];
    OneMore(i, steps, ClaimFile); steps := steps + [ClaimFile];
    OneMore(i, steps, FillFile); steps := steps + [FillFile];
  }

  lemma ComposesALetter(binding: string, w: Window) returns (steps: seq<Step>)
    ensures Legal(Init(binding), steps)
    ensures var rec, c := Reservation(binding, w, Reserved), Numbered(1, Composed);
            Exec(Init(binding), steps) ==
              State(binding, Kept(rec), Shelf({c}, Trail({c}, 1, Composed), map[]), [], false,
                CheckingTerminal(Inner, rec, {c}))
  {
    hide Legal, Exec;
    var i := Init(binding);
    steps := ReservesALetter(binding, w);
    OneMore(i, steps, Compose(true)); steps := steps + [Compose(true)];
    OneMore(i, steps, Count({})); steps := steps + [Count({})];
    OneMore(i, steps, Create); steps := steps + [Create];
    assert {} + {Numbered(1, Composed)} == {Numbered(1, Composed)};
  }

  lemma AuthorisesALetter(binding: string, w: Window) returns (steps: seq<Step>)
    ensures Legal(Init(binding), steps)
    ensures var rec, c := Reservation(binding, w, Reserved), Numbered(1, Composed);
            Exec(Init(binding), steps) ==
              State(binding, Kept(rec), Shelf({c}, Trail({c}, 1, Composed), map[]), [], false, Authorising(rec))
  {
    hide Legal, Exec;
    var i, c := Init(binding), Numbered(1, Composed);
    steps := ComposesALetter(binding, w);
    OneMore(i, steps, SeeNoTerminal({c})); steps := steps + [SeeNoTerminal({c})];
    assert Newest({c}, Composed) by { assert c in {c} && Tops({c}, 1); }
    OneMore(i, steps, SeeClosed({c})); steps := steps + [SeeClosed({c})];
    OneMore(i, steps, Readmit(w)); steps := steps + [Readmit(w)];
  }

  lemma RecordsSending(binding: string, w: Window) returns (steps: seq<Step>)
    ensures Legal(Init(binding), steps)
    ensures var rec, c, n := Reservation(binding, w, Reserved), Numbered(1, Composed), Numbered(2, Sending);
            Exec(Init(binding), steps) ==
              State(binding, Kept(rec), Shelf({c, n}, Trail({c, n}, 2, Sending), map[]), [], true, Calling(rec))
  {
    hide Legal, Exec;
    var i, c, n := Init(binding), Numbered(1, Composed), Numbered(2, Sending);
    steps := AuthorisesALetter(binding, w);
    OneMore(i, steps, Pass); steps := steps + [Pass];
    OneMore(i, steps, Count({c})); steps := steps + [Count({c})];
    OneMore(i, steps, Create); steps := steps + [Create];
    assert {c} + {n} == {c, n};
  }

  /** A first caller sends the message and dies before it can record the answer. */
  lemma DiesAfterDelivery(binding: string, w: Window) returns (steps: seq<Step>)
    ensures Legal(Init(binding), steps)
    ensures var c, n := Numbered(1, Composed), Numbered(2, Sending);
            Exec(Init(binding), steps) == State(binding, Kept(Reservation(binding, w, Reserved)),
              Shelf({c, n}, Trail({c, n}, 2, Sending), map[]), [Accepted], true, Idle)
  {
    hide Legal, Exec;
    var i, c, n := Init(binding), Numbered(1, Composed), Numbered(2, Sending);
    steps := RecordsSending(binding, w);
    OneMore(i, steps, Call(Accepted)); steps := steps + [Call(Accepted)];
    OneMore(i, steps, Leave); steps := steps + [Leave];
  }

  /** Startup reconciliation decides the letter died in flight, and is about to say so. */
  lemma ReconciliationDawdles(binding: string, w: Window) returns (steps: seq<Step>)
    ensures Legal(Init(binding), steps)
    ensures var c, n := Numbered(1, Composed), Numbered(2, Sending);
            Exec(Init(binding), steps) == State(binding, Kept(Reservation(binding, w, Reserved)),
              Shelf({c, n}, Trail({c, n}, 2, Sending), map[0 := Flagging(Naming(3))]), [Accepted], true, Idle)
  {
    hide Legal, Exec;
    var i, c, n := Init(binding), Numbered(1, Composed), Numbered(2, Sending);
    steps := DiesAfterDelivery(binding, w);
    assert DiedInFlight({c, n}) by { assert n in {c, n} && Tops({c, n}, 2) && Newest({c, n}, Sending); }
    hide DiedInFlight, Newest, Tops, HasTerminal, HasEvent;
    OneMore(i, steps, Meanwhile(Scan(0))); steps := steps + [Meanwhile(Scan(0))];
    OneMore(i, steps, Meanwhile(FindInFlight(0, {c, n}))); steps := steps + [Meanwhile(FindInFlight(0, {c, n}))];
    OneMore(i, steps, Meanwhile(CountDead(0, {c, n}))); steps := steps + [Meanwhile(CountDead(0, {c, n}))];
    assert map[][0 := Scanning({c, n})][0 := Flagging(Listing({c, n}))][0 := Flagging(Naming(3))]
        == map[0 := Flagging(Naming(3))];
  }

  lemma LooksTwice(binding: string, w: Window) returns (steps: seq<Step>)
    ensures Legal(Init(binding), steps)
    ensures var s := Exec(Init(binding), steps);
            s.attempts == [Accepted] && s.caller == Preflight(Reservation(binding, w, Reserved))
  {
    hide Legal, Exec;
    var i, c, n, d := Init(binding), Numbered(1, Composed), Numbered(2, Sending), Numbered(3, Dead);
    steps := ReconciliationDawdles(binding, w);
    OneMore(i, steps, Enter); steps := steps + [Enter];
    OneMore(i, steps, Load); steps := steps + [Load];
    OneMore(i, steps, SeeNoTerminal({c, n})); steps := steps + [SeeNoTerminal({c, n})];
    OneMore(i, steps, Meanwhile(CreateDead(0))); steps := steps + [Meanwhile(CreateDead(0))];
    var all := {c, n} + {d};
    assert Newest(all, Dead) by { assert d in all && Tops(all, 3); }
    OneMore(i, steps, SeeClosed(all)); steps := steps + [SeeClosed(all)];
  }

  /**
   The guard is needed. Reconciliation writes "dead" between the two looks of the next caller,
   the second look no longer ends in "sending", and a policy refusal refunds a message that
   was delivered.
   */
  lemma RaceRefundsADelivery(binding: string, w: Window) returns (steps: seq<Step>)
    ensures Legal(Init(binding), steps)
    ensures var t := Exec(Init(binding), steps);
            t.file == Kept(Reservation(binding, w, Refunded)) && t.attempts == [Accepted]
  {
    hide Legal, Exec;
    var i := Init(binding);
    var looks := LooksTwice(binding, w);
    RunKeepsInv(i, looks);
    var refusal := RefusalSteps(Exec(i, looks));
    RefusalRuns(Exec(i, looks));
    Join(i, looks, refusal);
    steps := looks + refusal;
  }
}
