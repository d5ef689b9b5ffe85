/**
 One reply, over every interleaving of its composers, its resumers and startup reconciliation.

 A composer wins the exclusive create of the outbox letter, records receipts and makes one
 attempt. A resumer holds the letter's resume lock, reads the receipts, and makes one further
 attempt when the newest is a throttle. Every process may stop at any step, and then forgets
 everything.
 */
module ReplyProtocol {
  import opened Receipts

  datatype Writer = Idle | Checking(lower: Dir) | Recording(event: Event, stage: Stage) | Calling | Ended

  datatype State = State(
    claimed: bool,             // the outbox letter exists
    shelf: Shelf,
    resumed: bool,             // a resumer has recorded something
    attempts: seq<Answer>,     // what the platform did, in order
    composer: Writer,
    resumer: Writer)           // the holder of the resume lock, Idle when nobody holds it

  const Init := State(false, EmptyShelf, false, [], Idle, Idle)

  datatype Role = Composer | Resumer

  datatype Step =
    | Claim                                 // the exclusive create of the outbox letter succeeds
    | TakeLock                              // a resumer takes the lock and begins to read
    | FindThrottled(listing: Dir)           // and finds a letter waiting on a throttle
    | Count(role: Role, listing: Dir)
    | Create(role: Role)
    | Call(role: Role, answer: Answer)
    | Leave(role: Role)                     // a crash, a refusal before sending, or a name collision
    | Meanwhile(b: Background)

  function WriterOf(s: State, role: Role): Writer {
    if role.Composer? then s.composer else s.resumer
  }

  function WithWriter(s: State, role: Role, w: Writer): State {
    if role.Composer? then s.(composer := w) else s.(resumer := w)
  }

  /** A composer ends for good. A resumer that ends releases the lock. */
  function Done(role: Role): Writer {
    if role.Composer? then Ended else Idle
  }

  function AfterCreate(role: Role, event: Event, files: Dir): Writer {
    match event
    case Composed => Recording(Sending, Listing(files))
    case Sending => Calling
    case _ => Done(role)
  }

  ghost predicate Enabled(s: State, step: Step) {
    match step
    case Claim => !s.claimed
    case TakeLock => s.resumer == Idle
    case FindThrottled(l) =>
      s.resumer.Checking? && IsListing(s.resumer.lower, l, s.shelf.files) && WaitsOnThrottle(l)
    case Count(role, l) =>
      var w := WriterOf(s, role);
      w.Recording? && w.stage.Listing? && IsListing(w.stage.lower, l, s.shelf.files)
    case Create(role) =>
      var w := WriterOf(s, role);
      w.Recording? && w.stage.Naming? && Numbered(w.stage.number, w.event) !in s.shelf.files
    case Call(role, _) => WriterOf(s, role).Calling?
    case Leave(role) => WriterOf(s, role) != Idle
    case Meanwhile(b) => CanHappen(s.shelf, b)
  }

  ghost function Apply(s: State, step: Step): State
    requires Enabled(s, step)
  {
    match step
    case Claim => s.(claimed := true, composer := Recording(Composed, Listing(s.shelf.files)))
    case TakeLock => s.(resumer := Checking(s.shelf.files))
    case FindThrottled(_) => s.(resumer := Recording(Sending, Listing(s.shelf.files)))
    case Count(role, l) => WithWriter(s, role, Recording(WriterOf(s, role).event, Naming(|l| + 1)))
    case Create(role) =>
      var w := WriterOf(s, role);
      var shelf := Record(s.shelf, w.stage.number, w.event);
      WithWriter(s.(shelf := shelf, resumed := s.resumed || role.Resumer?), role,
        AfterCreate(role, w.event, shelf.files))
    case Call(role, a) =>
      WithWriter(s.(attempts := s.attempts + [a]), role, Recording(OutcomeOf(a), Listing(s.shelf.files)))
    case Leave(role) => WithWriter(s, role, Done(role))
    case Meanwhile(b) => s.(shelf := Happen(s.shelf, b))
  }

  ghost predicate Legal(s: State, steps: seq<Step>)
    decreases |steps|
  {
    steps == [] || (Enabled(s, steps[0]) && Legal(Apply(s, steps[0]), steps[1..]))
  }

  ghost function Exec(s: State, steps: seq<Step>): State
    requires Legal(s, steps)
    decreases |steps|
  {
    if steps == [] then s else Exec(Apply(s, steps[0]), steps[1..])
  }

  // ---- what every reachable state satisfies ----

  ghost predicate TrailIs(s: State, e: Event) {
    s.shelf.trail.names != {} && s.shelf.trail.newest == e
  }

  ghost predicate ComposerFits(s: State) {
    match s.composer
    case Idle => !s.claimed && !s.resumed && s.shelf.trail.names == {} && s.attempts == []
    case Recording(e, stage) =>
      && s.claimed && !s.resumed && StageFits(s.shelf, stage)
      && (e == Composed ==> s.shelf.trail.names == {} && s.attempts == [])
      && (e == Sending ==> TrailIs(s, Composed) && s.attempts == [])
      && (e != Composed && e != Sending ==>
            TrailIs(s, Sending) && |s.attempts| == 1 && e == OutcomeOf(s.attempts[0]))
    case Calling => s.claimed && !s.resumed && TrailIs(s, Sending) && s.attempts == []
    case Ended => s.claimed
    case Checking(_) => false
  }

  ghost predicate ResumerFits(s: State) {
    match s.resumer
    case Idle => true
    case Checking(lower) => s.shelf.trail.names <= lower || !s.resumed
    case Recording(e, stage) =>
      && s.composer == Ended && StageFits(s.shelf, stage)
      && (e == Sending ==> TrailIs(s, Throttled) && AllDeferred(s.attempts))
      && (e != Sending ==> TrailIs(s, Sending) && |s.attempts| > 0 && AllButLastDeferred(s.attempts)
                           && e == OutcomeOf(s.attempts[|s.attempts| - 1]))
    case Calling => s.composer == Ended && TrailIs(s, Sending) && AllDeferred(s.attempts)
    case Ended => false
  }

  /** A throttle at the end of the trail is the recorded outcome of the last attempt. */
  ghost predicate TrailFits(s: State) {
    && (!s.resumed ==> forall x :: x in s.shelf.trail.names && x.Numbered? && x.event == Throttled ==>
         x == s.shelf.trail.Newest())
    && (TrailIs(s, Throttled) ==> AllDeferred(s.attempts) && s.composer == Ended)
    && AllButLastDeferred(s.attempts)
  }

  ghost predicate Linked(s: State) {
    ShelfValid(s.shelf) && ComposerFits(s) && ResumerFits(s) && TrailFits(s)
  }

  /** What the receipts say the platform did, it did. */
  ghost predicate Told(s: State) {
    && ReceiptsTell(s.shelf.files, s.attempts)
    && (HasEvent(s.shelf.files, Refused) ==> LastWas(s.attempts, Declined))
    && (HasEvent(s.shelf.files, Ambiguous) ==> LastWas(s.attempts, Unknown))
  }

  ghost predicate Inv(s: State) {
    Linked(s) && Told(s)
  }

  lemma ClaimKeepsLinks(s: State)
    requires Linked(s) && Enabled(s, Claim)
    ensures Linked(Apply(s, Claim))
  {
    FreshListingFits(s.shelf);
  }

  lemma LockKeepsLinks(s: State)
    requires Linked(s) && Enabled(s, TakeLock)
    ensures Linked(Apply(s, TakeLock))
  {
  }

  lemma FindThrottledKeepsLinks(s: State, l: Dir)
    requires Linked(s) && Enabled(s, FindThrottled(l))
    ensures Linked(Apply(s, FindThrottled(l)))
  {
    var n :| Numbered(n, Throttled) in l && Tops(l, n);
    assert Numbered(n, Throttled) in s.shelf.trail.names;
    if s.shelf.trail.names <= s.resumer.lower {
      NewestIsLast(s.shelf.trail, l, s.shelf.files, Throttled);
    }
    FreshListingFits(s.shelf);
  }

  lemma CountKeepsLinks(s: State, role: Role, l: Dir)
    requires Linked(s) && Enabled(s, Count(role, l))
    ensures Linked(Apply(s, Count(role, l)))
  {
    ListingNumber(s.shelf.trail, WriterOf(s, role).stage.lower, l, s.shelf.files);
  }

  lemma ComposerCreateKeepsLinks(s: State)
    requires Linked(s) && Enabled(s, Create(Composer))
    ensures Linked(Apply(s, Create(Composer)))
  {
    RecordKeepsShelf(s.shelf, s.composer.stage.number, s.composer.event);
  }

  lemma ResumerCreateKeepsLinks(s: State)
    requires Linked(s) && Enabled(s, Create(Resumer))
    ensures Linked(Apply(s, Create(Resumer)))
  {
    RecordKeepsShelf(s.shelf, s.resumer.stage.number, s.resumer.event);
  }

  lemma CallKeepsLinks(s: State, role: Role, a: Answer)
    requires Linked(s) && Enabled(s, Call(role, a))
    ensures Linked(Apply(s, Call(role, a)))
  {
    FreshListingFits(s.shelf);
  }

  lemma LeaveKeepsLinks(s: State, role: Role)
    requires Linked(s) && Enabled(s, Leave(role))
    ensures Linked(Apply(s, Leave(role)))
  {
  }

  lemma MeanwhileKeepsLinks(s: State, b: Background)
    requires Linked(s) && Enabled(s, Meanwhile(b))
    ensures Linked(Apply(s, Meanwhile(b)))
  {
    hide CanHappen, Happen, ShelfValid;
    BackgroundKeepsShelf(s.shelf, b);
  }

  lemma StepKeepsLinks(s: State, step: Step)
    requires Linked(s) && Enabled(s, step)
    ensures Linked(Apply(s, step))
  {
    hide *;
    match step
    case Claim => ClaimKeepsLinks(s);
    case TakeLock => LockKeepsLinks(s);
    case FindThrottled(l) => FindThrottledKeepsLinks(s, l);
    case Count(role, l) => CountKeepsLinks(s, role, l);
    case Create(role) =>
      if role == Composer { ComposerCreateKeepsLinks(s); } else { ResumerCreateKeepsLinks(s); }
    case Call(role, a) => CallKeepsLinks(s, role, a);
    case Leave(role) => LeaveKeepsLinks(s, role);
    case Meanwhile(b) => MeanwhileKeepsLinks(s, b);
  }

  /** Before an attempt no receipt is terminal. */
  lemma CallKeepsTold(s: State, role: Role, a: Answer)
    requires Inv(s) && Enabled(s, Call(role, a))
    ensures Told(Apply(s, Call(role, a)))
  {
    NoneTerminal(s.shelf.trail, s.shelf.files);
    var t := Apply(s, Call(role, a));
    assert s.shelf.trail.Newest() == Numbered(s.shelf.trail.top, Sending);
    if HasEvent(s.shelf.files, Throttled) {
      var i :| 0 <= i < |s.attempts| && s.attempts[i] == Deferred;
      assert t.attempts[i] == Deferred;
    }
  }

  /** A receipt for an answer is of the last attempt. */
  lemma CreateKeepsTold(s: State, role: Role)
    requires Inv(s) && Enabled(s, Create(role))
    ensures Told(Apply(s, Create(role)))
  {
    var w := WriterOf(s, role);
    var last := |s.attempts| - 1;
    assert w.event == Throttled ==> s.attempts[last] == Deferred;
    NewReceipt(s.shelf.files, w.stage.number, w.event);
    hide HasEvent, ShelfValid;
  }

  lemma StepKeepsTold(s: State, step: Step)
    requires Inv(s) && Enabled(s, step)
    ensures Told(Apply(s, step))
  {
    match step
    case Call(role, a) => CallKeepsTold(s, role, a);
    case Create(role) => CreateKeepsTold(s, role);
    case _ =>
  }

  lemma StepKeepsInv(s: State, step: Step)
    requires Inv(s) && Enabled(s, step)
    ensures Inv(Apply(s, step))
  {
    StepKeepsTold(s, step);
    hide Linked, Told, Enabled, Apply;
    StepKeepsLinks(s, step);
  }

  lemma {:induction false} RunKeepsInv(s: State, steps: seq<Step>)
    requires Inv(s) && Legal(s, steps)
    ensures Inv(Exec(s, steps))
    decreases |steps|
  {
    if steps != [] {
      StepKeepsInv(s, steps[0]);
      RunKeepsInv(Apply(s, steps[0]), steps[1..]);
    }
  }

  /** In every run, every attempt but the last was throttled, so at most one can have arrived. */
  lemma AtMostOneDelivery(steps: seq<Step>)
    requires Legal(Init, steps)
    ensures AtMostOneDelivered(Exec(Init, steps).attempts)
  {
    RunKeepsInv(Init, steps);
  }

  /**
   In every run: "sent" is recorded only of a last attempt that was accepted, "refused" of one that was
   declined, "ambiguous" of one whose outcome is unknown, and "throttled" only if some attempt was deferred;
   of a letter that reads as unsent there was no attempt.
   */
  lemma ReceiptsAreTrue(steps: seq<Step>)
    requires Legal(Init, steps)
    ensures var s := Exec(Init, steps);
            && ReceiptsTell(s.shelf.files, s.attempts)
            && (Unsent(s.shelf.files) ==> s.attempts == [])
            && (HasEvent(s.shelf.files, Refused) ==> LastWas(s.attempts, Declined))
            && (HasEvent(s.shelf.files, Ambiguous) ==> LastWas(s.attempts, Unknown))
  {
    RunKeepsInv(Init, steps);
  }

  // ---- what an uninterrupted process records ----

  lemma {:induction false} OneMore(s: State, steps: seq<Step>, step: Step)
    requires Legal(s, steps) && Enabled(Exec(s, steps), step)
    ensures Legal(s, steps + [step]) && Exec(s, steps + [step]) == Apply(Exec(s, steps), step)
    decreases |steps|
  {
    if steps == [] {
      assert [] + [step] == [step] && [step][1..] == [];
    } else {
      OneMore(Apply(s, steps[0]), steps[1..], step);
      assert (steps + [step])[1..] == steps[1..] + [step];
    }
  }

  lemma ThreeSteps(s: State, a: Step, b: Step, c: Step)
    requires Enabled(s, a) && Enabled(Apply(s, a), b) && Enabled(Apply(Apply(s, a), b), c)
    ensures Legal(s, [a, b, c]) && Exec(s, [a, b, c]) == Apply(Apply(Apply(s, a), b), c)
  {
    var t := Apply(Apply(s, a), b);
    assert [a, b, c][1..] == [b, c] && [b, c][1..] == [c] && [c][1..] == [];
    hide Enabled, Apply;
    assert Legal(Apply(t, c), []);
    assert Legal(t, [c]) && Exec(t, [c]) == Apply(t, c);
    assert Legal(Apply(s, a), [b, c]) && Exec(Apply(s, a), [b, c]) == Apply(t, c);
  }

  lemma AnswerIsCounted(s: State, role: Role, a: Answer)
    requires WriterOf(s, role).Calling? && Bounded(s.shelf.files)
    ensures var next := Call(role, a); var count := Count(role, s.shelf.files);
            && Enabled(s, next) && Enabled(Apply(s, next), count) && Enabled(Apply(Apply(s, next), count), Create(role))
            && Apply(Apply(s, next), count)
               == WithWriter(s.(attempts := s.attempts + [a]), role,
                 Recording(OutcomeOf(a), Naming(|s.shelf.files| + 1)))
  {
    NextNumberIsNew(s.shelf.files, OutcomeOf(a));
    hide Bounded;
  }

  lemma AnswerIsCreated(s: State, role: Role, a: Answer)
    requires WriterOf(s, role).Calling? && Bounded(s.shelf.files)
    requires Enabled(Apply(s, Call(role, a)), Count(role, s.shelf.files))
    requires Enabled(Apply(Apply(s, Call(role, a)), Count(role, s.shelf.files)), Create(role))
    requires Apply(Apply(s, Call(role, a)), Count(role, s.shelf.files))
          == WithWriter(s.(attempts := s.attempts + [a]), role, Recording(OutcomeOf(a), Naming(|s.shelf.files| + 1)))
    ensures var t := Apply(Apply(Apply(s, Call(role, a)), Count(role, s.shelf.files)), Create(role));
            && t.attempts == s.attempts + [a] && WriterOf(t, role) == Done(role)
            && t.shelf.files == s.shelf.files + {Numbered(|s.shelf.files| + 1, OutcomeOf(a))}
  {
    hide Bounded, IsListing;
  }

  /**
   Wherever a process has come to its attempt: uninterrupted, it leaves just the receipt that the answer
   calls for.
   */
  lemma AnswerIsRecorded(s: State, role: Role, a: Answer)
    requires Inv(s) && WriterOf(s, role).Calling?
    ensures var steps := [Call(role, a), Count(role, s.shelf.files), Create(role)];
            && Legal(s, steps)
            && Exec(s, steps).attempts == s.attempts + [a] && Adds(s.shelf.files, Exec(s, steps).shelf.files, a)
            && WriterOf(Exec(s, steps), role) == Done(role)
  {
    var files := s.shelf.files;
    assert Bounded(files) by { hide Told, ComposerFits, ResumerFits, TrailFits; }
    assert Means(OutcomeOf(a), a);
    hide *;
    AnswerIsCounted(s, role, a);
    AnswerIsCreated(s, role, a);
    NextNumberIsNew(files, OutcomeOf(a));
    AddsOne(files, OutcomeOf(a), a);
    ThreeSteps(s, Call(role, a), Count(role, files), Create(role));
  }

  /** A composer claims the letter and says so. */
  lemma ComposerClaims() returns (steps: seq<Step>)
    ensures Legal(Init, steps)
    ensures Exec(Init, steps) == State(true, Record(EmptyShelf, 1, Composed), false, [],
              Recording(Sending, Listing({Numbered(1, Composed)})), Idle)
  {
    hide Legal, Exec;
    assert Legal(Init, []) && Exec(Init, []) == Init by { NoSteps(Init); }
    steps := [];
    OneMore(Init, steps, Claim); steps := steps + [Claim];
    OneMore(Init, steps, Count(Composer, {})); steps := steps + [Count(Composer, {})];
    OneMore(Init, steps, Create(Composer)); steps := steps + [Create(Composer)];
    assert {} + {Numbered(1, Composed)} == {Numbered(1, Composed)};
  }

  /** Uninterrupted, it comes to the attempt. */
  lemma ComposerSends() returns (steps: seq<Step>)
    ensures Legal(Init, steps)
    ensures var s := Exec(Init, steps);
            && s.claimed && s.composer == Calling && s.resumer == Idle && s.attempts == []
            && s.shelf.files == {Numbered(1, Composed), Numbered(2, Sending)}
  {
    hide Legal, Exec;
    steps := ComposerClaims();
    var one, two := {Numbered(1, Composed)}, {Numbered(1, Composed), Numbered(2, Sending)};
    assert {} + one == one && one + {Numbered(2, Sending)} == two;
    OneMore(Init, steps, Count(Composer, one)); steps := steps + [Count(Composer, one)];
    OneMore(Init, steps, Create(Composer)); steps := steps + [Create(Composer)];
  }

  lemma NoSteps(s: State)
    ensures Legal(s, []) && Exec(s, []) == s
  {
  }

  /** A letter whose newest receipt says "throttled" and that nobody holds comes to a further attempt. */
  lemma ResumerSends(s: State)
    requires Inv(s) && s.resumer == Idle && WaitsOnThrottle(s.shelf.files)
    ensures var files := s.shelf.files;
            var steps := [FindThrottled(files), Count(Resumer, files), Create(Resumer)];
            && Enabled(s, TakeLock) && Legal(Apply(s, TakeLock), steps)
            && Exec(Apply(s, TakeLock), steps).resumer == Calling
            && Exec(Apply(s, TakeLock), steps).attempts == s.attempts
            && Exec(Apply(s, TakeLock), steps).shelf.files == files + {Numbered(|files| + 1, Sending)}
  {
    var files := s.shelf.files;
    NextNumberIsNew(files, Sending);
    hide Legal, Exec, Inv, WaitsOnThrottle;
    ThreeSteps(Apply(s, TakeLock), FindThrottled(files), Count(Resumer, files), Create(Resumer));
  }
}
