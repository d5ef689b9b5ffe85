/**
 Many initiated letters under one quota per binding.

 There is no stored counter. An admission, or a move to a new window, holds the binding's budget
 lock, reads the reservation files one by one, and goes ahead only if what it read leaves room.
 Meanwhile every other letter goes on settling, holding and refunding its own file without that
 lock, and every process may die.
 */
module BudgetProtocol {
  import opened Receipts
  import opened InitiatedProtocol

  type Id = nat

  datatype Limits = Limits(perDay: nat, perHour: nat, maxQueued: nat)

  /** The holder of a binding's budget lock, and what it has read so far. */
  datatype Section = Section(
    owner: Id,
    window: Window,
    todo: set<Id>,          // files it has yet to read
    day: set<Id>,           // reservations it counted against the day,
    hour: set<Id>,          // the hour,
    active: set<Id>,        // and the queue
    looking: set<Id>,       // live reservations whose receipts it reads next
    granted: bool)

  datatype System = System(
    limits: map<string, Limits>,
    letters: map<Id, State>,
    sections: map<string, Section>)

  function Begin(limits: map<string, Limits>): System {
    System(limits, map[], map[])
  }

  datatype Move =
    | Appear(i: Id, binding: string)
    | Open(i: Id, window: Window)
    | ReadFile(b: string, j: Id)
    | ReadReceipts(b: string, j: Id, counted: bool)
    | Grant(b: string)
    | Fill(i: Id, step: Step)          // the granted write, after which the lock is free
    | Quit(i: Id)                      // a refusal, an exception or a crash: any lock is free
    | Own(i: Id, step: Step)           // a step that needs no budget

  predicate ChargedTo(s: State, b: string) {
    s.file.Kept? && s.file.rec.binding == b && Charged(s.file.rec.status)
  }

  predicate OnDay(s: State, b: string, day: string) {
    ChargedTo(s, b) && s.file.rec.window.day == day
  }

  predicate OnHour(s: State, b: string, hour: string) {
    ChargedTo(s, b) && s.file.rec.window.hour == hour
  }

  /** Live and without a terminal receipt. */
  ghost predicate Waiting(s: State, b: string) {
    s.file.Kept? && s.file.rec.binding == b && Live(s.file.rec.status) && !HasTerminal(s.shelf.files)
  }

  predicate Asks(s: State) {
    s.caller.Unreserved? || s.caller.Readmitting?
  }

  predicate MayWrite(s: State) {
    s.caller.Admitted? || s.caller.Filling? || s.caller.Moving?
  }

  predicate Owns(y: System, i: Id) {
    i in y.letters && y.letters[i].binding in y.sections && y.sections[y.letters[i].binding].owner == i
  }

  /** Admissions, moves and their writes go by way of the budget. */
  predicate NeedsBudget(s: State, step: Step) {
    || step.Admit? || step.FillFile? || step.WriteMove? || step.Leave?
    || (step.Readmit? && s.caller.Readmitting? && step.window != s.caller.rec.window)
  }

  ghost predicate HasRoom(limits: Limits, n: Section, newcomer: bool) {
    |n.day| < limits.perDay && |n.hour| < limits.perHour && (newcomer ==> |n.active| < limits.maxQueued)
  }

  function GrantStep(s: State, w: Window): Step {
    if s.caller.Unreserved? then Admit(w) else Readmit(w)
  }

  ghost predicate Can(y: System, m: Move) {
    match m
    case Appear(i, b) => i !in y.letters && b in y.limits
    case Open(i, w) => i in y.letters && Asks(y.letters[i]) && y.letters[i].binding !in y.sections
    case ReadFile(b, j) =>
      b in y.sections && j in y.sections[b].todo && j in y.letters && y.letters[j].file.Kept?
    case ReadReceipts(b, j, counted) =>
      b in y.sections && j in y.sections[b].looking && j in y.letters
      && (!counted ==> HasTerminal(y.letters[j].shelf.files))
    case Grant(b) =>
      && b in y.sections && b in y.limits
      && var n := y.sections[b];
      && !n.granted && n.todo == {} && n.looking == {} && n.owner in y.letters && Asks(y.letters[n.owner])
      && HasRoom(y.limits[b], n, y.letters[n.owner].caller.Unreserved?)
      && (y.letters[n.owner].caller.Readmitting? ==> n.window != y.letters[n.owner].caller.rec.window)
    case Fill(i, step) => i in y.letters && (step.FillFile? || step.WriteMove?) && Enabled(y.letters[i], step)
    case Quit(i) => i in y.letters && Enabled(y.letters[i], Leave)
    case Own(i, step) =>
      i in y.letters && Enabled(y.letters[i], step) && !NeedsBudget(y.letters[i], step)
  }

  function Unlock(y: System, i: Id): map<string, Section> {
    if Owns(y, i) then y.sections - {y.letters[i].binding} else y.sections
  }

  ghost function Stored(y: System): set<Id> {
    set j | j in y.letters && !y.letters[j].file.Absent?
  }

  function Noted(n: Section, s: State, j: Id, b: string): Section {
    n.(todo := n.todo - {j},
       day := if OnDay(s, b, n.window.day) then n.day + {j} else n.day,
       hour := if OnHour(s, b, n.window.hour) then n.hour + {j} else n.hour,
       looking := if ChargedTo(s, b) && Live(s.file.rec.status) then n.looking + {j} else n.looking)
  }

  ghost function Do(y: System, m: Move): System
    requires Can(y, m)
  {
    match m
    case Appear(i, b) => y.(letters := y.letters[i := Init(b)])
    case Open(i, w) =>
      y.(sections := y.sections[y.letters[i].binding := Section(i, w, Stored(y) - {i}, {}, {}, {}, {}, false)])
    case ReadFile(b, j) => y.(sections := y.sections[b := Noted(y.sections[b], y.letters[j], j, b)])
    case ReadReceipts(b, j, counted) =>
      y.(sections := y.sections[b := Looked(y.sections[b], j, counted)])
    case Grant(b) =>
      var n := y.sections[b];
      var s := y.letters[n.owner];
      y.(sections := y.sections[b := n.(granted := true)],
         letters := y.letters[n.owner := Apply(s, GrantStep(s, n.window))])
    case Fill(i, step) => y.(letters := y.letters[i := Apply(y.letters[i], step)], sections := Unlock(y, i))
    case Quit(i) => y.(letters := y.letters[i := Apply(y.letters[i], Leave)], sections := Unlock(y, i))
    case Own(i, step) =>
      y.(letters := y.letters[i := Apply(y.letters[i], step)],
         sections := if step.Readmit? then Unlock(y, i) else y.sections)
  }

  ghost predicate Legal(y: System, moves: seq<Move>)
    decreases |moves|
  {
    moves == [] || (Can(y, moves[0]) && Legal(Do(y, moves[0]), moves[1..]))
  }

  ghost function Exec(y: System, moves: seq<Move>): System
    requires Legal(y, moves)
    decreases |moves|
  {
    if moves == [] then y else Exec(Do(y, moves[0]), moves[1..])
  }

  // ---- the quota ----

  function DaySet(letters: map<Id, State>, b: string, day: string): set<Id> {
    set i | i in letters && OnDay(letters[i], b, day)
  }

  function HourSet(letters: map<Id, State>, b: string, hour: string): set<Id> {
    set i | i in letters && OnHour(letters[i], b, hour)
  }

  ghost function WaitSet(letters: map<Id, State>, b: string): set<Id> {
    set i | i in letters && Waiting(letters[i], b)
  }

  ghost predicate WithinQuota(y: System) {
    forall b :: b in y.limits ==>
      && (forall d :: |DaySet(y.letters, b, d)| <= y.limits[b].perDay)
      && (forall h :: |HourSet(y.letters, b, h)| <= y.limits[b].perHour)
      && |WaitSet(y.letters, b)| <= y.limits[b].maxQueued
  }

  // ---- what one letter's own steps do to the quota ----

  ghost predicate BindingFits(s: State) {
    && (s.file.Kept? ==> s.file.rec.binding == s.binding)
    && (s.caller.Admitted? || s.caller.Filling? ==> s.caller.rec.binding == s.binding)
  }

  ghost predicate Lowers(s: State, t: State) {
    && t.binding == s.binding
    && (forall b, d :: OnDay(t, b, d) ==> OnDay(s, b, d))
    && (forall b, h :: OnHour(t, b, h) ==> OnHour(s, b, h))
    && (forall b :: Waiting(t, b) ==> Waiting(s, b))
  }

  lemma TerminalStays(d: Dir, e: Dir)
    requires d <= e && HasTerminal(d)
    ensures HasTerminal(e)
  {
    var x :| x in d && x.Numbered? && Terminal(x.event);
    assert x in e;
  }

  lemma FilesOnlyGrow(s: State, step: Step)
    requires InitiatedProtocol.Inv(s) && Enabled(s, step)
    ensures s.shelf.files <= Apply(s, step).shelf.files
  {
    hide HistoryFits, CallerFits;
    if step.Meanwhile? {
      hide CanHappen, Happen, ShelfValid;
      BackgroundKeepsShelf(s.shelf, step.b);
    }
  }

  /** A step that needs no budget can only lower what its reservation uses up. */
  lemma OwnStepLowers(s: State, step: Step)
    requires InitiatedProtocol.Inv(s) && BindingFits(s) && Enabled(s, step)
    requires !step.FillFile? && !step.WriteMove?
    ensures Lowers(s, Apply(s, step)) && BindingFits(Apply(s, step))
  {
    hide ShelfValid, HistoryFits, HasTerminal;
    FilesOnlyGrow(s, step);
    if HasTerminal(s.shelf.files) {
      TerminalStays(s.shelf.files, Apply(s, step).shelf.files);
    }
  }

  /** The write the budget granted charges one binding, one day and one hour. */
  lemma FillCharges(s: State, step: Step)
    requires InitiatedProtocol.Inv(s) && BindingFits(s) && Enabled(s, step) && MayWrite(s)
    requires step.FillFile? || step.WriteMove?
    ensures var t, w := Apply(s, step), s.caller.rec.window;
            BindingFits(t) && !MayWrite(t) && Adds(s, t, w)
  {
    hide ShelfValid, HistoryFits, HasTerminal;
  }

  lemma OwnStepKeepsPlace(s: State, step: Step)
    requires Enabled(s, step) && !NeedsBudget(s, step)
    ensures if step.Readmit? then !MayWrite(Apply(s, step)) else SamePlace(s, Apply(s, step))
  {
    hide CanHappen, Happen, HasTerminal, IsListing;
  }

  // ---- what every reachable system satisfies ----

  ghost predicate LettersFit(y: System) {
    forall i :: i in y.letters ==>
      InitiatedProtocol.Inv(y.letters[i]) && BindingFits(y.letters[i]) && y.letters[i].binding in y.limits
  }

  ghost predicate OwnersFit(y: System) {
    forall i :: i in y.letters && MayWrite(y.letters[i]) ==> Owns(y, i) && y.sections[y.letters[i].binding].granted
  }

  /** Whatever the holder has not counted, and is not about to read, uses up nothing. */
  ghost predicate TallyFits(letters: map<Id, State>, b: string, n: Section) {
    forall j :: j in letters && j != n.owner ==>
      && (OnDay(letters[j], b, n.window.day) ==> j in n.day || j in n.todo)
      && (OnHour(letters[j], b, n.window.hour) ==> j in n.hour || j in n.todo)
      && (Waiting(letters[j], b) ==> j in n.active || j in n.looking || j in n.todo)
  }

  ghost predicate OwnerFits(y: System, b: string, n: Section) {
    && n.owner in y.letters && b in y.limits && y.letters[n.owner].binding == b
    && var s := y.letters[n.owner];
    if n.granted then
      MayWrite(s) && s.caller.rec.window == n.window && n.todo == {} && n.looking == {}
      && HasRoom(y.limits[b], n, !s.caller.Moving?)
    else Asks(s)
  }

  ghost predicate SectionsFit(y: System) {
    forall b :: b in y.sections ==> OwnerFits(y, b, y.sections[b]) && TallyFits(y.letters, b, y.sections[b])
  }

  ghost predicate Valid(y: System) {
    LettersFit(y) && OwnersFit(y) && SectionsFit(y) && WithinQuota(y)
  }

  lemma LoweringKeepsQuota(y: System, i: Id, t: State, sections: map<string, Section>)
    requires WithinQuota(y) && i in y.letters && Lowers(y.letters[i], t)
    ensures WithinQuota(y.(letters := y.letters[i := t], sections := sections))
  {
    hide OnDay, OnHour, Waiting;
    var letters := y.letters[i := t];
    forall b | b in y.limits
      ensures forall d :: |DaySet(letters, b, d)| <= y.limits[b].perDay
      ensures forall h :: |HourSet(letters, b, h)| <= y.limits[b].perHour
      ensures |WaitSet(letters, b)| <= y.limits[b].maxQueued
    {
      forall d ensures |DaySet(letters, b, d)| <= y.limits[b].perDay {
        SubsetSize(DaySet(letters, b, d), DaySet(y.letters, b, d));
      }
      forall h ensures |HourSet(letters, b, h)| <= y.limits[b].perHour {
        SubsetSize(HourSet(letters, b, h), HourSet(y.letters, b, h));
      }
      SubsetSize(WaitSet(letters, b), WaitSet(y.letters, b));
    }
  }

  lemma LoweringKeepsTally(letters: map<Id, State>, i: Id, t: State, b: string, n: Section)
    requires i in letters && Lowers(letters[i], t) && TallyFits(letters, b, n)
    ensures TallyFits(letters[i := t], b, n)
  {
    hide OnDay, OnHour, Waiting;
  }

  /** Only the letter's own section looks at more of it than what it uses up. */
  lemma StayingKeepsSection(y: System, i: Id, t: State, b: string)
    requires b in y.sections && OwnerFits(y, b, y.sections[b]) && TallyFits(y.letters, b, y.sections[b])
    requires i in y.letters && Lowers(y.letters[i], t)
    requires y.sections[b].owner == i ==> SamePlace(y.letters[i], t)
    ensures var z := y.(letters := y.letters[i := t]);
            OwnerFits(z, b, z.sections[b]) && TallyFits(z.letters, b, z.sections[b])
  {
    LoweringKeepsTally(y.letters, i, t, b, y.sections[b]);
    hide TallyFits, HasRoom;
  }

  /** Towards the budget, t stands where s stood. */
  ghost predicate SamePlace(s: State, t: State) {
    && (Asks(s) ==> t.caller == s.caller)
    && (MayWrite(s) <==> MayWrite(t))
    && (MayWrite(s) ==> t.caller.rec == s.caller.rec && (t.caller.Moving? <==> s.caller.Moving?))
  }

  /** A letter that stays where it stood towards the budget leaves everything valid. */
  lemma StayingKeepsValid(y: System, i: Id, t: State)
    requires Valid(y) && i in y.letters
    requires InitiatedProtocol.Inv(t) && BindingFits(t) && Lowers(y.letters[i], t) && SamePlace(y.letters[i], t)
    ensures Valid(y.(letters := y.letters[i := t]))
  {
    hide InitiatedProtocol.Inv, BindingFits, WithinQuota, TallyFits, OwnerFits, Lowers;
    var z := y.(letters := y.letters[i := t]);
    LoweringKeepsQuota(y, i, t, y.sections);
    assert t.binding == y.letters[i].binding by { SameBinding(y.letters[i], t); }
    assert SectionsFit(z) by {
      hide SamePlace;
      forall b | b in z.sections ensures OwnerFits(z, b, z.sections[b]) && TallyFits(z.letters, b, z.sections[b]) {
        StayingKeepsSection(y, i, t, b);
      }
    }
    assert LettersFit(z);
    assert OwnersFit(z);
  }

  lemma SameBinding(s: State, t: State)
    requires Lowers(s, t)
    ensures t.binding == s.binding
  {
  }

  /** A letter that gives up whatever it held leaves everything valid. */
  lemma LeavingKeepsValid(y: System, i: Id, t: State)
    requires Valid(y) && i in y.letters
    requires InitiatedProtocol.Inv(t) && BindingFits(t) && Lowers(y.letters[i], t) && !MayWrite(t)
    ensures Valid(y.(letters := y.letters[i := t], sections := Unlock(y, i)))
  {
    hide InitiatedProtocol.Inv, BindingFits, WithinQuota, TallyFits, Lowers, HasRoom;
    var z := y.(letters := y.letters[i := t], sections := Unlock(y, i));
    LoweringKeepsQuota(y, i, t, Unlock(y, i));
    assert t.binding == y.letters[i].binding by { SameBinding(y.letters[i], t); }
    assert SectionsFit(z) by {
      forall b | b in z.sections ensures OwnerFits(z, b, z.sections[b]) && TallyFits(z.letters, b, z.sections[b]) {
        assert b in y.sections && y.sections[b].owner != i && z.sections[b] == y.sections[b];
        StayingKeepsSection(y, i, t, b);
      }
    }
    assert LettersFit(z);
    assert OwnersFit(z);
  }

  lemma OwnKeepsValid(y: System, i: Id, step: Step)
    requires Valid(y) && Can(y, Own(i, step))
    ensures Valid(Do(y, Own(i, step)))
  {
    hide Enabled, Apply, InitiatedProtocol.Inv, BindingFits, OwnersFit, SectionsFit, WithinQuota, Lowers;
    var s := y.letters[i];
    OwnStepLowers(s, step);
    OwnStepKeepsPlace(s, step);
    StepKeepsInv(s, step);
    if step.Readmit? {
      LeavingKeepsValid(y, i, Apply(s, step));
    } else {
      StayingKeepsValid(y, i, Apply(s, step));
    }
  }

  lemma LeaveSettles(s: State)
    requires Enabled(s, Leave)
    ensures !MayWrite(Apply(s, Leave))
  {
  }

  lemma QuitKeepsValid(y: System, i: Id)
    requires Valid(y) && Can(y, Quit(i))
    ensures Valid(Do(y, Quit(i)))
  {
    hide Enabled, Apply, InitiatedProtocol.Inv, BindingFits, OwnersFit, SectionsFit, WithinQuota, Lowers, MayWrite;
    OwnStepLowers(y.letters[i], Leave);
    StepKeepsInv(y.letters[i], Leave);
    LeaveSettles(y.letters[i]);
    LeavingKeepsValid(y, i, Apply(y.letters[i], Leave));
  }

  /** A newcomer uses up nothing. */
  lemma NewcomerUsesNothing(y: System, i: Id, b: string)
    requires i !in y.letters && WithinQuota(y)
    ensures WithinQuota(y.(letters := y.letters[i := Init(b)]))
  {
    var letters := y.letters[i := Init(b)];
    forall c ensures WaitSet(letters, c) == WaitSet(y.letters, c) {}
    forall c, d ensures DaySet(letters, c, d) == DaySet(y.letters, c, d) {}
    forall c, h ensures HourSet(letters, c, h) == HourSet(y.letters, c, h) {}
  }

  lemma AppearKeepsSection(y: System, i: Id, b: string, c: string)
    requires i !in y.letters && c in y.sections
    requires OwnerFits(y, c, y.sections[c]) && TallyFits(y.letters, c, y.sections[c])
    ensures var z := y.(letters := y.letters[i := Init(b)]);
            OwnerFits(z, c, z.sections[c]) && TallyFits(z.letters, c, z.sections[c])
  {
    hide HasRoom, HasTerminal;
  }

  lemma AppearKeepsValid(y: System, i: Id, b: string)
    requires Valid(y) && Can(y, Appear(i, b))
    ensures Valid(Do(y, Appear(i, b)))
  {
    hide WithinQuota, TallyFits, OwnerFits, InitiatedProtocol.Inv;
    var z := Do(y, Appear(i, b));
    InitInv(b);
    NewcomerUsesNothing(y, i, b);
    assert SectionsFit(z) by {
      forall c | c in z.sections ensures OwnerFits(z, c, z.sections[c]) && TallyFits(z.letters, c, z.sections[c]) {
        AppearKeepsSection(y, i, b, c);
      }
    }
    assert LettersFit(z);
    assert OwnersFit(z);
  }

  lemma QuotaIgnoresSections(y: System, sections: map<string, Section>)
    requires WithinQuota(y)
    ensures WithinQuota(y.(sections := sections))
  {
  }

  /** Replacing one section touches nothing else. */
  lemma SectionKeepsValid(y: System, b: string, n: Section)
    requires Valid(y) && OwnerFits(y, b, n) && TallyFits(y.letters, b, n)
    requires b in y.sections ==> n.granted == y.sections[b].granted && n.owner == y.sections[b].owner
    ensures Valid(y.(sections := y.sections[b := n]))
  {
    hide WithinQuota, TallyFits, InitiatedProtocol.Inv, BindingFits, HasRoom;
    var z := y.(sections := y.sections[b := n]);
    QuotaIgnoresSections(y, z.sections);
    assert OwnersFit(z);
    assert forall c, m :: OwnerFits(y, c, m) ==> OwnerFits(z, c, m);
  }

  lemma FreshTally(y: System, i: Id, w: Window, b: string)
    ensures TallyFits(y.letters, b, Section(i, w, Stored(y) - {i}, {}, {}, {}, {}, false))
  {
    hide HasTerminal;
  }

  lemma NotedTally(letters: map<Id, State>, b: string, n: Section, j: Id)
    requires TallyFits(letters, b, n) && j in letters
    ensures TallyFits(letters, b, Noted(n, letters[j], j, b))
  {
    hide HasTerminal;
    var m := Noted(n, letters[j], j, b);
    forall k | k in letters && k != m.owner
      ensures OnDay(letters[k], b, m.window.day) ==> k in m.day || k in m.todo
      ensures OnHour(letters[k], b, m.window.hour) ==> k in m.hour || k in m.todo
      ensures Waiting(letters[k], b) ==> k in m.active || k in m.looking || k in m.todo
    {
    }
  }

  function Looked(n: Section, j: Id, counted: bool): Section {
    n.(looking := n.looking - {j}, active := if counted then n.active + {j} else n.active)
  }

  lemma LookedTally(letters: map<Id, State>, b: string, n: Section, j: Id, counted: bool)
    requires TallyFits(letters, b, n) && j in letters
    requires !counted ==> HasTerminal(letters[j].shelf.files)
    ensures TallyFits(letters, b, Looked(n, j, counted))
  {
    hide HasTerminal, OnDay, OnHour;
  }

  lemma OpenKeepsValid(y: System, i: Id, w: Window)
    requires Valid(y) && Can(y, Open(i, w))
    ensures Valid(Do(y, Open(i, w)))
  {
    hide WithinQuota, TallyFits, SectionsFit, OwnersFit, InitiatedProtocol.Inv, BindingFits;
    FreshTally(y, i, w, y.letters[i].binding);
    SectionKeepsValid(y, y.letters[i].binding, Section(i, w, Stored(y) - {i}, {}, {}, {}, {}, false));
  }

  lemma ReadFileKeepsValid(y: System, b: string, j: Id)
    requires Valid(y) && Can(y, ReadFile(b, j))
    ensures Valid(Do(y, ReadFile(b, j)))
  {
    hide WithinQuota, TallyFits, OwnersFit, LettersFit, HasRoom;
    NotedTally(y.letters, b, y.sections[b], j);
    SectionKeepsValid(y, b, Noted(y.sections[b], y.letters[j], j, b));
  }

  lemma ReadReceiptsKeepsValid(y: System, b: string, j: Id, counted: bool)
    requires Valid(y) && Can(y, ReadReceipts(b, j, counted))
    ensures Valid(Do(y, ReadReceipts(b, j, counted)))
  {
    hide WithinQuota, TallyFits, OwnersFit, LettersFit, HasRoom, HasTerminal;
    LookedTally(y.letters, b, y.sections[b], j, counted);
    SectionKeepsValid(y, b, Looked(y.sections[b], j, counted));
  }

  lemma GrantPlaces(s: State, w: Window)
    requires Asks(s) && (s.caller.Readmitting? ==> w != s.caller.rec.window)
    ensures Enabled(s, GrantStep(s, w))
    ensures var t := Apply(s, GrantStep(s, w));
            MayWrite(t) && t.caller.rec.window == w && (t.caller.Moving? <==> s.caller.Readmitting?)
  {
  }

  lemma GrantedTally(letters: map<Id, State>, b: string, n: Section, t: State)
    requires n.owner in letters && TallyFits(letters, b, n) && Lowers(letters[n.owner], t)
    ensures TallyFits(letters[n.owner := t], b, n.(granted := true))
  {
    hide OnDay, OnHour, Waiting;
  }

  /** The grant only fixes what the tally already shows, and nothing is charged yet. */
  lemma PromotionKeepsValid(y: System, b: string, t: State)
    requires Valid(y) && b in y.sections && b in y.limits
    requires var n := y.sections[b];
             n.todo == {} && n.looking == {} && !n.granted && n.owner in y.letters
             && HasRoom(y.limits[b], n, !t.caller.Moving?)
             && Lowers(y.letters[n.owner], t)
             && MayWrite(t) && t.caller.rec.window == n.window
    requires InitiatedProtocol.Inv(t) && BindingFits(t)
    ensures var n := y.sections[b];
            Valid(y.(sections := y.sections[b := n.(granted := true)], letters := y.letters[n.owner := t]))
  {
    hide WithinQuota, TallyFits, InitiatedProtocol.Inv, BindingFits, Lowers;
    var n := y.sections[b];
    var i := n.owner;
    var z := y.(sections := y.sections[b := n.(granted := true)], letters := y.letters[i := t]);
    assert OwnerFits(y, b, n) && TallyFits(y.letters, b, n);
    LoweringKeepsQuota(y, i, t, z.sections);
    assert t.binding == y.letters[i].binding by { SameBinding(y.letters[i], t); }
    assert SectionsFit(z) by {
      forall c | c in z.sections ensures OwnerFits(z, c, z.sections[c]) && TallyFits(z.letters, c, z.sections[c]) {
        if c == b {
          GrantedTally(y.letters, b, n, t);
          assert OwnerFits(z, b, n.(granted := true));
        } else {
          assert c in y.sections && z.sections[c] == y.sections[c];
          assert y.sections[c].owner != i by { assert OwnerFits(y, c, y.sections[c]); }
          StayingKeepsSection(y, i, t, c);
          assert OwnerFits(y.(letters := y.letters[i := t]), c, y.sections[c]);
          assert OwnerFits(z, c, z.sections[c]);
        }
      }
    }
    assert OwnersFit(z);
    assert LettersFit(z);
  }

  lemma GrantKeepsValid(y: System, b: string)
    requires Valid(y) && Can(y, Grant(b))
    ensures Valid(Do(y, Grant(b)))
  {
    hide WithinQuota, TallyFits, OwnersFit, SectionsFit, Enabled, Apply, InitiatedProtocol.Inv, BindingFits;
    hide HasRoom, Lowers;
    var n := y.sections[b];
    var s := y.letters[n.owner];
    GrantPlaces(s, n.window);
    OwnStepLowers(s, GrantStep(s, n.window));
    StepKeepsInv(s, GrantStep(s, n.window));
    PromotionKeepsValid(y, b, Apply(s, GrantStep(s, n.window)));
  }

  /** What t may add to the quota: one charge on its own binding, in the window it was granted. */
  ghost predicate Adds(s: State, t: State, w: Window) {
    && t.binding == s.binding
    && (forall b, d :: OnDay(t, b, d) ==> b == s.binding && d == w.day)
    && (forall b, h :: OnHour(t, b, h) ==> b == s.binding && h == w.hour)
    && (forall b :: Waiting(t, b) ==> b == s.binding)
    && (s.caller.Moving? ==> forall b :: Waiting(t, b) ==> Waiting(s, b))
  }

  lemma OneMoreFits(a: set<Id>, counted: set<Id>, i: Id, limit: nat)
    requires a - {i} <= counted && |counted| < limit
    ensures |a| <= limit
  {
    SubsetSize(a - {i}, counted);
    SubsetSize(a, (a - {i}) + {i});
  }

  /** The counted reservations left room for one more, and the write adds one. */
  lemma FillKeepsQuota(y: System, i: Id, t: State, sections: map<string, Section>)
    requires WithinQuota(y) && Owns(y, i)
    requires var n := y.sections[y.letters[i].binding];
             && TallyFits(y.letters, y.letters[i].binding, n) && n.todo == {} && n.looking == {}
             && y.letters[i].binding in y.limits
             && HasRoom(y.limits[y.letters[i].binding], n, !y.letters[i].caller.Moving?)
             && Adds(y.letters[i], t, n.window)
    ensures WithinQuota(y.(letters := y.letters[i := t], sections := sections))
  {
    hide OnDay, OnHour, Waiting;
    var b := y.letters[i].binding;
    var n := y.sections[b];
    var letters := y.letters[i := t];
    forall c | c in y.limits
      ensures forall d :: |DaySet(letters, c, d)| <= y.limits[c].perDay
      ensures forall h :: |HourSet(letters, c, h)| <= y.limits[c].perHour
      ensures |WaitSet(letters, c)| <= y.limits[c].maxQueued
    {
      forall d ensures |DaySet(letters, c, d)| <= y.limits[c].perDay {
        if c == b && d == n.window.day {
          OneMoreFits(DaySet(letters, c, d), n.day, i, y.limits[c].perDay);
        } else {
          SubsetSize(DaySet(letters, c, d), DaySet(y.letters, c, d));
        }
      }
      forall h ensures |HourSet(letters, c, h)| <= y.limits[c].perHour {
        if c == b && h == n.window.hour {
          OneMoreFits(HourSet(letters, c, h), n.hour, i, y.limits[c].perHour);
        } else {
          SubsetSize(HourSet(letters, c, h), HourSet(y.letters, c, h));
        }
      }
      if c == b && !y.letters[i].caller.Moving? {
        OneMoreFits(WaitSet(letters, c), n.active, i, y.limits[c].maxQueued);
      } else {
        SubsetSize(WaitSet(letters, c), WaitSet(y.letters, c));
      }
    }
  }

  lemma OtherTallyStays(letters: map<Id, State>, i: Id, t: State, w: Window, c: string, n: Section)
    requires i in letters && Adds(letters[i], t, w) && c != letters[i].binding && TallyFits(letters, c, n)
    ensures TallyFits(letters[i := t], c, n)
  {
    hide OnDay, OnHour, Waiting;
  }

  lemma OtherOwnerStays(y: System, i: Id, t: State, c: string, n: Section)
    requires OwnerFits(y, c, n) && n.owner != i
    ensures OwnerFits(y.(letters := y.letters[i := t], sections := Unlock(y, i)), c, n)
  {
  }

  lemma WritingKeepsValid(y: System, i: Id, t: State)
    requires Valid(y) && i in y.letters && MayWrite(y.letters[i])
    requires Adds(y.letters[i], t, y.letters[i].caller.rec.window)
    requires InitiatedProtocol.Inv(t) && BindingFits(t) && !MayWrite(t)
    ensures Valid(y.(letters := y.letters[i := t], sections := Unlock(y, i)))
  {
    hide WithinQuota, TallyFits, InitiatedProtocol.Inv, BindingFits, HasRoom;
    var z := y.(letters := y.letters[i := t], sections := Unlock(y, i));
    var b := y.letters[i].binding;
    assert Owns(y, i) && OwnerFits(y, b, y.sections[b]) && TallyFits(y.letters, b, y.sections[b]);
    FillKeepsQuota(y, i, t, z.sections);
    assert t.binding == b;
    assert SectionsFit(z) by {
      forall c | c in z.sections ensures OwnerFits(z, c, z.sections[c]) && TallyFits(z.letters, c, z.sections[c]) {
        assert c in y.sections && c != b && z.sections[c] == y.sections[c];
        assert OwnerFits(y, c, y.sections[c]);
        OtherTallyStays(y.letters, i, t, y.letters[i].caller.rec.window, c, y.sections[c]);
        OtherOwnerStays(y, i, t, c, y.sections[c]);
      }
    }
    assert OwnersFit(z);
    assert LettersFit(z);
  }

  lemma FillKeepsValid(y: System, i: Id, step: Step)
    requires Valid(y) && Can(y, Fill(i, step))
    ensures Valid(Do(y, Fill(i, step)))
  {
    hide WithinQuota, TallyFits, OwnersFit, SectionsFit, Apply, InitiatedProtocol.Inv, BindingFits, HasRoom, Adds;
    FillCharges(y.letters[i], step);
    StepKeepsInv(y.letters[i], step);
    WritingKeepsValid(y, i, Apply(y.letters[i], step));
  }

  lemma MoveKeepsValid(y: System, m: Move)
    requires Valid(y) && Can(y, m)
    ensures Valid(Do(y, m))
  {
    hide *;
    match m
    case Appear(i, b) => AppearKeepsValid(y, i, b);
    case Open(i, w) => OpenKeepsValid(y, i, w);
    case ReadFile(b, j) => ReadFileKeepsValid(y, b, j);
    case ReadReceipts(b, j, counted) => ReadReceiptsKeepsValid(y, b, j, counted);
    case Grant(b) => GrantKeepsValid(y, b);
    case Fill(i, step) => FillKeepsValid(y, i, step);
    case Quit(i) => QuitKeepsValid(y, i);
    case Own(i, step) => OwnKeepsValid(y, i, step);
  }

  lemma {:induction false} RunKeepsValid(y: System, moves: seq<Move>)
    requires Valid(y) && Legal(y, moves)
    ensures Valid(Exec(y, moves))
    decreases |moves|
  {
    if moves != [] {
      MoveKeepsValid(y, moves[0]);
      RunKeepsValid(Do(y, moves[0]), moves[1..]);
    }
  }

  /**
   In every run, no hour and no day of any binding is ever overdrawn, and no more letters wait
   than the queue allows, although no scan is atomic and settlements take no lock.
   */
  lemma QuotaHolds(limits: map<string, Limits>, moves: seq<Move>)
    requires Legal(Begin(limits), moves)
    ensures WithinQuota(Exec(Begin(limits), moves))
  {
    ValidRun(limits, moves);
  }

  lemma ValidRun(limits: map<string, Limits>, moves: seq<Move>)
    requires Legal(Begin(limits), moves)
    ensures Valid(Exec(Begin(limits), moves))
  {
    var y := Begin(limits);
    assert WithinQuota(y) by {
      forall b, d ensures DaySet(y.letters, b, d) == {} {}
      forall b, h ensures HourSet(y.letters, b, h) == {} {}
      forall b ensures WaitSet(y.letters, b) == {} {}
    }
    RunKeepsValid(y, moves);
  }

  /** The budget restrains the letters and adds nothing: each is still delivered at most once. */
  lemma EveryLetterAtMostOnce(limits: map<string, Limits>, moves: seq<Move>, i: Id)
    requires Legal(Begin(limits), moves) && i in Exec(Begin(limits), moves).letters
    ensures AtMostOneDelivered(Exec(Begin(limits), moves).letters[i].attempts)
  {
    ValidRun(limits, moves);
  }

  // ---- a scan that nothing interrupts ----

  lemma {:induction false} FirstMove(y: System, m: Move, rest: seq<Move>)
    requires Can(y, m) && Legal(Do(y, m), rest)
    ensures Legal(y, [m] + rest) && Exec(y, [m] + rest) == Exec(Do(y, m), rest)
  {
    assert ([m] + rest)[1..] == rest;
  }

  lemma {:induction false} Join(y: System, a: seq<Move>, b: seq<Move>)
    requires Legal(y, a) && Legal(Exec(y, a), b)
    ensures Legal(y, a + b) && Exec(y, a + b) == Exec(Exec(y, a), b)
    decreases |a|
  {
    hide Can, Do;
    if a == [] {
      assert a + b == b;
    } else {
      assert (a + b)[1..] == a[1..] + b && (a + b)[0] == a[0];
      Join(Do(y, a[0]), a[1..], b);
    }
  }

  lemma NoMoves(y: System)
    ensures Legal(y, []) && Exec(y, []) == y
  {
  }

  /** What is noted once these files have been read as they are. */
  function FilesRead(n: Section, letters: map<Id, State>, b: string): Section
    requires n.todo <= letters.Keys
  {
    n.(todo := {},
       day := n.day + (set j | j in n.todo && OnDay(letters[j], b, n.window.day)),
       hour := n.hour + (set j | j in n.todo && OnHour(letters[j], b, n.window.hour)),
       looking := n.looking + (set j | j in n.todo && ChargedTo(letters[j], b) && Live(letters[j].file.rec.status)))
  }

  lemma OneFileRead(n: Section, letters: map<Id, State>, b: string, j: Id)
    requires n.todo <= letters.Keys && j in n.todo
    ensures FilesRead(Noted(n, letters[j], j, b), letters, b) == FilesRead(n, letters, b)
  {
  }

  lemma {:induction false} ReadsFiles(y: System, b: string) returns (moves: seq<Move>)
    requires b in y.sections && forall j :: j in y.sections[b].todo ==> j in y.letters && y.letters[j].file.Kept?
    ensures Legal(y, moves)
    ensures Exec(y, moves) == y.(sections := y.sections[b := FilesRead(y.sections[b], y.letters, b)])
    decreases |y.sections[b].todo|
  {
    var n := y.sections[b];
    if n.todo == {} {
      NoMoves(y);
      assert FilesRead(n, y.letters, b) == n;
      return [];
    }
    var j :| j in n.todo;
    var z := Do(y, ReadFile(b, j));
    assert Can(y, ReadFile(b, j)) && z == y.(sections := y.sections[b := Noted(n, y.letters[j], j, b)]);
    OneFileRead(n, y.letters, b, j);
    hide Legal, Exec, FilesRead, OnDay, OnHour, ChargedTo;
    var rest := ReadsFiles(z, b);
    FirstMove(y, ReadFile(b, j), rest);
    moves := [ReadFile(b, j)] + rest;
    assert z.sections[b := FilesRead(n, y.letters, b)] == y.sections[b := FilesRead(n, y.letters, b)];
  }

  /** And once their receipts have. */
  ghost function ReceiptsRead(n: Section, letters: map<Id, State>): Section
    requires n.looking <= letters.Keys
  {
    n.(looking := {}, active := n.active + (set j | j in n.looking && !HasTerminal(letters[j].shelf.files)))
  }

  lemma {:induction false} ReadsReceipts(y: System, b: string) returns (moves: seq<Move>)
    requires b in y.sections && y.sections[b].looking <= y.letters.Keys
    ensures Legal(y, moves)
    ensures Exec(y, moves) == y.(sections := y.sections[b := ReceiptsRead(y.sections[b], y.letters)])
    decreases |y.sections[b].looking|
  {
    var n := y.sections[b];
    if n.looking == {} {
      NoMoves(y);
      assert ReceiptsRead(n, y.letters) == n;
      return [];
    }
    var j :| j in n.looking;
    var counted := !HasTerminal(y.letters[j].shelf.files);
    var m := ReadReceipts(b, j, counted);
    OneReceiptRead(y, b, j, counted);
    var next := Looked(n, j, counted);
    var z := y.(sections := y.sections[b := next]);
    assert |next.looking| < |n.looking| && next.looking <= y.letters.Keys;
    hide *;
    var rest := ReadsReceipts(z, b);
    FirstMove(y, m, rest);
    moves := [m] + rest;
    assert z.sections[b := ReceiptsRead(n, y.letters)] == y.sections[b := ReceiptsRead(n, y.letters)];
  }

  lemma OneReceiptRead(y: System, b: string, j: Id, counted: bool)
    requires b in y.sections && y.sections[b].looking <= y.letters.Keys && j in y.sections[b].looking
    requires counted <==> !HasTerminal(y.letters[j].shelf.files)
    ensures var m, n := ReadReceipts(b, j, counted), y.sections[b];
            && Can(y, m) && Do(y, m) == y.(sections := y.sections[b := Looked(n, j, counted)])
            && Looked(n, j, counted).looking <= y.letters.Keys
            && ReceiptsRead(Looked(n, j, counted), y.letters) == ReceiptsRead(n, y.letters)
  {
    hide HasTerminal;
  }

  /** What the holder of the lock has counted is what the others use up. */
  ghost predicate Exact(y: System, b: string, i: Id, w: Window) {
    && b in y.sections && var n := y.sections[b];
    && n.owner == i && n.window == w && n.todo == {} && n.looking == {} && !n.granted
    && n.day == DaySet(y.letters, b, w.day) - {i} && n.hour == HourSet(y.letters, b, w.hour) - {i}
    && n.active == WaitSet(y.letters, b) - {i}
  }

  /**
   A caller that finds the lock free, and every reservation readable, and that nothing interrupts, counts
   exactly what the other letters use up; and it is granted its window if and only if that leaves room:
   in the hour, in the day, and for a new letter in the queue.
   */
  lemma RoomIsGranted(y: System, i: Id, w: Window) returns (moves: seq<Move>)
    requires i in y.letters && Asks(y.letters[i]) && y.letters[i].binding !in y.sections
    requires y.letters[i].binding in y.limits
    requires y.letters[i].caller.Readmitting? ==> w != y.letters[i].caller.rec.window
    requires forall j :: j in y.letters && j != i ==> y.letters[j].file.Kept? || y.letters[j].file.Absent?
    ensures Legal(y, moves)
    ensures var z, b := Exec(y, moves), y.letters[i].binding;
            && z.letters == y.letters && z.limits == y.limits && Exact(z, b, i, w)
            && (Can(z, Grant(b)) <==>
                 && |DaySet(y.letters, b, w.day) - {i}| < y.limits[b].perDay
                 && |HourSet(y.letters, b, w.hour) - {i}| < y.limits[b].perHour
                 && (y.letters[i].caller.Unreserved? ==> |WaitSet(y.letters, b) - {i}| < y.limits[b].maxQueued))
  {
    var b := y.letters[i].binding;
    CountsAll(y, b, i, w);
    moves := Scans(y, i, w);
    var z := y.(sections := y.sections[b := ReceiptsRead(FilesRead(Fresh(y, i, w), y.letters, b), y.letters)]);
    hide *;
    GrantedIff(z, b, i, w);
  }

  /** As the lock is taken. */
  ghost function Fresh(y: System, i: Id, w: Window): Section {
    Section(i, w, Stored(y) - {i}, {}, {}, {}, {}, false)
  }

  lemma Scans(y: System, i: Id, w: Window) returns (moves: seq<Move>)
    requires i in y.letters && Asks(y.letters[i]) && y.letters[i].binding !in y.sections
    requires forall j :: j in y.letters && j != i ==> y.letters[j].file.Kept? || y.letters[j].file.Absent?
    requires FilesRead(Fresh(y, i, w), y.letters, y.letters[i].binding).looking <= y.letters.Keys
    ensures Legal(y, moves)
    ensures var b := y.letters[i].binding;
            Exec(y, moves)
            == y.(sections := y.sections[b := ReceiptsRead(FilesRead(Fresh(y, i, w), y.letters, b), y.letters)])
  {
    var b := y.letters[i].binding;
    var n := Fresh(y, i, w);
    var begun := y.(sections := y.sections[b := n]);
    Opens(y, i, w);
    assert forall j :: j in n.todo ==> j in y.letters && y.letters[j].file.Kept?;
    var files := FilesRead(n, y.letters, b);
    var last := ReceiptsRead(files, y.letters);
    hide *;
    var first := ReadsFiles(begun, b);
    var read := y.(sections := y.sections[b := files]);
    assert begun.sections[b := files] == y.sections[b := files];
    var second := ReadsReceipts(read, b);
    assert read.sections[b := last] == y.sections[b := last];
    Join(begun, first, second);
    FirstMove(y, Open(i, w), first + second);
    moves := [Open(i, w)] + (first + second);
  }

  lemma Opens(y: System, i: Id, w: Window)
    requires i in y.letters && Asks(y.letters[i]) && y.letters[i].binding !in y.sections
    ensures Can(y, Open(i, w))
    ensures Do(y, Open(i, w))
         == y.(sections := y.sections[y.letters[i].binding := Fresh(y, i, w)])
  {
  }

  lemma CountsAll(y: System, b: string, i: Id, w: Window)
    requires i in y.letters
    requires forall j :: j in y.letters && j != i ==> y.letters[j].file.Kept? || y.letters[j].file.Absent?
    ensures Fresh(y, i, w).todo <= y.letters.Keys
    ensures var files := FilesRead(Fresh(y, i, w), y.letters, b);
            && files.looking <= y.letters.Keys
            && Exact(y.(sections := y.sections[b := ReceiptsRead(files, y.letters)]), b, i, w)
  {
  }

  lemma GrantedIff(z: System, b: string, i: Id, w: Window)
    requires Exact(z, b, i, w) && i in z.letters && Asks(z.letters[i]) && b in z.limits
    requires z.letters[i].caller.Readmitting? ==> w != z.letters[i].caller.rec.window
    ensures Can(z, Grant(b)) <==>
              && |DaySet(z.letters, b, w.day) - {i}| < z.limits[b].perDay
              && |HourSet(z.letters, b, w.hour) - {i}| < z.limits[b].perHour
              && (z.letters[i].caller.Unreserved? ==> |WaitSet(z.letters, b) - {i}| < z.limits[b].maxQueued)
  {
    hide DaySet, HourSet, WaitSet;
  }
}
