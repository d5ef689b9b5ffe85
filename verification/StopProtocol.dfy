/**
 Standing down on request. A bridge holds the root's lock for one run and names the run by a fresh
 generation; a stop request names the generation it is for; an asker believes only the lock and
 what the run recorded.
 */
module StopProtocol {
  import opened Collections

  /** Where a run is, or was when it ended: it holds the lock from the start to the end of its process. */
  datatype Run = Locked | Blanked | Looping | Found | Cleared | Recorded

  datatype Answer = Stopped | NeverRead | Unconfirmed

  datatype Asker =
    | Began(since: nat)
    | FoundNobody
    | SawHeld(since: nat)                     // the lock was held when it looked, by a run or by another's look
    | Named(since: nat, generation: nat)      // and this is the generation it then read
    | Asked(since: nat, generation: nat)
    | SawFree(since: nat, generation: nat)
    | SawUnread(since: nat, generation: nat)  // the request still names the generation
    | SawGone(since: nat, generation: nat)
    | Said(since: nat, generation: nat, answer: Answer)

  /** health.json. A beat, or a conflict, says nothing of a request. */
  datatype Health = Otherwise | StoodDown(generation: nat, at: nat)

  datatype State = State(
    now: nat,
    lock: Option<nat>,                        // the run that holds it
    lockFile: Option<nat>,                    // the generation it can be read to name
    request: Option<nat>,
    health: Health,
    runs: map<nat, Run>,                      // all runs so far, by generation
    askers: map<nat, Asker>,
    asked: map<nat, nat>,                     // when a request was first written for a generation
    found: set<nat>,                          // runs that found a request for themselves
    cleared: set<nat>,                        // and removed it
    kept: set<nat>,                           // or could not remove it, and went on
    late: set<nat>,                           // a request for the run was written after it had removed one
    stood: map<nat, nat>)                     // when a run recorded standing down for a request

  const Init := State(0, None, None, None, Otherwise, map[], map[], map[], {}, {}, {}, {}, map[])

  datatype Step =
    | Tick
    | Start(g: nat)
    | Blank(g: nat)                           // the lock file is truncated
    | Name(g: nat)                            // and the generation written
    | Beat(g: nat)
    | FindRequest(g: nat)
    | ClearRequest(g: nat, works: bool)
    | Record(g: nat)
    | End(g: nat)                             // the process exits, or dies
    | Ask(pid: nat)
    | SeeNobody(pid: nat)
    | SeeHeld(pid: nat)
    | ReadName(pid: nat)
    | ReadNothing(pid: nat)
    | ClearLitter(pid: nat, works: bool)
    | Request(pid: nat)
    | SeeFree(pid: nat)
    | SeeUnread(pid: nat)
    | SeeRead(pid: nat)
    | ClearUnread(pid: nat, works: bool)
    | Conclude(pid: nat)
    | Quit(pid: nat)

  predicate WasAt(s: State, g: nat, run: Run) {
    g in s.runs && s.runs[g] == run
  }

  predicate IsAt(s: State, g: nat, run: Run) {
    s.lock == Some(g) && WasAt(s, g, run)
  }

  predicate Enabled(s: State, step: Step) {
    match step
    case Tick => true
    case Start(g) => s.lock == None && g !in s.runs
    case Blank(g) => IsAt(s, g, Locked)
    case Name(g) => IsAt(s, g, Blanked)
    case Beat(g) => IsAt(s, g, Looping)
    case FindRequest(g) => IsAt(s, g, Looping) && s.request == Some(g)
    case ClearRequest(g, _) => IsAt(s, g, Found)
    case Record(g) => IsAt(s, g, Cleared)
    case End(g) => s.lock == Some(g)
    case Ask(pid) => pid !in s.askers
    case SeeNobody(pid) => pid in s.askers && s.askers[pid].Began? && s.lock == None
    case SeeHeld(pid) => pid in s.askers && s.askers[pid].Began?
    case ReadName(pid) => pid in s.askers && s.askers[pid].SawHeld? && s.lockFile != None
    case ReadNothing(pid) => pid in s.askers && s.askers[pid].SawHeld? && s.lockFile == None
    case ClearLitter(pid, _) => pid in s.askers && s.askers[pid].FoundNobody?
    case Request(pid) => pid in s.askers && s.askers[pid].Named?
    case SeeFree(pid) => pid in s.askers && s.askers[pid].Asked? && s.lock == None
    case SeeUnread(pid) => pid in s.askers && s.askers[pid].SawFree? && s.request == Some(s.askers[pid].generation)
    case SeeRead(pid) => pid in s.askers && s.askers[pid].SawFree?     // absent, of another run, or unreadable
    case ClearUnread(pid, _) => pid in s.askers && s.askers[pid].SawUnread?
    case Conclude(pid) => pid in s.askers && s.askers[pid].SawGone?
    case Quit(pid) => pid in s.askers && !s.askers[pid].Said?
  }

  /** The evidence asked for: this generation, and not before the asker began. */
  predicate Confirms(h: Health, since: nat, generation: nat) {
    h.StoodDown? && h.generation == generation && h.at >= since
  }

  function WithAsker(s: State, pid: nat, a: Asker): State {
    s.(askers := s.askers[pid := a])
  }

  function Apply(s: State, step: Step): State
    requires Enabled(s, step)
  {
    match step
    case Tick => s.(now := s.now + 1)
    case Start(g) => s.(lock := Some(g), runs := s.runs[g := Locked])
    case Blank(g) => s.(lockFile := None, runs := s.runs[g := Blanked])
    case Name(g) => s.(lockFile := Some(g), runs := s.runs[g := Looping])
    case Beat(g) => s.(health := Otherwise)
    case FindRequest(g) => s.(found := s.found + {g}, runs := s.runs[g := Found])
    case ClearRequest(g, works) =>
      if works then s.(request := None, cleared := s.cleared + {g}, runs := s.runs[g := Cleared])
      else s.(kept := s.kept + {g}, runs := s.runs[g := Cleared])
    case Record(g) => s.(health := StoodDown(g, s.now), stood := s.stood[g := s.now], runs := s.runs[g := Recorded])
    case End(g) => s.(lock := None)
    case Ask(pid) => WithAsker(s, pid, Began(s.now))
    case SeeNobody(pid) => WithAsker(s, pid, FoundNobody)
    case SeeHeld(pid) => WithAsker(s, pid, SawHeld(s.askers[pid].since))
    case ReadName(pid) => WithAsker(s, pid, Named(s.askers[pid].since, s.lockFile.value))
    case ReadNothing(pid) => WithAsker(s, pid, FoundNobody)
    case ClearLitter(pid, works) => s.(request := if works then None else s.request, askers := s.askers - {pid})
    case Request(pid) =>
      var a := s.askers[pid];
      WithAsker(s, pid, Asked(a.since, a.generation))
        .(request := Some(a.generation),
          asked := if a.generation in s.asked then s.asked else s.asked[a.generation := s.now],
          late := if a.generation in s.cleared then s.late + {a.generation} else s.late)
    case SeeFree(pid) => WithAsker(s, pid, SawFree(s.askers[pid].since, s.askers[pid].generation))
    case SeeUnread(pid) => WithAsker(s, pid, SawUnread(s.askers[pid].since, s.askers[pid].generation))
    case SeeRead(pid) => WithAsker(s, pid, SawGone(s.askers[pid].since, s.askers[pid].generation))
    case ClearUnread(pid, works) =>
      WithAsker(s, pid, Said(s.askers[pid].since, s.askers[pid].generation, NeverRead))
        .(request := if works then None else s.request)
    case Conclude(pid) =>
      var a := s.askers[pid];
      var answer := if Confirms(s.health, a.since, a.generation) then Stopped else Unconfirmed;
      WithAsker(s, pid, Said(a.since, a.generation, answer))
    case Quit(pid) => s.(askers := s.askers - {pid})
  }

  // ---- what holds at every moment ----

  /** The lock and its file name runs. */
  ghost predicate OneRun(s: State) {
    && (s.lock.Some? ==> s.lock.value in s.runs)
    && (s.lockFile.Some? ==> s.lockFile.value in s.runs)
  }

  /** A run that has come to its loop is named. */
  ghost predicate IsNamed(s: State) {
    s.lock.Some? ==> s.lockFile == s.lock || Starting(s, s.lock.value)
  }

  predicate Starting(s: State, g: nat) {
    WasAt(s, g, Locked) || WasAt(s, g, Blanked)
  }

  /** A request, and a run that acts on one, were asked for. */
  ghost predicate AskedFor(s: State) {
    && s.asked.Keys <= s.runs.Keys && s.found <= s.asked.Keys && s.stood.Keys <= s.found
    && (s.request.Some? ==> s.request.value in s.asked)
    && (forall g :: g in s.asked ==> s.asked[g] <= s.now)
    && (forall g :: g in s.stood ==> s.asked[g] <= s.stood[g] <= s.now)
    && (s.health.StoodDown? ==> s.health.generation in s.stood && s.stood[s.health.generation] == s.health.at)
  }

  /** What became of a request that this run found. */
  ghost predicate RunTraced(s: State, g: nat) {
    && (g in s.found <==> WasAt(s, g, Found) || g in s.cleared || g in s.kept)
    && (g in s.cleared || g in s.kept <==> WasAt(s, g, Cleared) || WasAt(s, g, Recorded))
    && (g in s.stood <==> WasAt(s, g, Recorded))
  }

  ghost predicate Traced(s: State) {
    && (forall g :: RunTraced(s, g))
    && s.late <= s.cleared
    && (s.request.Some? && s.request.value in s.cleared ==> s.request.value in s.late)
  }

  ghost predicate AskerFits(s: State, a: Asker) {
    match a
    case Named(_, g) => g in s.runs
    case Asked(_, g) => g in s.asked
    case SawFree(_, g) => g in s.asked && s.lock != Some(g)
    case SawUnread(_, g) => g in s.asked && s.lock != Some(g) && (g in s.cleared ==> g in s.late)
    case SawGone(_, g) => g in s.asked && s.lock != Some(g)
    case Said(since, g, answer) =>
      && g in s.asked && s.lock != Some(g)
      && (answer == Stopped ==> g in s.stood && s.stood[g] >= since)
      && (answer == NeverRead && g in s.cleared ==> g in s.late)
    case _ => true
  }

  ghost predicate Inv(s: State) {
    OneRun(s) && IsNamed(s) && AskedFor(s) && Traced(s) && forall pid :: pid in s.askers ==> AskerFits(s, s.askers[pid])
  }

  lemma StepKeepsOneRun(s: State, step: Step)
    requires OneRun(s) && Enabled(s, step)
    ensures OneRun(Apply(s, step))
  {
    hide Confirms;
  }

  lemma StepKeepsIsNamed(s: State, step: Step)
    requires IsNamed(s) && Enabled(s, step)
    ensures IsNamed(Apply(s, step))
  {
    hide Confirms;
  }

  predicate OfRun(step: Step) {
    step.Tick? || step.Start? || step.Blank? || step.Name? || step.Beat? || step.FindRequest? || step.ClearRequest?
    || step.Record? || step.End?
  }

  lemma RunStepKeepsAskedFor(s: State, step: Step)
    requires OneRun(s) && AskedFor(s) && Traced(s) && Enabled(s, step) && OfRun(step)
    ensures AskedFor(Apply(s, step))
  {
    if step.Record? { assert RunTraced(s, step.g); }
    hide RunTraced, Confirms;
  }

  lemma StepKeepsAskedFor(s: State, step: Step)
    requires OneRun(s) && AskedFor(s) && Traced(s) && Enabled(s, step)
    requires step.Request? ==> s.askers[step.pid].generation in s.runs
    ensures AskedFor(Apply(s, step))
  {
    if OfRun(step) {
      RunStepKeepsAskedFor(s, step);
      hide AskedFor, Apply, Enabled, Traced, OneRun;
    } else {
      hide Confirms, Traced;
    }
  }

  lemma StepKeepsRunTraced(s: State, step: Step, g: nat)
    requires RunTraced(s, g) && Enabled(s, step)
    ensures RunTraced(Apply(s, step), g)
  {
    hide Confirms;
  }

  lemma StepKeepsTraced(s: State, step: Step)
    requires Traced(s) && Enabled(s, step)
    ensures Traced(Apply(s, step))
  {
    hide Confirms, RunTraced;
    forall g ensures RunTraced(Apply(s, step), g) {
      StepKeepsRunTraced(s, step, g);
    }
  }

  /** Nothing that an asker relies on is taken back. */
  lemma StepLoses(s: State, step: Step)
    requires s.asked.Keys <= s.runs.Keys && Enabled(s, step)
    ensures var t := Apply(s, step);
            && s.runs.Keys <= t.runs.Keys && s.asked.Keys <= t.asked.Keys
            && (forall g :: g in s.asked && s.lock != Some(g) ==> t.lock != Some(g))
            && (forall g :: g in s.stood && s.lock != Some(g) ==> g in t.stood && t.stood[g] == s.stood[g])
            && s.late <= t.late && (forall g :: g in t.cleared && s.lock != Some(g) ==> g in s.cleared)
  {
    hide Confirms, OneRun, AskedFor, Traced;
  }

  lemma OtherAskerFits(s: State, t: State, a: Asker)
    requires AskerFits(s, a) && s.runs.Keys <= t.runs.Keys && s.asked.Keys <= t.asked.Keys
    requires forall g :: g in s.asked && s.lock != Some(g) ==> t.lock != Some(g)
    requires forall g :: g in s.stood && s.lock != Some(g) ==> g in t.stood && t.stood[g] == s.stood[g]
    requires s.late <= t.late && (forall g :: g in t.cleared && s.lock != Some(g) ==> g in s.cleared)
    ensures AskerFits(t, a)
  {
  }

  /** The step of an asker itself. */
  lemma AskerMoves(s: State, step: Step, pid: nat)
    requires Inv(s) && Enabled(s, step) && pid in Apply(s, step).askers
    requires pid in s.askers ==> Apply(s, step).askers[pid] != s.askers[pid]
    ensures AskerFits(Apply(s, step), Apply(s, step).askers[pid])
  {
    assert pid in s.askers ==> AskerFits(s, s.askers[pid]);
  }

  lemma StepKeepsInv(s: State, step: Step)
    requires Inv(s) && Enabled(s, step)
    ensures Inv(Apply(s, step))
  {
    StepKeepsOneRun(s, step);
    StepKeepsIsNamed(s, step);
    if step.Request? { assert AskerFits(s, s.askers[step.pid]); }
    StepKeepsAskedFor(s, step);
    StepKeepsTraced(s, step);
    assert s.asked.Keys <= s.runs.Keys;
    StepLoses(s, step);
    var t := Apply(s, step);
    hide Apply, Enabled, AskedFor, OneRun, IsNamed, Traced, AskerFits;
    forall pid | pid in t.askers ensures AskerFits(t, t.askers[pid]) {
      if pid in s.askers && t.askers[pid] == s.askers[pid] {
        OtherAskerFits(s, t, s.askers[pid]);
      } else {
        AskerMoves(s, step, pid);
      }
    }
  }

  // ---- whole runs ----

  predicate Legal(s: State, steps: seq<Step>)
    decreases |steps|
  {
    steps == [] || (Enabled(s, steps[0]) && Legal(Apply(s, steps[0]), steps[1..]))
  }

  function Exec(s: State, steps: seq<Step>): State
    requires Legal(s, steps)
    decreases |steps|
  {
    if steps == [] then s else Exec(Apply(s, steps[0]), steps[1..])
  }

  lemma {:induction false} RunKeepsInv(s: State, steps: seq<Step>)
    requires Inv(s) && Legal(s, steps)
    ensures Inv(Exec(s, steps))
    decreases |steps|
  {
    if steps != [] {
      StepKeepsInv(s, steps[0]);
      RunKeepsInv(Apply(s, steps[0]), steps[1..]);
    }
  }

  /** One bridge at a time: until the run that holds the lock has ended, no other starts. */
  lemma {:induction false} HoldsLock(s: State, steps: seq<Step>, g: nat)
    requires Legal(s, steps) && s.lock == Some(g) && forall i :: 0 <= i < |steps| ==> steps[i] != End(g)
    ensures Exec(s, steps).lock == Some(g) && forall i :: 0 <= i < |steps| ==> !steps[i].Start?
    decreases |steps|
  {
    if steps != [] {
      assert steps[0] != End(g) && !steps[0].Start? && Apply(s, steps[0]).lock == Some(g);
      hide Apply, Enabled;
      assert forall i :: 0 <= i < |steps[1..]| ==> steps[1..][i] == steps[i + 1];
      HoldsLock(Apply(s, steps[0]), steps[1..], g);
      forall i | 0 <= i < |steps| ensures !steps[i].Start? {
        if i > 0 { assert !steps[1..][i - 1].Start?; }
      }
    }
  }

  /** A run that stands down as requested was itself asked to, and before it did. */
  lemma StandsDownOnlyWhenAsked(steps: seq<Step>, g: nat)
    requires Legal(Init, steps)
    ensures var t := Exec(Init, steps);
            g in t.stood ==> g in t.asked && t.asked[g] <= t.stood[g]
  {
    RunKeepsInv(Init, steps);
  }

  /** "Stopped" is true: the run that was asked recorded standing down, not before the asker began, and is gone. */
  lemma StoppedIsTrue(steps: seq<Step>, pid: nat)
    requires Legal(Init, steps)
    ensures var t := Exec(Init, steps);
            pid in t.askers && t.askers[pid].Said? && t.askers[pid].answer == Stopped ==>
              var a := t.askers[pid];
              a.generation in t.stood && t.stood[a.generation] >= a.since && t.lock != Some(a.generation)
  {
    RunKeepsInv(Init, steps);
    var t := Exec(Init, steps);
    hide Legal, OneRun, IsNamed, AskedFor, Traced, Apply, Enabled;
    if pid in t.askers {
      assert AskerFits(t, t.askers[pid]);
    }
  }

  /** A record of standing down stays until another run starts. */
  ghost predicate Stands(s: State, g: nat, at: nat) {
    s.health == StoodDown(g, at) && WasAt(s, g, Recorded) && (s.lock == None || s.lock == Some(g))
  }

  lemma {:induction false} RecordStands(s: State, steps: seq<Step>, g: nat, at: nat)
    requires Stands(s, g, at) && Legal(s, steps) && forall i :: 0 <= i < |steps| ==> !steps[i].Start?
    ensures Stands(Exec(s, steps), g, at)
    decreases |steps|
  {
    if steps != [] {
      assert !steps[0].Start?;
      hide Confirms;
      assert forall i :: 0 <= i < |steps[1..]| ==> steps[1..][i] == steps[i + 1];
      RecordStands(Apply(s, steps[0]), steps[1..], g, at);
    }
  }

  /**
   And "stopped" is printed whenever it can be: by every asker of the run that began no later than the
   run recorded standing down, and that concludes before another run starts. Anybody who began after
   the record, or asked another run, is not told so.
   */
  lemma RecordedIsTold(s: State, g: nat, steps: seq<Step>, pid: nat)
    requires Enabled(s, Record(g)) && Legal(Apply(s, Record(g)), steps)
    requires forall i :: 0 <= i < |steps| ==> !steps[i].Start?
    requires Enabled(Exec(Apply(s, Record(g)), steps), Conclude(pid))
    ensures var u := Exec(Apply(s, Record(g)), steps);
            var a := u.askers[pid];
            Apply(u, Conclude(pid)).askers[pid]
            == Said(a.since, a.generation, if a.generation == g && a.since <= s.now then Stopped else Unconfirmed)
  {
    RecordStands(Apply(s, Record(g)), steps, g, s.now);
  }

  /** "Nothing to stop" is concluded only while no run holds the lock, or while one has not named itself yet. */
  lemma NobodyWasThere(steps: seq<Step>, step: Step, pid: nat)
    requires Legal(Init, steps) && Enabled(Exec(Init, steps), step)
    requires var s, t := Exec(Init, steps), Apply(Exec(Init, steps), step);
             pid in s.askers && s.askers[pid] != FoundNobody && pid in t.askers && t.askers[pid] == FoundNobody
    ensures var s := Exec(Init, steps);
            s.lock.Some? ==> s.lockFile == None && Starting(s, s.lock.value)
  {
    RunKeepsInv(Init, steps);
    assert IsNamed(Exec(Init, steps));
    hide *;
    FindsNobody(Exec(Init, steps), step, pid);
  }

  lemma FindsNobody(s: State, step: Step, pid: nat)
    requires IsNamed(s) && Enabled(s, step) && pid in s.askers && s.askers[pid] != FoundNobody
    requires pid in Apply(s, step).askers && Apply(s, step).askers[pid] == FoundNobody
    ensures s.lock.Some? ==> s.lockFile == None && Starting(s, s.lock.value)
  {
    hide Confirms, Starting;
    assert step.SeeNobody? || step.ReadNothing?;
  }

  /** A run that never was asked to stop is not stopped by whatever requests are left over. */
  lemma LeftoversStopNobody(steps: seq<Step>, g: nat)
    requires Legal(Init, steps) && g !in Exec(Init, steps).asked
    ensures !Enabled(Exec(Init, steps), FindRequest(g)) && g !in Exec(Init, steps).found
  {
    RunKeepsInv(Init, steps);
  }

  /**
   "It never read the request" is untrue in exactly three cases: the run ended between finding the
   request and removing it, it could not remove it, or a request for it was written after it had
   removed one.
   */
  lemma NeverReadIsWrongIff(steps: seq<Step>, pid: nat)
    requires Legal(Init, steps)
    ensures var t := Exec(Init, steps);
            pid in t.askers && t.askers[pid].Said? && t.askers[pid].answer == NeverRead ==>
              var g := t.askers[pid].generation;
              g in t.found <==> WasAt(t, g, Found) || g in t.kept || g in t.late
  {
    RunKeepsInv(Init, steps);
    var t := Exec(Init, steps);
    if pid in t.askers {
      assert AskerFits(t, t.askers[pid]);
      if t.askers[pid].Said? { assert RunTraced(t, t.askers[pid].generation); }
    }
  }

  /**
   Of the three an asker can see the last two, once the run has recorded standing down: a record of
   the generation proves the message wrong. Of a run that ended between finding the request and
   removing it there is never a record.
   */
  lemma RecordRefutesNeverRead(steps: seq<Step>, pid: nat)
    requires Legal(Init, steps)
    ensures var t := Exec(Init, steps);
            pid in t.askers && t.askers[pid].Said? && t.askers[pid].answer == NeverRead ==>
              var g := t.askers[pid].generation;
              && (t.health.StoodDown? && t.health.generation == g ==> g in t.found && (g in t.kept || g in t.late))
              && (WasAt(t, g, Found) ==> g !in t.stood)
  {
    NeverReadIsWrongIff(steps, pid);
    RunKeepsInv(Init, steps);
    var t := Exec(Init, steps);
    if pid in t.askers {
      assert AskerFits(t, t.askers[pid]);
      if t.askers[pid].Said? { assert RunTraced(t, t.askers[pid].generation); }
    }
  }

  // ---- each case happens ----

  lemma {:induction false} Join(s: State, a: seq<Step>, b: seq<Step>)
    requires Legal(s, a) && Legal(Exec(s, a), b)
    ensures Legal(s, a + b) && Exec(s, a + b) == Exec(Exec(s, a), b)
    decreases |a|
  {
    if a == [] {
      assert a + b == b;
    } else {
      assert (a + b)[1..] == a[1..] + b && (a + b)[0] == a[0];
      Join(Apply(s, a[0]), a[1..], b);
    }
  }

  lemma {:induction false} OneMore(steps: seq<Step>, step: Step)
    requires Legal(Init, steps) && Enabled(Exec(Init, steps), step)
    ensures Legal(Init, steps + [step]) && Exec(Init, steps + [step]) == Apply(Exec(Init, steps), step)
  {
    hide Enabled, Apply;
    assert [step][1..] == [];
    Join(Init, steps, [step]);
  }

  lemma Nothing()
    ensures Legal(Init, []) && Exec(Init, []) == Init
  {
  }

  /** A run begins, and two askers read its generation. */
  lemma BothRead() returns (steps: seq<Step>)
    ensures Legal(Init, steps)
    ensures var t := Exec(Init, steps);
            && t == Init.(lock := Some(0), lockFile := Some(0), runs := t.runs, askers := t.askers)
            && t.runs == map[0 := Looping] && t.askers == map[1 := Named(0, 0), 2 := Named(0, 0)]
  {
    hide Legal, Exec;
    Nothing();
    OneMore([], Start(0)); steps := [] + [Start(0)];
    OneMore(steps, Blank(0)); steps := steps + [Blank(0)];
    OneMore(steps, Name(0)); steps := steps + [Name(0)];
    OneMore(steps, Ask(1)); steps := steps + [Ask(1)];
    OneMore(steps, SeeHeld(1)); steps := steps + [SeeHeld(1)];
    OneMore(steps, ReadName(1)); steps := steps + [ReadName(1)];
    OneMore(steps, Ask(2)); steps := steps + [Ask(2)];
    OneMore(steps, SeeHeld(2)); steps := steps + [SeeHeld(2)];
    OneMore(steps, ReadName(2)); steps := steps + [ReadName(2)];
  }

  /** The first asks, and the run finds the request. */
  lemma FirstIsFound() returns (steps: seq<Step>)
    ensures Legal(Init, steps)
    ensures var t := Exec(Init, steps);
            && t.now == 0 && t.lock == Some(0) && t.request == Some(0) && t.found == {0} && t.cleared == {}
            && t.stood == map[]
            && t.runs == map[0 := Found] && t.askers == map[1 := Asked(0, 0), 2 := Named(0, 0)]
  {
    hide Legal, Exec;
    steps := BothRead();
    OneMore(steps, Request(1)); steps := steps + [Request(1)];
    OneMore(steps, FindRequest(0)); steps := steps + [FindRequest(0)];
  }

  /** This asker looks at a root without a run, and at a request for the generation it asked. */
  lemma AskerSaysNeverRead(steps: seq<Step>, pid: nat) returns (more: seq<Step>)
    requires Legal(Init, steps)
    requires var s := Exec(Init, steps);
             s.lock == None && pid in s.askers && s.askers[pid] == Asked(0, 0) && s.request == Some(0)
    ensures Legal(Init, more)
    ensures var s := Exec(Init, steps); var t := Exec(Init, more);
            && t == s.(askers := t.askers, request := None)
            && pid in t.askers && t.askers[pid] == Said(0, 0, NeverRead)
  {
    hide Legal, Exec;
    OneMore(steps, SeeFree(pid)); more := steps + [SeeFree(pid)];
    OneMore(more, SeeUnread(pid)); more := more + [SeeUnread(pid)];
    OneMore(more, ClearUnread(pid, true)); more := more + [ClearUnread(pid, true)];
  }

  /** It stands down as asked. */
  lemma StandsDown() returns (steps: seq<Step>)
    ensures Legal(Init, steps)
    ensures var t := Exec(Init, steps);
            && t.now == 0 && t.lock == None && t.request == None && t.health == StoodDown(0, 0) && t.found == {0}
            && t.cleared == {0} && t.stood == map[0 := 0] && t.askers == map[1 := Asked(0, 0), 2 := Named(0, 0)]
  {
    hide Legal, Exec;
    steps := FirstIsFound();
    OneMore(steps, ClearRequest(0, true)); steps := steps + [ClearRequest(0, true)];
    OneMore(steps, Record(0)); steps := steps + [Record(0)];
    OneMore(steps, End(0)); steps := steps + [End(0)];
  }

  /** And the asker is told. */
  lemma AsksAndIsTold() returns (steps: seq<Step>)
    ensures Legal(Init, steps)
    ensures var t := Exec(Init, steps);
            && t.lock == None && t.request == None && t.stood == map[0 := 0]
            && 1 in t.askers && t.askers[1] == Said(0, 0, Stopped)
  {
    hide Legal, Exec;
    steps := StandsDown();
    OneMore(steps, SeeFree(1)); steps := steps + [SeeFree(1)];
    OneMore(steps, SeeRead(1)); steps := steps + [SeeRead(1)];
    OneMore(steps, Conclude(1)); steps := steps + [Conclude(1)];
  }

  /** The run ends between finding the request and removing it. */
  lemma DiesBeforeClearing() returns (steps: seq<Step>)
    ensures Legal(Init, steps)
    ensures var t := Exec(Init, steps);
            && 0 in t.found && WasAt(t, 0, Found)
            && 1 in t.askers && t.askers[1] == Said(0, 0, NeverRead)
  {
    hide Legal, Exec;
    steps := FirstIsFound();
    OneMore(steps, End(0)); steps := steps + [End(0)];
    steps := AskerSaysNeverRead(steps, 1);
  }

  /** The run cannot remove the request, and records standing down. */
  lemma CannotClear() returns (steps: seq<Step>)
    ensures Legal(Init, steps)
    ensures var t := Exec(Init, steps);
            && 0 in t.kept && t.health == StoodDown(0, 0)
            && 1 in t.askers && t.askers[1] == Said(0, 0, NeverRead)
  {
    hide Legal, Exec;
    steps := FirstIsFound();
    OneMore(steps, ClearRequest(0, false)); steps := steps + [ClearRequest(0, false)];
    OneMore(steps, Record(0)); steps := steps + [Record(0)];
    OneMore(steps, End(0)); steps := steps + [End(0)];
    steps := AskerSaysNeverRead(steps, 1);
  }

  /** The run stands down for the first request; then the second asker writes its own. */
  lemma AsksTooLate() returns (steps: seq<Step>)
    ensures Legal(Init, steps)
    ensures var t := Exec(Init, steps);
            && 0 in t.late && t.health == StoodDown(0, 0)
            && 2 in t.askers && t.askers[2] == Said(0, 0, NeverRead)
  {
    hide Legal, Exec;
    steps := StandsDown();
    OneMore(steps, Request(2)); steps := steps + [Request(2)];
    steps := AskerSaysNeverRead(steps, 2);
  }
}
