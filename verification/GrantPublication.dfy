/**
 Publishing one grant id: an exclusive claim, the whole contents by rename, and then a marker
 that lets readers in. The id is drawn for its one create, and nobody else knows it before that
 create is over; later commands replace the contents by rename. Commands and readers take single
 steps; the create may fail into its cleanup or die at any step.
 */
module GrantPublication {

  datatype File = Missing | Empty | Whole(text: string)

  datatype Create =
    | Waiting                                 // the id is not drawn yet
    | Checking(text: string)
    | Claiming(text: string)
    | Filling(text: string)
    | Marking(text: string)
    | Closing                                 // the last directory sync
    | Cleaning(dest: bool, marker: bool)      // which of its own files are still to be removed
    | Over

  datatype Reader =
    | Looked                                  // the marker is there
    | Measured(size: nat)                     // and the file has a size
    | Opened(size: nat, text: string)
    | Accepted(text: string)

  datatype State = State(
    dest: File,
    marker: bool,
    create: Create,
    updates: map<nat, string>,                // what each running update is about to put in place
    readers: map<nat, Reader>,
    written: set<string>,                     // every payload a command put in place
    published: set<string>,                   // those that stood beside the marker
    marked: bool,                             // the marker was made
    returned: bool)                           // the create returned its record

  const Init := State(Missing, false, Waiting, map[], map[], {}, {}, false, false)

  datatype Step =
    | Begin(text: string)
    | Pass                                    // no marker is left over
    | Claim                                   // the exclusive create of the file
    | Fill                                    // the rename of the whole payload
    | Mark                                    // the exclusive create of the marker
    | Return
    | Fail                                    // any error: the create begins its cleanup
    | Clean(works: bool)                      // one unlink of the cleanup
    | Die
    | Update(pid: nat, text: string)          // set_limits or disable: what it loaded was published
    | Replace(pid: nat)                       // its rename
    | Abandon(pid: nat)                       // it fails or dies before the rename
    | Look(reader: nat)
    | Measure(reader: nat)
    | Open(reader: nat)
    | Parse(reader: nat)
    | Leave(reader: nat)

  /** A payload is read as a record only when it is complete. */
  ghost predicate Complete(json: string -> bool, text: string) {
    json(text) && forall k :: 0 <= k < |text| ==> !json(text[..k])
  }

  function Contents(f: File): string {
    if f.Whole? then f.text else ""
  }

  function Raw(r: Reader): string
    requires r.Opened?
  {
    if r.size <= |r.text| then r.text[..r.size] else r.text
  }

  ghost predicate Enabled(json: string -> bool, s: State, step: Step) {
    match step
    case Begin(text) => s.create.Waiting? && Complete(json, text)
    case Pass => s.create.Checking? && !s.marker
    case Claim => s.create.Claiming? && s.dest == Missing
    case Fill => s.create.Filling?
    case Mark => s.create.Marking? && !s.marker
    case Return => s.create.Closing?
    case Fail => !s.create.Waiting? && !s.create.Cleaning? && !s.create.Over?
    case Clean(_) => s.create.Cleaning?
    case Die => !s.create.Waiting? && !s.create.Over?
    case Update(pid, text) => s.create.Over? && pid !in s.updates && s.marker && s.dest.Whole? && Complete(json, text)
    case Replace(pid) => pid in s.updates
    case Abandon(pid) => pid in s.updates
    case Look(r) => r !in s.readers && s.marker
    case Measure(r) => r in s.readers && s.readers[r].Looked? && s.dest != Missing
    case Open(r) => r in s.readers && s.readers[r].Measured? && s.dest != Missing
    case Parse(r) => r in s.readers && s.readers[r].Opened? && json(Raw(s.readers[r]))
    case Leave(r) => r in s.readers && !s.readers[r].Accepted?
  }

  /** What is left for the cleanup of a create that fails here. */
  function Leftovers(c: Create): Create {
    match c
    case Filling(_) => Cleaning(true, false)
    case Marking(_) => Cleaning(true, false)
    case Closing => Cleaning(true, true)
    case _ => Cleaning(false, false)
  }

  ghost function Apply(json: string -> bool, s: State, step: Step): State
    requires Enabled(json, s, step)
  {
    match step
    case Begin(text) => s.(create := Checking(text))
    case Pass => s.(create := Claiming(s.create.text))
    case Claim => s.(dest := Empty, create := Filling(s.create.text))
    case Fill =>
      s.(dest := Whole(s.create.text), create := Marking(s.create.text), written := s.written + {s.create.text})
    case Mark => s.(marker := true, create := Closing, published := s.published + {Contents(s.dest)}, marked := true)
    case Return => s.(create := Over, returned := true)
    case Fail => s.(create := Leftovers(s.create))
    case Clean(works) =>
      var c := s.create;
      if c.dest then s.(dest := if works then Missing else s.dest, create := c.(dest := false))
      else if c.marker then s.(marker := if works then false else s.marker, create := c.(marker := false))
      else s.(create := Over)
    case Die => s.(create := Over)
    case Update(pid, text) => s.(updates := s.updates[pid := text])
    case Replace(pid) =>
      var text := s.updates[pid];
      s.(dest := Whole(text), updates := s.updates - {pid}, written := s.written + {text},
         published := if s.marker then s.published + {text} else s.published)
    case Abandon(pid) => s.(updates := s.updates - {pid})
    case Look(r) => s.(readers := s.readers[r := Looked])
    case Measure(r) => s.(readers := s.readers[r := Measured(|Contents(s.dest)|)])
    case Open(r) => s.(readers := s.readers[r := Opened(s.readers[r].size, Contents(s.dest))])
    case Parse(r) => s.(readers := s.readers[r := Accepted(Raw(s.readers[r]))])
    case Leave(r) => s.(readers := s.readers - {r})
  }

  // ---- whole payloads only, however commands and readers interleave ----

  ghost predicate TextsComplete(json: string -> bool, s: State) {
    && !json("")
    && (forall t :: t in s.written ==> Complete(json, t))
    && s.published <= s.written
    && (s.dest.Whole? ==> s.dest.text in s.written)
    && (s.create.Checking? || s.create.Claiming? || s.create.Filling? || s.create.Marking? ==>
          Complete(json, s.create.text))
    && (forall p :: p in s.updates ==> Complete(json, s.updates[p]))
  }

  lemma StepKeepsTexts(json: string -> bool, s: State, step: Step)
    requires TextsComplete(json, s) && Guarded(s) && Enabled(json, s, step)
    ensures TextsComplete(json, Apply(json, s, step))
  {
  }

  lemma PrefixIsWhole(json: string -> bool, r: Reader)
    requires r.Opened? && Complete(json, r.text)
    ensures json(Raw(r)) ==> Raw(r) == r.text
  {
    if r.size < |r.text| {
      assert !json(r.text[..r.size]);
    } else {
      assert r.text[..|r.text|] == r.text;
    }
  }

  // ---- nothing is read that was not published ----

  /** What the files look like while the create is at this step. */
  ghost predicate Fits(s: State) {
    match s.create
    case Waiting => s.dest == Missing && !s.marked
    case Checking(_) => s.dest == Missing && !s.marked
    case Claiming(_) => s.dest == Missing && !s.marked
    case Filling(_) => s.dest == Empty && !s.marked
    case Marking(text) => s.dest == Whole(text) && !s.marked
    case Closing => s.dest.Whole? && s.marker
    case Cleaning(_, marker) => marker ==> s.marker
    case Over => s.returned ==> s.marker && s.dest.Whole?
  }

  /** Before the marker nobody has read anything; after it, only what was published can be read. */
  ghost predicate Guarded(s: State) {
    && Fits(s)
    && (s.returned ==> s.create.Over?)
    && (s.marker ==> s.marked)
    && (!s.marked ==> s.readers == map[])
    && (s.marked ==> s.dest != Empty && (s.dest.Whole? ==> s.dest.text in s.published))
    && (s.updates != map[] ==> s.create.Over? && s.marker && s.dest.Whole?)
    && (forall r :: r in s.readers ==> Sees(s, s.readers[r]))
  }

  ghost predicate Sees(s: State, r: Reader) {
    match r
    case Opened(_, text) => text in s.published
    case Accepted(text) => text in s.published
    case _ => true
  }

  lemma StepKeepsGuarded(json: string -> bool, s: State, step: Step)
    requires TextsComplete(json, s) && Guarded(s) && Enabled(json, s, step)
    ensures Guarded(Apply(json, s, step))
  {
    if step.Parse? {
      assert Sees(s, s.readers[step.reader]);
      PrefixIsWhole(json, s.readers[step.reader]);
    }
    var t := Apply(json, s, step);
    hide Complete, TextsComplete;
    forall r | r in t.readers ensures Sees(t, t.readers[r]) {
      assert r in s.readers ==> Sees(s, s.readers[r]);
    }
  }

  // ---- whole runs ----

  ghost predicate Legal(json: string -> bool, s: State, steps: seq<Step>)
    decreases |steps|
  {
    steps == [] || (Enabled(json, s, steps[0]) && Legal(json, Apply(json, s, steps[0]), steps[1..]))
  }

  ghost function Exec(json: string -> bool, s: State, steps: seq<Step>): State
    requires Legal(json, s, steps)
    decreases |steps|
  {
    if steps == [] then s else Exec(json, Apply(json, s, steps[0]), steps[1..])
  }

  lemma {:induction false} RunKeepsGuarded(json: string -> bool, s: State, steps: seq<Step>)
    requires TextsComplete(json, s) && Guarded(s) && Legal(json, s, steps)
    ensures TextsComplete(json, Exec(json, s, steps)) && Guarded(Exec(json, s, steps))
    decreases |steps|
  {
    hide TextsComplete, Guarded, Enabled, Apply;
    if steps != [] {
      StepKeepsTexts(json, s, steps[0]);
      StepKeepsGuarded(json, s, steps[0]);
      RunKeepsGuarded(json, Apply(json, s, steps[0]), steps[1..]);
    }
  }

  /**
   However the create, updates and readers interleave, fail and die, a reader that accepts the id has
   read one whole payload that a command put in place: never the empty claim, never part of a file.
   */
  lemma AcceptsWholePayloads(json: string -> bool, steps: seq<Step>, r: nat)
    requires !json("") && Legal(json, Init, steps)
    ensures var t := Exec(json, Init, steps);
            r in t.readers && t.readers[r].Accepted? ==>
              t.readers[r].text in t.written && Complete(json, t.readers[r].text)
  {
    RunKeepsGuarded(json, Init, steps);
    var t := Exec(json, Init, steps);
    if r in t.readers && t.readers[r].Accepted? {
      assert Sees(t, t.readers[r]);
    }
  }

  /**
   In the same runs, what can be read beside the marker is published, and what a reader accepts was:
   the payload that stood whole when the create made its marker, or one that an update put beside
   it. This is so although a reader looks for the marker first and opens the file later, when a
   failing create may have taken back either.
   */
  lemma NoBorrowedMarker(json: string -> bool, steps: seq<Step>, r: nat)
    requires !json("") && Legal(json, Init, steps)
    ensures var t := Exec(json, Init, steps);
            && (t.marker && t.dest != Missing ==> t.dest.Whole? && t.dest.text in t.published)
            && (r in t.readers && t.readers[r].Accepted? ==> t.readers[r].text in t.published)
            && (t.returned ==> t.marker && t.dest.Whole?)
  {
    RunKeepsGuarded(json, Init, steps);
    var t := Exec(json, Init, steps);
    if r in t.readers && t.readers[r].Accepted? {
      assert Sees(t, t.readers[r]);
    }
  }

  // ---- a create that fails ----

  /** Whatever stands is still to be removed. */
  ghost predicate Tidying(s: State) {
    && (s.create.Cleaning? || s.create.Over?)
    && (s.dest != Missing ==> s.create.Cleaning? && s.create.dest)
    && (s.marker ==> s.create.Cleaning? && s.create.marker)
    && s.updates == map[] && !s.returned
  }

  lemma {:induction false} TidiesUp(json: string -> bool, s: State, steps: seq<Step>)
    requires Tidying(s) && Legal(json, s, steps)
    requires forall i :: 0 <= i < |steps| ==> steps[i] != Die && steps[i] != Clean(false)
    ensures Tidying(Exec(json, s, steps))
    decreases |steps|
  {
    if steps != [] {
      assert steps[0] != Die && steps[0] != Clean(false);
      assert Tidying(Apply(json, s, steps[0]));
      hide Apply, Enabled, Tidying;
      assert forall i :: 0 <= i < |steps[1..]| ==> steps[1..][i] == steps[i + 1];
      TidiesUp(json, Apply(json, s, steps[0]), steps[1..]);
    }
  }

  /**
   A create that fails, at any step, and whose unlinks work leaves neither file nor marker, whatever
   readers do meanwhile: so nothing of it is readable afterwards, and no update begins.
   */
  lemma FailureLeavesNothing(json: string -> bool, before: seq<Step>, after: seq<Step>)
    requires !json("") && Legal(json, Init, before) && Enabled(json, Exec(json, Init, before), Fail)
    requires Legal(json, Apply(json, Exec(json, Init, before), Fail), after)
    requires forall i :: 0 <= i < |after| ==> after[i] != Die && after[i] != Clean(false)
    ensures var t := Exec(json, Apply(json, Exec(json, Init, before), Fail), after);
            t.create.Over? ==> t.dest == Missing && !t.marker && !t.returned && t.updates == map[]
  {
    RunKeepsGuarded(json, Init, before);
    var s := Exec(json, Init, before);
    TidiesUp(json, Apply(json, s, Fail), after);
  }

  lemma StepSettled(json: string -> bool, s: State, step: Step)
    requires Guarded(s) && s.create.Over? && Enabled(json, s, step)
    ensures var t := Apply(json, s, step);
            && t.create.Over? && t.marker == s.marker
            && t.dest.Whole? == s.dest.Whole? && t.dest.Missing? == s.dest.Missing?
  {
  }

  /**
   Once the create is over, by its return, its cleanup or its death, it is settled for every run that
   follows whether the grant can be read. A published grant stays readable through every update that
   succeeds, fails or dies; a marker left over without its file stays shut, and so does a file left
   over without its marker.
   */
  lemma {:induction false} SettledOnceOver(json: string -> bool, s: State, steps: seq<Step>)
    requires TextsComplete(json, s) && Guarded(s) && s.create.Over? && Legal(json, s, steps)
    ensures var t := Exec(json, s, steps);
            && t.create.Over? && t.marker == s.marker
            && t.dest.Whole? == s.dest.Whole? && t.dest.Missing? == s.dest.Missing?
    decreases |steps|
  {
    hide TextsComplete, Guarded, Enabled, Apply;
    if steps != [] {
      StepKeepsTexts(json, s, steps[0]);
      StepKeepsGuarded(json, s, steps[0]);
      StepSettled(json, s, steps[0]);
      SettledOnceOver(json, Apply(json, s, steps[0]), steps[1..]);
    }
  }

  /** The same said of a run from the beginning that is cut in two. */
  lemma LeftoverStaysShut(json: string -> bool, before: seq<Step>, after: seq<Step>)
    requires !json("") && Legal(json, Init, before) && Legal(json, Exec(json, Init, before), after)
    ensures var s := Exec(json, Init, before);
            var t := Exec(json, s, after);
            s.create.Over? ==> t.marker == s.marker && t.dest.Whole? == s.dest.Whole?
  {
    RunKeepsGuarded(json, Init, before);
    var s := Exec(json, Init, before);
    if s.create.Over? {
      SettledOnceOver(json, s, after);
    }
  }

  // ---- what goes through ----

  lemma {:induction false} OneMore(json: string -> bool, s: State, steps: seq<Step>, step: Step)
    requires Legal(json, s, steps) && Enabled(json, Exec(json, s, steps), step)
    ensures Legal(json, s, steps + [step])
    ensures Exec(json, s, steps + [step]) == Apply(json, Exec(json, s, steps), step)
    decreases |steps|
  {
    hide Enabled, Apply;
    if steps == [] {
      assert [] + [step] == [step] && [step][1..] == [];
    } else {
      OneMore(json, Apply(json, s, steps[0]), steps[1..], step);
      assert (steps + [step])[1..] == steps[1..] + [step];
    }
  }

  lemma NoSteps(json: string -> bool, s: State)
    ensures Legal(json, s, []) && Exec(json, s, []) == s
  {
  }

  /** A create that nothing interrupts returns with its payload published. */
  lemma CreatePublishes(json: string -> bool, text: string) returns (steps: seq<Step>)
    requires Complete(json, text)
    ensures Legal(json, Init, steps)
    ensures Exec(json, Init, steps)
         == Init.(dest := Whole(text), marker := true, create := Over, written := {text}, published := {text},
                  marked := true, returned := true)
  {
    NoSteps(json, Init);
    hide Legal, Exec, Complete;
    steps := [];
    OneMore(json, Init, steps, Begin(text)); steps := steps + [Begin(text)];
    OneMore(json, Init, steps, Pass); steps := steps + [Pass];
    OneMore(json, Init, steps, Claim); steps := steps + [Claim];
    OneMore(json, Init, steps, Fill); steps := steps + [Fill];
    OneMore(json, Init, steps, Mark); steps := steps + [Mark];
    OneMore(json, Init, steps, Return); steps := steps + [Return];
  }

  lemma CleansOnce(json: string -> bool, s: State, steps: seq<Step>)
    requires Legal(json, s, [Fail] + steps) && Exec(json, s, [Fail] + steps).create.Cleaning?
    ensures Legal(json, s, [Fail] + (steps + [Clean(true)]))
    ensures Exec(json, s, [Fail] + (steps + [Clean(true)])) == Apply(json, Exec(json, s, [Fail] + steps), Clean(true))
  {
    hide Legal, Exec;
    OneMore(json, s, [Fail] + steps, Clean(true));
    assert [Fail] + steps + [Clean(true)] == [Fail] + (steps + [Clean(true)]);
  }

  /** A create that fails comes to the end of its cleanup. */
  lemma CleanupEnds(json: string -> bool, s: State) returns (steps: seq<Step>)
    requires Enabled(json, s, Fail)
    ensures Legal(json, s, [Fail] + steps) && Exec(json, s, [Fail] + steps).create.Over?
    ensures forall i :: 0 <= i < |steps| ==> steps[i] == Clean(true)
  {
    var c := Leftovers(s.create);
    NoSteps(json, s);
    OneMore(json, s, [], Fail);
    hide Legal, Exec;
    assert [] + [Fail] == [Fail] + [];
    steps := [];
    if c.dest { CleansOnce(json, s, steps); steps := steps + [Clean(true)]; }
    if c.marker { CleansOnce(json, s, steps); steps := steps + [Clean(true)]; }
    CleansOnce(json, s, steps); steps := steps + [Clean(true)];
  }

  /** An update of a published grant puts its payload in place. */
  lemma UpdateReplaces(json: string -> bool, s: State, pid: nat, text: string)
    requires s.create.Over? && s.marker && s.dest.Whole? && pid !in s.updates && Complete(json, text)
    ensures Legal(json, s, [Update(pid, text), Replace(pid)])
    ensures var t := Exec(json, s, [Update(pid, text), Replace(pid)]);
            t.dest == Whole(text) && t.marker && t.published == s.published + {text} && t.updates == s.updates - {pid}
  {
    NoSteps(json, s);
    OneMore(json, s, [], Update(pid, text));
    assert [] + [Update(pid, text)] == [Update(pid, text)];
    hide Legal, Exec, Complete;
    OneMore(json, s, [Update(pid, text)], Replace(pid));
    assert [Update(pid, text)] + [Replace(pid)] == [Update(pid, text), Replace(pid)];
  }

  /** And a reader that nothing interrupts accepts what stands there. */
  lemma PublishedIsAccepted(json: string -> bool, s: State, r: nat) returns (steps: seq<Step>)
    requires s.marker && s.dest.Whole? && json(s.dest.text) && r !in s.readers
    ensures Legal(json, s, steps)
    ensures Exec(json, s, steps) == s.(readers := s.readers[r := Accepted(s.dest.text)])
  {
    NoSteps(json, s);
    hide Legal, Exec;
    assert s.dest.text[..|s.dest.text|] == s.dest.text;
    steps := [];
    OneMore(json, s, steps, Look(r)); steps := steps + [Look(r)];
    OneMore(json, s, steps, Measure(r)); steps := steps + [Measure(r)];
    OneMore(json, s, steps, Open(r)); steps := steps + [Open(r)];
    OneMore(json, s, steps, Parse(r)); steps := steps + [Parse(r)];
    assert s.readers[r := Looked][r := Measured(|s.dest.text|)][r := Opened(|s.dest.text|, s.dest.text)]
             [r := Accepted(s.dest.text)] == s.readers[r := Accepted(s.dest.text)];
  }
}
