/**
 The scan behind every admission: which reservation records count against one binding's day,
 hour and queue, and which make the scan refuse.
 */
module BudgetCounts {
  import opened Collections
  import opened InitiatedProtocol
  import opened BudgetProtocol
  import opened Receipts

  /** What the record's grant id leads to. */
  datatype Grant = Unnamed | Unloadable | Key(binding: string)

  datatype StatusField = Known(status: Status) | Unheard

  /** One reservation file as the scan finds it. An absent or empty key reads as "". */
  datatype Entry =
    | Unreadable
    | Readable(id: Id, binding: Option<string>, grant: Grant, status: StatusField, day: string, hour: string,
      finished: bool)

  /** UnknownScope blocks every binding, Incomplete blocks this one. */
  datatype Verdict = UnknownScope | Incomplete | Elsewhere | Here

  predicate Settled(s: StatusField) {
    s == Known(SettledSent) || s == Known(SettledAmbiguous)
  }

  /** The binding a record is counted under: its own, or its grant's once it is settled. */
  function EffectiveKey(e: Entry): Option<string>
    requires e.Readable? && e.binding.Some?
  {
    if !e.grant.Key? || e.grant.binding == e.binding.value then e.binding
    else if Settled(e.status) then Some(e.grant.binding)
    else None
  }

  function Judge(e: Entry, binding: string, exclude: Option<Id>): Verdict {
    if e.Unreadable? || e.binding.None? || e.grant.Unloadable? then UnknownScope
    else if EffectiveKey(e) != Some(binding) || exclude == Some(e.id) then Elsewhere
    else if e.status.Unheard? then Incomplete
    else if Charged(e.status.status) && (e.day == "" || e.hour == "") then Incomplete
    else Here
  }

  predicate CountsToDay(e: Entry, binding: string, exclude: Option<Id>, day: string) {
    Judge(e, binding, exclude) == Here && Charged(e.status.status) && e.day == day
  }

  predicate CountsToHour(e: Entry, binding: string, exclude: Option<Id>, hour: string) {
    Judge(e, binding, exclude) == Here && Charged(e.status.status) && e.hour == hour
  }

  predicate CountsToQueue(e: Entry, binding: string, exclude: Option<Id>) {
    Judge(e, binding, exclude) == Here && Live(e.status.status) && !e.finished
  }

  function DayOnes(es: seq<Entry>, binding: string, exclude: Option<Id>, day: string): set<int> {
    set i | 0 <= i < |es| && CountsToDay(es[i], binding, exclude, day)
  }

  function HourOnes(es: seq<Entry>, binding: string, exclude: Option<Id>, hour: string): set<int> {
    set i | 0 <= i < |es| && CountsToHour(es[i], binding, exclude, hour)
  }

  function QueueOnes(es: seq<Entry>, binding: string, exclude: Option<Id>): set<int> {
    set i | 0 <= i < |es| && CountsToQueue(es[i], binding, exclude)
  }

  ghost predicate Holds(es: seq<Entry>, binding: string, exclude: Option<Id>, v: Verdict) {
    exists i :: 0 <= i < |es| && Judge(es[i], binding, exclude) == v
  }

  datatype Outcome = QuarantinedAll | QuarantinedBinding | Counted(day: nat, hour: nat, active: nat)

  lemma OneMoreEntry(es: seq<Entry>, n: nat, binding: string, exclude: Option<Id>, day: string, hour: string)
    requires n < |es|
    ensures DayOnes(es[..n + 1], binding, exclude, day)
         == DayOnes(es[..n], binding, exclude, day)
            + (if CountsToDay(es[n], binding, exclude, day) then {n as int} else {})
    ensures HourOnes(es[..n + 1], binding, exclude, hour)
         == HourOnes(es[..n], binding, exclude, hour)
            + (if CountsToHour(es[n], binding, exclude, hour) then {n as int} else {})
    ensures QueueOnes(es[..n + 1], binding, exclude)
         == QueueOnes(es[..n], binding, exclude) + (if CountsToQueue(es[n], binding, exclude) then {n as int} else {})
    ensures n !in DayOnes(es[..n], binding, exclude, day) && n !in HourOnes(es[..n], binding, exclude, hour)
    ensures n !in QueueOnes(es[..n], binding, exclude)
    ensures forall v :: Holds(es[..n + 1], binding, exclude, v) <==>
              Holds(es[..n], binding, exclude, v) || Judge(es[n], binding, exclude) == v
  {
    hide Judge;
    forall v
      ensures Holds(es[..n + 1], binding, exclude, v) <==>
                Holds(es[..n], binding, exclude, v) || Judge(es[n], binding, exclude) == v
    {
      if Holds(es[..n], binding, exclude, v) {
        var i :| 0 <= i < n && Judge(es[..n][i], binding, exclude) == v;
        assert es[..n + 1][i] == es[i];
      }
      assert es[..n + 1][n] == es[n];
      if Holds(es[..n + 1], binding, exclude, v) {
        var i :| 0 <= i < n + 1 && Judge(es[..n + 1][i], binding, exclude) == v;
        assert i < n ==> es[..n][i] == es[i];
      }
    }
  }

  lemma NoEntries(binding: string, exclude: Option<Id>, day: string, hour: string)
    ensures DayOnes([], binding, exclude, day) == HourOnes([], binding, exclude, hour) == {}
    ensures QueueOnes([], binding, exclude) == {}
    ensures forall v :: !Holds([], binding, exclude, v)
  {
  }

  /** counts: exact when every record can be judged, and a refusal otherwise. */
  method Counts(es: seq<Entry>, binding: string, day: string, hour: string, exclude: Option<Id>) returns (r: Outcome)
    ensures r == QuarantinedAll <==> Holds(es, binding, exclude, UnknownScope)
    ensures r == QuarantinedBinding <==>
              !Holds(es, binding, exclude, UnknownScope) && Holds(es, binding, exclude, Incomplete)
    ensures r.Counted? ==>
              && r.day == |DayOnes(es, binding, exclude, day)|
              && r.hour == |HourOnes(es, binding, exclude, hour)|
              && r.active == |QueueOnes(es, binding, exclude)|
  {
    hide DayOnes, HourOnes, QueueOnes, Holds;
    NoEntries(binding, exclude, day, hour);
    assert es[..0] == [];
    var usedDay, usedHour, active := 0, 0, 0;
    var unknownScope, scopedUnreadable := false, false;
    for n := 0 to |es|
      invariant unknownScope == Holds(es[..n], binding, exclude, UnknownScope)
      invariant scopedUnreadable == Holds(es[..n], binding, exclude, Incomplete)
      invariant usedDay == |DayOnes(es[..n], binding, exclude, day)|
      invariant usedHour == |HourOnes(es[..n], binding, exclude, hour)|
      invariant active == |QueueOnes(es[..n], binding, exclude)|
    {
      OneMoreEntry(es, n, binding, exclude, day, hour);
      var e := es[n];
      if e.Unreadable? || e.binding.None? || e.grant.Unloadable? {
        unknownScope := true;
        continue;
      }
      var effective := e.binding.value;
      if e.grant.Key? && e.grant.binding != effective {
        if !Settled(e.status) {
          continue;
        }
        effective := e.grant.binding;
      }
      if effective != binding {
        continue;
      }
      if exclude == Some(e.id) {
        continue;
      }
      if e.status.Known? && Charged(e.status.status) {
        if e.day == "" || e.hour == "" {
          scopedUnreadable := true;
          continue;
        }
        if e.day == day {
          usedDay := usedDay + 1;
        }
        if e.hour == hour {
          usedHour := usedHour + 1;
        }
      } else if e.status.Unheard? {
        scopedUnreadable := true;
        continue;
      }
      if Live(e.status.status) && !e.finished {
        active := active + 1;
      }
    }
    assert es[..|es|] == es;
    if unknownScope {
      return QuarantinedAll;
    }
    if scopedUnreadable {
      return QuarantinedBinding;
    }
    return Counted(usedDay, usedHour, active);
  }

  // ---- whose record it is ----

  /** Nobody can tell whose record this is. */
  predicate Ownerless(e: Entry) {
    e.Unreadable? || e.binding.None? || e.grant.Unloadable?
  }

  /** A record without an owner blocks every binding, and nothing else does, whoever is excluded. */
  lemma OwnerlessBlocksAll(e: Entry, binding: string, exclude: Option<Id>)
    ensures Judge(e, binding, exclude) == UnknownScope <==> Ownerless(e)
  {
  }

  /**
   A record counts under one binding at most. A grant that names the record's binding, or no grant,
   leaves it there; one that names another moves a settled record to its own, and takes any other
   record out of every count.
   */
  lemma CountsUnderOne(e: Entry, binding: string, exclude: Option<Id>)
    requires !Ownerless(e) && Judge(e, binding, exclude) != Elsewhere
    ensures forall b :: b != binding ==> Judge(e, b, exclude) == Elsewhere
    ensures e.grant == Key(e.binding.value) || e.grant.Unnamed? ==> binding == e.binding.value
    ensures e.grant.Key? && e.grant.binding != e.binding.value ==> binding == e.grant.binding && Settled(e.status)
  {
  }

  /** A settled record counts as if it named its grant's binding itself. */
  lemma SettledFollowsGrant(e: Entry, binding: string, exclude: Option<Id>)
    requires !Ownerless(e) && e.grant.Key? && Settled(e.status)
    ensures Judge(e, binding, exclude) == Judge(e.(binding := Some(e.grant.binding)), binding, exclude)
    ensures Judge(e, e.grant.binding, None) == if e.day == "" || e.hour == "" then Incomplete else Here
  {
  }

  /**
   A record without a grant, or with one of its own binding, counts there, or blocks it for lack of a
   status or window.
   */
  lemma OwnRecordCounts(e: Entry)
    requires !Ownerless(e) && (e.grant.Unnamed? || e.grant == Key(e.binding.value))
    ensures Judge(e, e.binding.value, None) == Here || Judge(e, e.binding.value, None) == Incomplete
    ensures Judge(e, e.binding.value, None) == Incomplete <==>
              e.status.Unheard? || (e.status.status != Refunded && (e.day == "" || e.hour == ""))
  {
  }

  /** Leaving one message out takes its records from every count, and nothing else. */
  lemma ExcludedAreTakenOut(es: seq<Entry>, binding: string, x: Id, day: string, hour: string)
    ensures var own := set i | 0 <= i < |es| && es[i].Readable? && es[i].id == x;
            && DayOnes(es, binding, Some(x), day) == DayOnes(es, binding, None, day) - own
            && HourOnes(es, binding, Some(x), hour) == HourOnes(es, binding, None, hour) - own
            && QueueOnes(es, binding, Some(x)) == QueueOnes(es, binding, None) - own
            && (Holds(es, binding, Some(x), UnknownScope) <==> Holds(es, binding, None, UnknownScope))
            && (Holds(es, binding, Some(x), Incomplete) <==>
                 exists i :: 0 <= i < |es| && i !in own && Judge(es[i], binding, None) == Incomplete)
  {
  }

  /** How a letter's own reservation file looks to the scan. Its grant never changes binding. */
  ghost function EntryOf(i: Id, s: State): Entry
    requires s.file.Kept?
  {
    var r := s.file.rec;
    Readable(i, Some(r.binding), Key(s.binding), Known(r.status), r.window.day, r.window.hour,
      HasTerminal(s.shelf.files))
  }

  /** The protocol reads each file as counts does. */
  lemma ProtocolReadsAsCounts(i: Id, s: State, b: string, w: Window)
    requires s.file.Kept? && BindingFits(s) && s.file.rec.window.day != "" && s.file.rec.window.hour != ""
    ensures CountsToDay(EntryOf(i, s), b, None, w.day) <==> OnDay(s, b, w.day)
    ensures CountsToHour(EntryOf(i, s), b, None, w.hour) <==> OnHour(s, b, w.hour)
    ensures CountsToQueue(EntryOf(i, s), b, None) <==> Waiting(s, b)
  {
    var e := EntryOf(i, s);
    assert EffectiveKey(e) == Some(s.binding);
  }
}
