/**
 The letter store of one mailbox: publishing a letter once for each platform update, while
 the agent moves letters from inbox to processed and the ledger of delivered ids is evicted
 or damaged.

 A letter is a file whose text the store prints and parses. What other processes do between
 two steps of the store is the method Others.
 */
module MailStore {
  import opened Collections
  import opened LetterFormat
  import opened ThreadStamp
  import opened Inscription

  /** A file name: the store's own carry a unique part and the token of an update. */
  datatype Name = Own(unique: nat, token: nat) | Foreign(tag: nat)

  type Folder = map<Name, string>

  /** The list of delivered ids. An absent or damaged file reads as an empty list. */
  datatype Ledger = Unreadable | Entries(ids: seq<string>)

  datatype Outcome = Failed | Duplicate | Published(name: Name)

  // ---- what holds of the letters ----

  /** This update has a letter that was published for it. */
  ghost predicate Has(whose: map<Name, string>, update: string) {
    exists n :: n in whose && whose[n] == update
  }

  ghost predicate Twice(whose: map<Name, string>, update: string) {
    exists m, n :: m in whose && n in whose && m != n && whose[m] == update == whose[n]
  }

  /**
   A letter published for an update is named with its token, and records that update or none. A
   letter that records an update was published for it.
   */
  ghost predicate Recorded(letters: Folder, whose: map<Name, string>, token: string -> nat) {
    && (forall n :: n in whose ==>
          && n in letters && n.Own? && n.token == token(whose[n]) && whose[n] != ""
          && (Origin(letters[n]) == whose[n] || Origin(letters[n]) == ""))
    && (forall n :: n in letters && Origin(letters[n]) != "" ==> n in whose)
  }

  /** An id in the ledger has a letter. */
  ghost predicate Backed(ids: seq<string>, whose: map<Name, string>) {
    forall i :: 0 <= i < |ids| ==> Has(whose, ids[i])
  }

  /** Doubled are just the updates with two letters, and of each some letter was missed once. */
  ghost predicate Counted(whose: map<Name, string>, doubled: set<string>, missed: set<Name>) {
    forall u :: (u in doubled <==> Twice(whose, u))
      && (u in doubled ==> exists n :: n in missed && n in whose && whose[n] == u)
  }

  ghost predicate Extends(a: Folder, b: Folder) {
    forall n :: n in a ==> n in b && b[n] == a[n]
  }

  /** From a to b no letter is lost or changed, and none appears that records an update. */
  ghost predicate Grown(a: Folder, b: Folder) {
    Extends(a, b) && forall n :: n in b && n !in a ==> Origin(b[n]) == ""
  }

  lemma GrownOn(a: Folder, b: Folder, c: Folder)
    requires Grown(a, b) && Grown(b, c)
    ensures Grown(a, c)
  {
    hide Origin;
  }

  /** Every letter of this update was unread or does not show it. */
  ghost predicate Missed(letters: Folder, whose: map<Name, string>, update: string, unread: set<Name>) {
    forall n :: n in whose && whose[n] == update ==> n in unread || (n in letters && Origin(letters[n]) == "")
  }

  lemma MissedSame(a: Folder, b: Folder, whose: map<Name, string>, update: string, unread: set<Name>)
    requires Grown(a, b) && whose.Keys <= a.Keys
    ensures Missed(a, whose, update, unread) <==> Missed(b, whose, update, unread)
  {
    hide Origin;
    if Missed(b, whose, update, unread) {
      forall n | n in whose && whose[n] == update ensures n in unread || (n in a && Origin(a[n]) == "") {
        assert n in a && b[n] == a[n];
      }
    }
  }

  lemma NewGrown(a: Folder, b: Folder, n: Name, text: string)
    requires Grown(a, b) && n !in b
    ensures Grown(a, b[n := text] - {n}) && n !in a
  {
    assert b[n := text] - {n} == b;
  }

  lemma GrownKeeps(a: Folder, b: Folder, whose: map<Name, string>, token: string -> nat)
    requires Grown(a, b) && Recorded(a, whose, token)
    ensures Recorded(b, whose, token) && a.Keys <= b.Keys
  {
    hide Origin;
  }

  lemma NewLetterKeeps(
      a: Folder, whose: map<Name, string>, doubled: set<string>, missed: set<Name>,
      n: Name, text: string, update: string, token: string -> nat)
    requires Recorded(a, whose, token) && Counted(whose, doubled, missed)
    requires n !in a && n.Own? && n.token == token(update) && update != ""
    requires Origin(text) == update || Origin(text) == ""
    requires forall m :: m in whose && whose[m] == update ==> m in missed
    ensures Recorded(a[n := text], whose[n := update], token) && Kept(whose, whose[n := update])
    ensures Counted(whose[n := update], doubled + if Has(whose, update) then {update} else {}, missed)
  {
    hide Origin;
    var after := whose[n := update];
    assert n !in whose;
    var now := doubled + if Has(whose, update) then {update} else {};
    forall u ensures u in now <==> Twice(after, u) {
      if Twice(whose, u) {
        var m, k :| m in whose && k in whose && m != k && whose[m] == u == whose[k];
        assert m in after && k in after && after[m] == u == after[k];
      }
      if u == update && Has(whose, u) {
        var m :| m in whose && whose[m] == u;
        assert m in after && n in after && m != n && after[m] == u == after[n];
      }
      if Twice(after, u) && !Twice(whose, u) {
        var m, k :| m in after && k in after && m != k && after[m] == u == after[k];
        assert m == n || k == n;
      }
    }
    forall u | u in now ensures exists k :: k in missed && k in after && after[k] == u {
      if u in doubled {
        var k :| k in missed && k in whose && whose[k] == u;
        assert k in after && after[k] == u;
      } else {
        var k :| k in whose && whose[k] == update;
        assert k in after && after[k] == u;
      }
    }
  }

  lemma KeptHas(a: map<Name, string>, b: map<Name, string>)
    requires Kept(a, b)
    ensures forall u :: Has(a, u) ==> Has(b, u)
    ensures forall ids :: Backed(ids, a) ==> Backed(ids, b)
  {
    forall u | Has(a, u) ensures Has(b, u) {
      var n :| n in a && a[n] == u;
      assert n in b && b[n] == u;
    }
  }

  lemma NowHas(whose: map<Name, string>, n: Name, update: string)
    ensures Has(whose[n := update], update)
  {
    assert n in whose[n := update];
  }

  lemma RewriteKeeps(a: Folder, n: Name, text: string, whose: map<Name, string>, token: string -> nat)
    requires Recorded(a, whose, token) && n in whose && (Origin(text) == whose[n] || Origin(text) == "")
    ensures Recorded(a[n := text], whose, token)
  {
    hide Origin;
  }

  function Swept(inbox: Folder, names: set<Name>): Folder {
    map n | n in inbox && n in names :: inbox[n]
  }

  /** Letters from elsewhere: files under names of their own that record no update. */
  function Arriving(arrived: Folder, letters: Folder): Folder {
    map n | n in arrived && n.Foreign? && n !in letters && Origin(arrived[n]) == "" :: arrived[n]
  }

  lemma SweepMoves(inbox: Folder, processed: Folder, names: set<Name>)
    requires inbox.Keys !! processed.Keys
    ensures (inbox - names) + (processed + Swept(inbox, names)) == inbox + processed
    ensures (inbox - names).Keys !! (processed + Swept(inbox, names)).Keys
    ensures Extends(processed, processed + Swept(inbox, names))
  {
  }

  lemma ArrivalGrows(inbox: Folder, processed: Folder, arrived: Folder)
    requires inbox.Keys !! processed.Keys
    ensures var more := Arriving(arrived, inbox + processed);
            (inbox + more).Keys !! processed.Keys && Grown(inbox + processed, (inbox + more) + processed)
  {
    hide Origin;
  }

  /** Nothing but this letter is new. */
  ghost predicate NewAt(before: Folder, now: Folder, n: Name) {
    n !in before && n in now && now == before[n := now[n]]
  }

  lemma NewIsAlone(before: Folder, now: Folder, n: Name, other: Name)
    requires NewAt(before, now, n) && other !in before && other != n
    ensures other !in now
  {
  }

  class Mailbox {
    /** The truncated digest of an update id: any function, so ids may collide. */
    const token: string -> nat
    /** A letter's id as its name spells it, and the clock. */
    const idOf: Name -> string
    const clock: nat -> string
    /** How many ids the ledger keeps. */
    const cap: nat
    /** Nothing fails here, and nobody else moves, adds or damages anything. */
    const quiet: bool

    var inbox: Folder
    var processed: Folder
    var ledger: Ledger

    /** The update each of the store's own letters was published for. */
    ghost var whose: map<Name, string>
    /** Updates with more than one letter. */
    ghost var doubled: set<string>
    /** Letters that a lookup of their update did not find: unread, or without their update in them. */
    ghost var missed: set<Name>

    ghost function Letters(): Folder
      reads `inbox, `processed
    {
      inbox + processed
    }

    ghost predicate Valid()
      reads this
    {
      && inbox.Keys !! processed.Keys
      && Recorded(Letters(), whose, token) && Counted(whose, doubled, missed)
      && (ledger.Entries? ==> Backed(ledger.ids, whose))
      && (forall n :: Plain(idOf(n)) && idOf(n) != "") && (forall t :: Plain(clock(t)))
    }

    constructor (token: string -> nat, idOf: Name -> string, clock: nat -> string, cap: nat, quiet: bool)
      requires (forall n :: Plain(idOf(n)) && idOf(n) != "") && (forall t :: Plain(clock(t)))
      ensures Valid() && inbox == map[] && processed == map[] && ledger == Unreadable
      ensures whose == map[] && doubled == {} && missed == {}
      ensures this.token == token && this.idOf == idOf && this.clock == clock && this.cap == cap && this.quiet == quiet
    {
      this.token, this.idOf, this.clock, this.cap, this.quiet := token, idOf, clock, cap, quiet;
      inbox, processed, ledger := map[], map[], Unreadable;
      whose, doubled, missed := map[], {}, {};
    }

    lemma IdIsPlain(n: Name)
      requires Valid()
      ensures Plain(idOf(n)) && idOf(n) != ""
    {
    }

    method Damage()
      requires Valid()
      modifies `ledger
      ensures Valid() && ledger == Unreadable
    {
      hide Recorded, Counted, Backed, Plain;
      ledger := Unreadable;
    }

    /** As it was. */
    twostate predicate Untouched()
      reads `inbox, `processed, `ledger
    {
      inbox == old(inbox) && processed == old(processed) && ledger == old(ledger)
    }

    /** Sweeps, letters from elsewhere, and damage to the ledger, in any number. */
    method Others()
      requires Valid()
      modifies `inbox, `processed, `ledger
      ensures Valid() && Grown(old(Letters()), Letters()) && Extends(old(processed), processed)
      ensures ledger == old(ledger) || ledger == Unreadable
      ensures quiet ==> Untouched()
    {
      hide Origin, Plain, Recorded, Counted, Backed, Grown, Extends, Swept, Arriving;
      if quiet {
        NothingGrows();
        return;
      }
      var swept: set<Name> := *;
      var arrived: Folder := *;
      SweepMoves(inbox, processed, swept);
      processed, inbox := processed + Swept(inbox, swept), inbox - swept;
      ArrivalGrows(inbox, processed, arrived);
      inbox := inbox + Arriving(arrived, inbox + processed);
      GrownKeeps(old(Letters()), Letters(), whose, token);
      if * {
        ledger := Unreadable;
      }
    }

    lemma NothingGrows()
      ensures Grown(Letters(), Letters()) && Extends(processed, processed)
    {
    }

    /** A listing is not atomic: an entry that comes or goes meanwhile may be seen or not. */
    method Glob(update: string, there: bool) returns (names: set<Name>)
      requires Valid() && update != ""
      modifies `inbox, `processed, `ledger
      ensures Valid() && Grown(old(Letters()), Letters()) && Extends(old(processed), processed)
      ensures (ledger == old(ledger) || ledger == Unreadable) && (quiet ==> Untouched())
      ensures there ==> forall n :: n in old(processed) && Origin(old(processed)[n]) == update ==> n in names
      ensures !there ==> forall n :: n in inbox && Origin(inbox[n]) == update ==> n in names
    {
      hide Origin, Plain, Counted, Backed;
      var first := set n | n in (if there then processed else inbox) && n.Own? && n.token == token(update);
      Others();
      var last := set n | n in (if there then processed else inbox) && n.Own? && n.token == token(update);
      var seen: set<Name> := *;
      names := first * last + seen * (first + last);
    }

    /** One candidate is read, if it is still there and can be, and compared with the update. */
    method Look(n: Name, update: string, there: bool, readable: bool) returns (hit: bool)
      requires update != ""
      ensures hit <==> readable && var folder := if there then processed else inbox;
                       n in folder && Origin(folder[n]) == update
    {
      var folder := if there then processed else inbox;
      if n !in folder || !readable { return false; }
      var r := ParseLetter(folder[n]);
      return r.Letter? && "source_id" in r.meta && r.meta["source_id"] == update;
    }

    /** Candidates are verified one by one; one that has moved away, or cannot be read, proves nothing. */
    method Verify(names: set<Name>, update: string, there: bool)
      returns (found: Option<Name>, ghost unread: set<Name>)
      requires Valid() && update != ""
      modifies `inbox, `processed, `ledger
      ensures Valid() && Grown(old(Letters()), Letters()) && Extends(old(processed), processed)
      ensures (ledger == old(ledger) || ledger == Unreadable) && (quiet ==> Untouched() && unread == {})
      ensures found.Some? ==> found.value in Letters() && Origin(Letters()[found.value]) == update
      ensures found.None? && !there ==>
                forall n :: n in names && n in Letters() && Origin(Letters()[n]) == update ==>
                    n in processed || n in unread
      ensures found.None? && there ==>
                forall n :: n in names && n in old(processed) && Origin(old(processed)[n]) == update ==> n in unread
    {
      hide Origin, Plain, Recorded, Counted, Backed;
      var rest := names;
      unread := {};
      while rest != {}
        invariant Valid() && Grown(old(Letters()), Letters()) && Extends(old(processed), processed)
        invariant (ledger == old(ledger) || ledger == Unreadable) && (quiet ==> Untouched() && unread == {})
        invariant !there ==>
                    forall n :: n in names - rest && n in Letters() && Origin(Letters()[n]) == update ==>
                      n in processed || n in unread
        invariant there ==>
                    forall n :: n in names - rest && n in old(processed) && Origin(old(processed)[n]) == update ==>
                      n in unread
        decreases rest
      {
        var n :| n in rest;
        rest := rest - {n};
        Others();
        var fails: bool := *;
        var readable := quiet || !fails;
        var hit := Look(n, update, there, readable);
        if hit {
          InFolder(n, there);
          return Some(n), unread;
        }
        if !readable { unread := unread + {n}; }
      }
      return None, unread;
    }

    lemma InFolder(n: Name, there: bool)
      requires inbox.Keys !! processed.Keys && n in if there then processed else inbox
      ensures n in Letters() && Letters()[n] == (if there then processed else inbox)[n]
    {
    }

    ghost method NoteMissed(update: string)
      requires Valid()
      modifies `missed
      ensures Valid() && missed == old(missed) + set n | n in whose && whose[n] == update
    {
      hide Origin, Plain, Recorded, Backed, Twice;
      missed := missed + set n | n in whose && whose[n] == update;
      assert forall u :: u in doubled ==> exists n :: n in missed && n in whose && whose[n] == u;
    }

    /** One folder: its candidates are listed, then verified. */
    method Search(update: string, there: bool) returns (found: Option<Name>, ghost unread: set<Name>)
      requires Valid() && update != ""
      modifies `inbox, `processed, `ledger
      ensures Valid() && Grown(old(Letters()), Letters()) && Extends(old(processed), processed)
      ensures (ledger == old(ledger) || ledger == Unreadable) && (quiet ==> Untouched() && unread == {})
      ensures found.Some? ==> found.value in whose && whose[found.value] == update
      ensures found.Some? ==> found.value in Letters() && Origin(Letters()[found.value]) == update
      ensures found.None? && !there ==>
                forall n :: n in Letters() && Origin(Letters()[n]) == update ==> n in processed || n in unread
      ensures found.None? && there ==>
                forall n :: n in old(processed) && Origin(old(processed)[n]) == update ==> n in unread
    {
      hide Origin, Plain, Recorded, Counted, Backed;
      var names := Glob(update, there);
      found, unread := Verify(names, update, there);
      if found.Some? { IsRecorded(found.value, update); }
    }

    /**
     Has this update a letter? Inbox is searched before processed, so a sweep hides none. The answer no
     means just that each of its letters could not be read, or does not show its update.
     */
    method FindByUpdate(update: string) returns (found: Option<Name>, ghost unread: set<Name>)
      requires Valid() && update != ""
      modifies `inbox, `processed, `ledger, `missed
      ensures Valid() && Grown(old(Letters()), Letters()) && (ledger == old(ledger) || ledger == Unreadable)
      ensures quiet ==> Untouched() && unread == {}
      ensures found.Some? ==> found.value in whose && whose[found.value] == update
      ensures found.Some? ==> missed == old(missed) && !Missed(Letters(), whose, update, unread)
      ensures found.None? ==> Missed(Letters(), whose, update, unread)
      ensures found.None? ==> missed == old(missed) + set n | n in whose && whose[n] == update
    {
      hide Origin, Plain, Recorded, Counted, Backed, Valid;
      found, unread := Search(update, false);
      if found.None? {
        ghost var first := unread;
        InProcessed(update, first);
        ghost var there := processed;
        found, unread := Search(update, true);
        unread := first + unread;
        if found.None? {
          AllMissed(update, there, unread);
          NoteMissed(update);
          return;
        }
      }
      unread := unread - {found.value};
    }

    lemma InProcessed(update: string, unread: set<Name>)
      requires Valid() && forall n :: n in Letters() && Origin(Letters()[n]) == update ==> n in processed || n in unread
      ensures forall n :: n in whose && whose[n] == update && n !in processed ==>
                n in unread || (n in Letters() && Origin(Letters()[n]) == "")
    {
      hide Origin;
    }

    lemma IsRecorded(n: Name, update: string)
      requires Valid() && update != "" && n in Letters() && Origin(Letters()[n]) == update
      ensures n in whose && whose[n] == update
    {
      hide Origin;
    }

    lemma AllMissed(update: string, there: Folder, unread: set<Name>)
      requires Valid() && Extends(there, processed)
      requires forall n :: n in whose && whose[n] == update && n !in there ==>
                 n in unread || (n in Letters() && Origin(Letters()[n]) == "")
      requires forall n :: n in there && Origin(there[n]) == update ==> n in unread
      ensures Missed(Letters(), whose, update, unread)
    {
      hide Origin;
    }

    /** The ledger lists an update that was just delivered: the newest is never cut off. */
    ghost predicate Lists(ledger: Ledger, update: string) {
      ledger.Entries? && (cap > 0 ==> update in ledger.ids)
    }

    /** It holds the newest of these ids and the update, all of them unless they are more than the cap. */
    ghost predicate Appended(ledger: Ledger, delivered: seq<string>, update: string) {
      var all := delivered + [update];
      && ledger.Entries? && |ledger.ids| <= |all| && ledger.ids == all[|all| - |ledger.ids|..]
      && (cap > 0 ==> |ledger.ids| <= cap) && (cap == 0 || |ledger.ids| < cap ==> ledger.ids == all)
    }

    /** The list is written to another file and renamed over the ledger. */
    method RecordDelivered(delivered: seq<string>, update: string) returns (ok: bool)
      requires Valid() && Backed(delivered, whose) && Has(whose, update)
      modifies `ledger
      ensures Valid()
      ensures ok ==> Lists(ledger, update) && Appended(ledger, delivered, update)
      ensures !ok ==> ledger == old(ledger) && !quiet
    {
      hide Origin, Plain, Recorded, Counted, Has;
      var fails: bool := *;
      if fails && !quiet { return false; }
      var ids := delivered + [update];
      assert ids[|ids| - 1] == update;
      ledger := Entries(if 0 < cap < |ids| then ids[|ids| - cap..] else ids);
      assert cap > 0 ==> ledger.ids[|ledger.ids| - 1] == update;
      return true;
    }

    function Printed(n: Name, fields: seq<Field>, body: string, update: string, now: nat): string {
      Serialise(Inscribed(fields, update, clock(now), idOf(n)), body)
    }

    /** The letter that this name would carry shows its update. */
    predicate Shows(n: Name, fields: seq<Field>, update: string, now: nat) {
      Legible(Inscribed(fields, update, clock(now), idOf(n)))
    }

    /** The link is the moment the letter is there; the unique part of its name is fresh. */
    method Link(n: Name, fields: seq<Field>, body: string, update: string, now: nat)
      requires Valid() && Proper(fields) && Plain(update) && update != ""
      requires n !in Letters() && n.Own? && n.token == token(update)
      requires forall m :: m in whose && whose[m] == update ==> m in missed
      modifies `inbox, `whose, `doubled
      ensures Valid() && inbox == old(inbox)[n := Printed(n, fields, body, update, now)]
      ensures Letters() == old(Letters())[n := Printed(n, fields, body, update, now)]
      ensures Origin(Letters()[n]) == if Shows(n, fields, update, now) then update else ""
      ensures whose == old(whose)[n := update] && Kept(old(whose), whose) && Has(whose, update)
      ensures doubled == old(doubled) + if Has(old(whose), update) then {update} else {}
    {
      hide Origin, Plain, Recorded, Counted, Has, Backed, Proper, Serialise, Inscribed, Legible, Kept;
      IdIsPlain(n);
      var text := Printed(n, fields, body, update, now);
      PrintedOrigin(n, fields, body, update, now);
      NewLetterKeeps(Letters(), whose, doubled, missed, n, text, update, token);
      KeptHas(whose, whose[n := update]);
      NowHas(whose, n, update);
      doubled := doubled + if Has(whose, update) then {update} else {};
      inbox := inbox[n := text];
      whose := whose[n := update];
      assert Letters() == old(Letters())[n := text];
    }

    lemma PrintedOrigin(n: Name, fields: seq<Field>, body: string, update: string, now: nat)
      requires Valid() && Proper(fields) && Plain(update)
      ensures Origin(Printed(n, fields, body, update, now)) == if Shows(n, fields, update, now) then update else ""
    {
      assert Fits(clock(now)) && Fits(idOf(n));
      hide Origin, Plain, Proper, Inscribed, Serialise, Fits;
      OriginOfPrinted(fields, body, update, clock(now), idOf(n));
    }

    method Publish(fields: seq<Field>, body: string, update: string, unique: nat, now: nat) returns (name: Option<Name>)
      requires Valid() && Proper(fields) && Plain(update) && update != ""
      requires forall m :: m in whose && whose[m] == update ==> m in missed
      modifies `inbox, `whose, `doubled
      ensures Valid()
      ensures name.None? ==> Letters() == old(Letters()) && whose == old(whose) && doubled == old(doubled)
      ensures name.None? ==> !quiet || Own(unique, token(update)) in old(Letters())
      ensures name.Some? ==> name.value == Own(unique, token(update)) && name.value in inbox
      ensures name.Some? ==> name.value !in old(Letters())
      ensures name.Some? ==> Letters() == old(Letters())[name.value := Printed(name.value, fields, body, update, now)]
      ensures name.Some? ==> whose == old(whose)[name.value := update] && Kept(old(whose), whose) && Has(whose, update)
      ensures name.Some? ==> doubled == old(doubled) + if Has(old(whose), update) then {update} else {}
    {
      hide Origin, Plain, Recorded, Counted, Has, Backed, Proper, Serialise, Inscribed, Valid, Kept;
      var n := Own(unique, token(update));
      if n in inbox || n in processed { return None; }
      var fails: bool := *;
      if fails && !quiet { return None; }
      Link(n, fields, body, update, now);
      return Some(n);
    }

    /** The lookup, and the letter and its record where it found none. */
    method Deliver(delivered: seq<string>, update: string, fields: seq<Field>, body: string, unique: nat, now: nat)
      returns (r: Outcome, ghost made: Option<Name>, ghost unread: set<Name>)
      requires Valid() && Proper(fields) && Plain(update) && update != "" && Backed(delivered, whose)
      modifies `inbox, `processed, `ledger, `whose, `doubled, `missed
      ensures Valid() && Kept(old(whose), whose) && old(missed) <= missed
      ensures made.None? ==> whose == old(whose) && doubled == old(doubled) && !r.Published?
      ensures made.None? ==> Grown(old(Letters()), Letters())
      ensures made.Some? ==>
                made.value !in old(Letters()) && made.value in Letters() && (r.Failed? || r == Published(made.value))
      ensures made.Some? ==> made.value == Own(unique, token(update))
      ensures made.Some? ==>
                whose == old(whose)[made.value := update] && Missed(old(Letters()), old(whose), update, unread)
      ensures made.Some? ==> doubled == old(doubled) + if Has(old(whose), update) then {update} else {}
      ensures made.Some? ==> Letters()[made.value] == Printed(made.value, fields, body, update, now)
      ensures made.Some? ==> Grown(old(Letters()), Letters() - {made.value})
      ensures !r.Failed? ==> Has(whose, update)
      ensures r.Duplicate? ==> !Missed(old(Letters()), old(whose), update, unread)
      ensures quiet && Own(unique, token(update)) !in old(Letters()) ==> !r.Failed? && unread == {}
      ensures quiet && made.Some? ==> made.value in inbox && NewAt(old(Letters()), Letters(), made.value)
      ensures quiet && made.None? ==> Letters() == old(Letters())
      ensures !r.Failed? ==> Lists(ledger, update) && Appended(ledger, delivered, update)
    {
      hide Origin, Plain, Recorded, Counted, Proper, Printed, Missed, Has, Grown, Backed, Valid, Kept, Appended;
      var found;
      LettersOf();
      found, unread := FindByUpdate(update);
      MissedSame(old(Letters()), Letters(), whose, update, unread);
      KeptHas(whose, whose) by { SameKept(whose); }
      made := None;
      if found.Some? {
        NowFound(found.value, update);
        var ok := RecordDelivered(delivered, update);
        return if ok then Duplicate else Failed, None, unread;
      }
      ghost var there := Letters();
      var name := Publish(fields, body, update, unique, now);
      if name.None? { return Failed, None, unread; }
      NewGrown(old(Letters()), there, name.value, Printed(name.value, fields, body, update, now));
      KeptHas(old(whose), whose);
      var ok := RecordDelivered(delivered, update);
      return if ok then Published(name.value) else Failed, name, unread;
    }

    lemma LettersOf()
      requires Valid()
      ensures whose.Keys <= Letters().Keys && Kept(whose, whose)
    {
    }

    lemma NowFound(n: Name, update: string)
      requires n in whose && whose[n] == update
      ensures Has(whose, update)
    {
    }

    /**
     Publishes unless the update has a letter. However the ledger was evicted or damaged, a call that
     does not fail leaves the update with a letter, and it publishes one exactly when the ledger did not
     name the update and every letter the update has was unread or does not show it. A second letter
     is just what is published for an update that has one.
     */
    method PublishOnce(update: string, fields: seq<Field>, body: string, unique: nat, now: nat)
      returns (r: Outcome, ghost made: Option<Name>, ghost named: bool, ghost unread: set<Name>)
      requires Valid() && Proper(fields) && Plain(update) && update != ""
      modifies `inbox, `processed, `ledger, `whose, `doubled, `missed
      ensures Valid() && Kept(old(whose), whose) && old(missed) <= missed
      ensures named ==> old(ledger).Entries? && update in old(ledger).ids
      ensures made.None? ==> whose == old(whose) && doubled == old(doubled) && !r.Published?
      ensures made.None? ==> Grown(old(Letters()), Letters())
      ensures made.Some? ==>
                made.value !in old(Letters()) && made.value in Letters() && (r.Failed? || r == Published(made.value))
      ensures made.Some? ==> made.value == Own(unique, token(update))
      ensures made.Some? ==> whose == old(whose)[made.value := update]
      ensures made.Some? ==> !named && Missed(old(Letters()), old(whose), update, unread)
      ensures made.Some? ==> doubled == old(doubled) + if Has(old(whose), update) then {update} else {}
      ensures made.Some? ==> Letters()[made.value] == Printed(made.value, fields, body, update, now)
      ensures made.Some? ==> Grown(old(Letters()), Letters() - {made.value})
      ensures !r.Failed? ==> Has(whose, update)
      ensures !r.Failed? ==> (r.Duplicate? <==> named || !Missed(old(Letters()), old(whose), update, unread))
      ensures quiet && Own(unique, token(update)) !in old(Letters()) ==> !r.Failed? && unread == {}
      ensures quiet && made.Some? ==> made.value in inbox && NewAt(old(Letters()), Letters(), made.value)
      ensures quiet && made.None? ==> Letters() == old(Letters())
      ensures !r.Failed? ==> Lists(ledger, update)
      ensures !r.Failed? && !named ==>
                Appended(ledger, [], update) || (old(ledger).Entries? && Appended(ledger, old(ledger).ids, update))
    {
      hide Origin, Plain, Recorded, Counted, Proper, Printed, Missed, Has, Grown, Backed, Valid, Kept, Appended;
      LettersOf();
      Others();
      ghost var there := Letters();
      LettersOf();
      var delivered := if ledger.Unreadable? then [] else ledger.ids;
      DeliveredBacked(delivered);
      named := update in delivered;
      if update in delivered {
        NamedHas(delivered, update);
        return Duplicate, None, true, {};
      }
      r, made, unread := Deliver(delivered, update, fields, body, unique, now);
      MissedSame(old(Letters()), there, old(whose), update, unread);
      GrownOn(old(Letters()), there, if made.Some? then Letters() - {made.value} else Letters());
      if made.Some? { GrownHas(old(Letters()), there); }
    }

    lemma DeliveredBacked(delivered: seq<string>)
      requires Valid() && delivered == if ledger.Unreadable? then [] else ledger.ids
      ensures Backed(delivered, whose)
    {
    }

    lemma NamedHas(delivered: seq<string>, update: string)
      requires Backed(delivered, whose) && update in delivered
      ensures Has(whose, update)
    {
    }

    /** The letter of an earlier publish gets its thread; one already swept is out of reach. */
    method StampLetter(name: Name, thread: string, fields: seq<Field>, body: string, update: string, now: nat)
      returns (ok: bool)
      requires Valid() && Proper(fields) && Plain(update) && update != ""
      requires "thread" in ToMeta(fields) && Fits(thread) && thread != ""
      requires name in whose && whose[name] == update
      requires name in Letters() && Letters()[name] == Printed(name, fields, body, update, now)
      modifies `inbox, `processed, `ledger
      ensures Valid() && name in Letters() && Grown(old(Letters()), Letters()[name := old(Letters())[name]])
      ensures old(Letters()).Keys <= Letters().Keys
      ensures Origin(Letters()[name]) == "" || Origin(Letters()[name]) == update
      ensures Shows(name, fields, update, now) && !EndsInDashes(thread) ==> Origin(Letters()[name]) == update
      ensures ok && Origin(Letters()[name]) != "" ==> ThreadOf(Letters()[name]) == thread
      ensures quiet && name in old(inbox) ==> ok
    {
      hide Origin, Plain, Proper, Printed, ToMeta, ThreadOf, Grown, Valid, Fits, Legible, Inscribed, EndsInDashes;
      PrintedOrigin(name, fields, body, update, now);
      Others();
      ghost var there := Letters();
      GrownAt(old(Letters()), there, name);
      assert there[name := old(Letters())[name]] == there;
      var fails: bool := *;
      if name !in inbox || (fails && !quiet) { return false; }
      InboxFirst(name);
      Rewrite(name, thread, fields, body, update, now);
      assert Letters()[name := there[name]] == there;
      return true;
    }

    lemma InboxFirst(name: Name)
      requires Valid() && name in inbox
      ensures Letters()[name] == inbox[name]
    {
    }

    /** The file is read, its thread line replaced, and the result renamed over it. */
    method Rewrite(name: Name, thread: string, fields: seq<Field>, body: string, update: string, now: nat)
      requires Valid() && Proper(fields) && Plain(update) && update != ""
      requires "thread" in ToMeta(fields) && Fits(thread) && thread != ""
      requires name in whose && whose[name] == update
      requires name in inbox && inbox[name] == Printed(name, fields, body, update, now)
      modifies `inbox
      ensures Valid() && Letters() == old(Letters())[name := Stamp(old(inbox)[name], thread)]
      ensures Origin(Letters()[name]) == "" || Origin(Letters()[name]) == update
      ensures Shows(name, fields, update, now) && !EndsInDashes(thread) ==> Origin(Letters()[name]) == update
      ensures Origin(Letters()[name]) != "" ==> ThreadOf(Letters()[name]) == thread
    {
      hide Origin, Plain, Recorded, Counted, Proper, Printed, Backed, ToMeta, ThreadOf, Grown, Stamp, Fits, Legible;
      hide Inscribed, EndsInDashes;
      var text := ThreadStamp.StampThread(inbox[name], thread);
      StampedOrigin(name, thread, fields, body, update, now);
      InboxFirst(name);
      RewriteKeeps(Letters(), name, text, whose, token);
      inbox := inbox[name := text];
      assert Letters() == old(Letters())[name := text];
    }

    lemma StampedOrigin(n: Name, thread: string, fields: seq<Field>, body: string, update: string, now: nat)
      requires Valid() && Proper(fields) && Plain(update)
      requires "thread" in ToMeta(fields) && Fits(thread) && thread != ""
      ensures var text := Stamp(Printed(n, fields, body, update, now), thread);
              && (Origin(text) == "" || Origin(text) == update)
              && (Shows(n, fields, update, now) && !EndsInDashes(thread) ==> Origin(text) == update)
              && (Origin(text) != "" ==> ThreadOf(text) == thread)
    {
      assert Fits(clock(now)) && Fits(idOf(n)) && Fits(update);
      hide Origin, Plain, Proper, ToMeta, Stamp, Inscribed, Fits, Serialise, Legible, ThreadOf, EndsInDashes, With;
      InscribedIsProper(fields, update, clock(now), idOf(n));
      OriginOfStamped(Inscribed(fields, update, clock(now), idOf(n)), body, update, thread);
    }
  }

  // ---- how an update gets a second letter ----

  /**
   The ledger is lost, and then the one letter that shows the update cannot be read at the moment of
   the lookup: the same update is published again, and two letters show it. The steps are those of two
   calls of PublishOnce.
   */
  method UnreadTwice(m: Mailbox, update: string, fields: seq<Field>, body: string, a: nat, b: nat, now: nat)
    requires m.Valid() && Proper(fields) && Plain(update) && update != "" && !Has(m.whose, update) && a != b
    requires Own(a, m.token(update)) !in m.Letters() && Own(b, m.token(update)) !in m.Letters()
    requires m.Shows(Own(a, m.token(update)), fields, update, now)
    requires m.Shows(Own(b, m.token(update)), fields, update, now)
    modifies m
    ensures m.Valid() && update in m.doubled && old(m.Letters()).Keys <= m.Letters().Keys
    ensures exists x, y :: x != y && x in m.Letters() && y in m.Letters()
                           && Origin(m.Letters()[x]) == update == Origin(m.Letters()[y])
  {
    hide Mailbox.Valid, Proper, Plain, Origin, Mailbox.Shows, Mailbox.Printed;
    var x, y := Own(a, m.token(update)), Own(b, m.token(update));
    m.Link(x, fields, body, update, now);
    m.Damage();
    assert m.ledger == Unreadable;
    var hit := m.Look(x, update, false, false);
    assert !hit;
    m.NoteMissed(update);
    m.Link(y, fields, body, update, now);
    assert x != y && x in m.Letters() && y in m.Letters();
    assert Origin(m.Letters()[x]) == update == Origin(m.Letters()[y]);
  }

  /**
   The same without a failed read, where a field of the envelope ends in dashes: the letter is read and
   shows no update. Here the operations themselves are called, and nothing fails but the ledger.
   */
  method IllegibleTwice(
      m: Mailbox, update: string, fields: seq<Field>, key: string, body: string, a: nat, b: nat, now: nat)
    requires m.Valid() && Proper(fields) && Plain(update) && update != "" && !Has(m.whose, update) && a != b
    requires Own(a, m.token(update)) !in m.Letters() && Own(b, m.token(update)) !in m.Letters()
    requires key in ENVELOPE_ORDER && key != "id" && key in ToMeta(fields) && EndsInDashes(ToMeta(fields)[key])
    requires m.quiet
    modifies m
    ensures m.Valid() && update in m.doubled
    ensures m.whose.Keys == old(m.whose).Keys + {Own(a, m.token(update)), Own(b, m.token(update))}
  {
    hide *;
    FirstHidden(m, update, fields, key, body, a, now);
    NewIsAlone(old(m.Letters()), m.Letters(), Own(a, m.token(update)), Own(b, m.token(update)));
    m.Damage();
    var r, made, named, unread := m.PublishOnce(update, fields, body, b, now);
  }

  /** The first letter of an update, with a field in dashes: it is there and does not show the update. */
  method FirstHidden(m: Mailbox, update: string, fields: seq<Field>, key: string, body: string, a: nat, now: nat)
    requires m.Valid() && Proper(fields) && Plain(update) && update != "" && !Has(m.whose, update)
    requires Own(a, m.token(update)) !in m.Letters() && m.quiet
    requires key in ENVELOPE_ORDER && key != "id" && key in ToMeta(fields) && EndsInDashes(ToMeta(fields)[key])
    modifies m
    ensures m.Valid() && Has(m.whose, update) && Missed(m.Letters(), m.whose, update, {})
    ensures m.whose == old(m.whose)[Own(a, m.token(update)) := update]
    ensures NewAt(old(m.Letters()), m.Letters(), Own(a, m.token(update)))
  {
    var x := Own(a, m.token(update));
    NoLetterYet(m, update);
    HiddenByDashes(m, x, fields, key, update, now);
    hide *;
    var r, made, named, unread := m.PublishOnce(update, fields, body, a, now);
    assert made == Some(x);
    FoundNowhere(m, old(m.whose), x, fields, body, update, now);
  }

  lemma NoLetterYet(m: Mailbox, update: string)
    requires m.Valid() && !Has(m.whose, update)
    ensures !(m.ledger.Entries? && update in m.ledger.ids) && Missed(m.Letters(), m.whose, update, {})
  {
    hide Origin, Plain, Recorded, Counted;
  }

  lemma HiddenByDashes(m: Mailbox, n: Name, fields: seq<Field>, key: string, update: string, now: nat)
    requires m.Valid() && Proper(fields) && Plain(update)
    requires key in ENVELOPE_ORDER && key != "id" && key in ToMeta(fields) && EndsInDashes(ToMeta(fields)[key])
    ensures !m.Shows(n, fields, update, now)
  {
    assert Fits(m.clock(now)) && Fits(m.idOf(n)) && Fits(update);
    hide Mailbox.Valid, Proper, Plain, Origin, Inscribed, Legible, ToMeta, EndsInDashes, Fits;
    DashesHideUpdate(fields, key, update, m.clock(now), m.idOf(n));
  }

  /** The one letter of the update does not show it. */
  lemma FoundNowhere(
      m: Mailbox, before: map<Name, string>, n: Name, fields: seq<Field>, body: string, update: string, now: nat)
    requires m.Valid() && Proper(fields) && Plain(update) && !Has(before, update) && !m.Shows(n, fields, update, now)
    requires m.whose == before[n := update] && n in m.Letters()
    requires m.Letters()[n] == m.Printed(n, fields, body, update, now)
    ensures Has(m.whose, update) && Missed(m.Letters(), m.whose, update, {})
  {
    m.PrintedOrigin(n, fields, body, update, now);
    hide Mailbox.Valid, Proper, Plain, Origin, Mailbox.Printed, Mailbox.Shows;
    assert forall k :: k in m.whose && m.whose[k] == update ==> k == n;
    assert n in m.whose && m.whose[n] == update;
  }

  lemma SameKept(whose: map<Name, string>)
    ensures Kept(whose, whose)
  {
  }

  lemma GrownHas(a: Folder, b: Folder)
    requires Grown(a, b)
    ensures a.Keys <= b.Keys
  {
  }

  lemma GrownAt(a: Folder, b: Folder, n: Name)
    requires Grown(a, b) && n in a
    ensures n in b && b[n] == a[n] && a.Keys <= b.Keys
  {
  }
}
